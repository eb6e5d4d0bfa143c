/**
 * Shared vocabulary of the URBAN5 model: the optional value used for the
 * JavaScript `null`, the six cameras, the six cardinal directions, the
 * surface kinds, grid positions and the fixed design dimensions.
 */
module Common {

  datatype Option<T> = None | Some(value: T)
  {
    function GetOr(default: T): T
    {
      if Some? then value else default
    }
  }

  /** CamerasEnum; the enum file itself is not part of this model. */
  datatype Camera = North | South | East | West | Top | Bottom
  {
    /** `rotateLeft`: north, east, south, west and round again; the cameras above and below stay. */
    function RotatedLeft(): Camera
    {
      match this
      case North => East
      case East => South
      case South => West
      case West => North
      case _ => this
    }

    /** `rotateRight`: north, west, south, east and round again; the cameras above and below stay. */
    function RotatedRight(): Camera
    {
      match this
      case North => West
      case West => South
      case South => East
      case East => North
      case _ => this
    }
  }

  /** Turning right undoes turning left and the other way round. */
  lemma RotationsInverse(c: Camera)
    ensures c.RotatedLeft().RotatedRight() == c && c.RotatedRight().RotatedLeft() == c
  {
  }

  /** Four left turns come back to a side camera and visit four different ones on the way; the cameras above and below never turn. */
  lemma RotationCycle(c: Camera)
    ensures c.RotatedLeft().RotatedLeft().RotatedLeft().RotatedLeft() == c
    ensures c !in {Top, Bottom} ==>
      c.RotatedLeft() != c && c.RotatedLeft().RotatedLeft() != c && c.RotatedLeft().RotatedLeft().RotatedLeft() != c
    ensures c in {Top, Bottom} ==> c.RotatedLeft() == c && c.RotatedRight() == c
  {
  }

  /** The cardinal directions 'n', 'e', 's', 'w', 't' (up) and 'b' (down). */
  datatype Dir = N | E | S | W | T | B
  {
    /** The one-letter string the JavaScript code uses for the direction. */
    function Char(): char
    {
      match this
      case N => 'n'
      case E => 'e'
      case S => 's'
      case W => 'w'
      case T => 't'
      case B => 'b'
    }

    function Opposite(): (d: Dir)
      ensures d != this
      ensures d.Horizontal() == Horizontal()
    {
      match this
      case N => S
      case S => N
      case E => W
      case W => E
      case T => B
      case B => T
    }

    predicate Horizontal()
    {
      this in {N, E, S, W}
    }
  }

  lemma OppositeInvolutive(d: Dir)
    ensures d.Opposite().Opposite() == d
  {
  }

  /** SurfacesEnum. */
  datatype Surface = Solid | Trans | Part | NoSurface

  /** The six surfaces of a cube, keyed by direction. */
  datatype Surfaces = Surfaces(n: Surface, e: Surface, s: Surface, w: Surface, t: Surface, b: Surface)
  {
    function Get(d: Dir): Surface
    {
      match d
      case N => n
      case E => e
      case S => s
      case W => w
      case T => t
      case B => b
    }

    function Set(d: Dir, v: Surface): (r: Surfaces)
      ensures r.Get(d) == v
      ensures forall o: Dir :: o != d ==> r.Get(o) == Get(o)
    {
      match d
      case N => this.(n := v)
      case E => this.(e := v)
      case S => this.(s := v)
      case W => this.(w := v)
      case T => this.(t := v)
      case B => this.(b := v)
    }
  }

  const AllSolid := Surfaces(Solid, Solid, Solid, Solid, Solid, Solid)

  /** ObjectsEnum of src/js/enums: CUBE 0, ROOF 1, TREE 2, FOLIAGE 3, PERSON 4. */
  const CUBE := 0
  const ROOF := 1
  const TREE := 2
  const FOLIAGE := 3
  const PERSON := 4

  datatype Pos = Pos(x: int, y: int, z: int)

  /** The design settings: a 17 x 17 x 7 grid drawn on an 852 pixel canvas. */
  const GridSize := 17
  const XMax := 17
  const YMax := 17
  const ZMax := 7
  const CanvasSize := 852

  /** Decimal rendering of a natural number, as JavaScript's `String(n)`. */
  function NatToString(n: nat): (s: string)
    ensures |s| > 0
    ensures forall i :: 0 <= i < |s| ==> '0' <= s[i] <= '9'
  {
    if n < 10 then [DigitChar(n)] else NatToString(n / 10) + [DigitChar(n % 10)]
  }

  function DigitChar(d: nat): (c: char)
    requires d < 10
    ensures '0' <= c <= '9'
    ensures c as int - '0' as int == d
  {
    (d + '0' as int) as char
  }

  predicate IsDigit(c: char)
  {
    '0' <= c <= '9'
  }

  predicate AllDigits(s: string)
  {
    forall i :: 0 <= i < |s| ==> IsDigit(s[i])
  }

  /** The value of a non-empty run of decimal digits. */
  function DigitsValue(s: string): nat
    requires AllDigits(s)
  {
    if s == [] then 0 else DigitsValue(s[..|s| - 1]) * 10 + (s[|s| - 1] as int - '0' as int)
  }

  lemma {:induction false} DigitsValueOfNatToString(n: nat)
    ensures AllDigits(NatToString(n))
    ensures DigitsValue(NatToString(n)) == n
  {
    if n >= 10 {
      DigitsValueOfNatToString(n / 10);
      var s := NatToString(n);
      assert s[..|s| - 1] == NatToString(n / 10);
    }
  }

  /** Two numbers with the same decimal rendering are equal. */
  lemma NatToStringInjective(m: nat, n: nat)
    requires NatToString(m) == NatToString(n)
    ensures m == n
  {
    DigitsValueOfNatToString(m);
    DigitsValueOfNatToString(n);
  }

  /** `String(i)` for any integer. */
  function IntToString(i: int): (s: string)
    ensures |s| > 0
  {
    if i < 0 then "-" + NatToString(-i) else NatToString(i)
  }

  /** The larger of two integers. */
  function Max(a: int, b: int): (m: int)
    ensures m >= a && m >= b
    ensures m == a || m == b
  {
    if a >= b then a else b
  }

  /** The smaller of two integers. */
  function Min(a: int, b: int): (m: int)
    ensures m <= a && m <= b
    ensures m == a || m == b
  {
    if a <= b then a else b
  }

  /** `Math.max` over values that may be `null`; `null` counts as 0. */
  function JsNum(v: Option<int>): int
  {
    if v.Some? then v.value else 0
  }

  /** `Math.max(a, b, c, d)` over values that may be `null`. */
  function JsMax4(a: Option<int>, b: Option<int>, c: Option<int>, d: Option<int>): (m: int)
    ensures m >= JsNum(a) && m >= JsNum(b) && m >= JsNum(c) && m >= JsNum(d)
    ensures m == JsNum(a) || m == JsNum(b) || m == JsNum(c) || m == JsNum(d)
  {
    Max(Max(JsNum(a), JsNum(b)), Max(JsNum(c), JsNum(d)))
  }

  /** `Math.max(a, b, c, d, e, f)` over values that may be `null`. */
  function JsMax6(a: Option<int>, b: Option<int>, c: Option<int>, d: Option<int>, e: Option<int>, f: Option<int>): (m: int)
    ensures m >= JsNum(a) && m >= JsNum(b) && m >= JsNum(c) && m >= JsNum(d) && m >= JsNum(e) && m >= JsNum(f)
    ensures m == JsNum(a) || m == JsNum(b) || m == JsNum(c) || m == JsNum(d) || m == JsNum(e) || m == JsNum(f)
  {
    Max(Max(JsNum(a), JsNum(b)), Max(Max(JsNum(c), JsNum(d)), Max(JsNum(e), JsNum(f))))
  }

  /** A prefix one longer is the prefix with the next element pushed. */
  lemma PrefixPush<T>(w: seq<T>, i: nat)
    requires i < |w|
    ensures w[..i + 1] == w[..i] + [w[i]]
  {
  }
}
