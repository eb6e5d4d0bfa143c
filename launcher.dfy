/**
 * The launcher script: it reads the command-line flags, optionally
 * rebuilds the app, writes the flags file the app reads at start-up,
 * serves the build folder and opens the browser on it. The process work
 * (the build, the file write, the server thread, the browser command) is
 * returned as a list of effects.
 */
module Launcher {
  import opened Common
  import opened Text
  import ConstraintEval

  // ---------------------------------------------------------------------
  // str2bool

  /** A value handed to `str2bool`: already a bool, or a string. */
  datatype PyArg = BoolArg(b: bool) | StrArg(s: string)

  const TrueWords: seq<string> := ["yes", "true", "t", "y", "1"]
  const FalseWords: seq<string> := ["no", "false", "f", "n", "0"]

  /** `str2bool`: `None` is the `ArgumentTypeError` it raises. */
  function Str2Bool(v: PyArg): (r: Option<bool>)
    ensures v.BoolArg? ==> r == Some(v.b)
    ensures v.StrArg? ==> (r == Some(true) <==> ToLower(v.s) in TrueWords)
    ensures v.StrArg? ==> (r == Some(false) <==> ToLower(v.s) in FalseWords)
  {
    match v
    case BoolArg(b) => Some(b)
    case StrArg(s) =>
      if ToLower(s) in TrueWords then Some(true)
      else if ToLower(s) in FalseWords then Some(false)
      else None
  }

  /** The answer does not depend on letter case, and the two word lists do not overlap. */
  lemma Str2BoolIgnoresCase(s: string)
    ensures Str2Bool(StrArg(s)) == Str2Bool(StrArg(ToLower(s)))
    ensures Str2Bool(StrArg(s)).None? <==> ToLower(s) !in TrueWords && ToLower(s) !in FalseWords
  {
    ToLowerIdempotent(s);
  }

  /** Case variants of the words, as the script's help promises: `True` and `YES`. */
  lemma Str2BoolTrueVariants()
    ensures Str2Bool(StrArg("True")) == Some(true)
    ensures Str2Bool(StrArg("YES")) == Some(true)
  {
    assert ToLower("True") == "true";
    assert ToLower("YES") == "yes";
  }

  /** `F` is false, and a word on neither list raises. */
  lemma Str2BoolOtherVariants()
    ensures Str2Bool(StrArg("F")) == Some(false)
    ensures Str2Bool(StrArg("maybe")).None?
  {
    assert ToLower("F") == "f";
    assert ToLower("maybe") == "maybe";
  }

  // ---------------------------------------------------------------------
  // Numbers

  /** `str.isnumeric`, for ASCII text: at least one character, all of them digits. */
  predicate IsNumeric(s: string)
  {
    |s| > 0 && AllDigits(s)
  }

  /** `int(s)`: an optional sign and at least one digit; `None` is the `ValueError` it raises. */
  function PyInt(s: string): Option<int>
  {
    if |s| > 1 && (s[0] == '-' || s[0] == '+') && AllDigits(s[1..]) then
      var v: int := DigitsValue(s[1..]);
      Some(if s[0] == '-' then -v else v)
    else if IsNumeric(s) then Some(DigitsValue(s))
    else None
  }

  /** `int(str(n)) == n`: a port written out by `str` reads back as the same port. */
  lemma PyIntOfString(n: int)
    ensures PyInt(IntToString(n)) == Some(n)
  {
    var s := IntToString(n);
    if n < 0 {
      DigitsValueOfNatToString(-n);
      assert s == "-" + NatToString(-n);
      assert s[1..] == NatToString(-n);
      assert |s| > 1 && s[0] == '-';
    } else {
      DigitsValueOfNatToString(n);
      assert s == NatToString(n);
      assert IsDigit(s[0]);
    }
  }

  // ---------------------------------------------------------------------
  // get_flags

  /** The timeout: the default number of minutes, or the numeric text given on the command line, kept as text. */
  datatype Timeout = Minutes(n: int) | Given(text: string)

  /** `str(timeout)`. */
  function TimeoutText(t: Timeout): string
  {
    match t
    case Minutes(n) => IntToString(n)
    case Given(text) => text
  }

  datatype Flags = Flags(shouldRebuild: bool, isKioskMode: bool, port: int, timeout: Timeout)

  datatype PyError = ArgumentTypeError | ValueError

  /** How `get_flags` ends: with the flags, with `sys.exit` after printing, or with an exception it does not catch. */
  datatype Outcome = Run(flags: Flags) | Exit(status: int, printed: string) | Raised(error: PyError)

  /** What `getopt.getopt` returns: the (option, argument) pairs in command-line order, or its error. */
  datatype Getopt = GetoptError | Opts(opts: seq<(string, string)>)

  const Port := 8000
  const Usage := "run.py -build <should rebuild> -timeout <timeout length> -kiosk <is kiosk mode> -port <port number>"
  const Defaults := Flags(false, true, Port, Minutes(10))

  datatype Step = Continue(flags: Flags) | Stop(outcome: Outcome)

  /** One turn of the option loop. */
  function Handle(f: Flags, opt: string, arg: string): Step
  {
    if opt == "-h" then Stop(Exit(0, Usage))
    else if opt == "-b" || opt == "--build" then
      match Str2Bool(StrArg(arg))
      case Some(b) => Continue(f.(shouldRebuild := b))
      case None => Stop(Raised(ArgumentTypeError))
    else if opt == "-t" || opt == "--timeout" then
      Continue(if IsNumeric(arg) then f.(timeout := Given(arg)) else f)
    else if opt == "-k" || opt == "--kiosk" then
      match Str2Bool(StrArg(arg))
      case Some(b) => Continue(f.(isKioskMode := b))
      case None => Stop(Raised(ArgumentTypeError))
    else if opt == "-p" || opt == "--port" then
      match PyInt(arg)
      case Some(p) => Continue(f.(port := p))
      case None => Stop(Raised(ValueError))
    else Continue(f)
  }

  /** The option loop from given flags over the remaining pairs. */
  function Apply(f: Flags, opts: seq<(string, string)>): Outcome
    decreases |opts|
  {
    if |opts| == 0 then Run(f)
    else match Handle(f, opts[0].0, opts[0].1)
      case Continue(g) => Apply(g, opts[1..])
      case Stop(o) => o
  }

  /** `get_flags` on what `getopt` returned. */
  function FlagsOutcome(parsed: Getopt): Outcome
  {
    match parsed
    case GetoptError => Exit(2, Usage)
    case Opts(opts) => Apply(Defaults, opts)
  }

  /** The loop from the i-th pair: that pair's turn, then the rest. */
  lemma ApplyStep(f: Flags, opts: seq<(string, string)>, i: nat)
    requires i < |opts|
    ensures Apply(f, opts[i..]) == match Handle(f, opts[i].0, opts[i].1)
      case Continue(g) => Apply(g, opts[i + 1..])
      case Stop(o) => o
  {
    assert opts[i..][0] == opts[i] && opts[i..][1..] == opts[i + 1..];
  }

  /** `get_flags`: the defaults, overwritten option by option in command-line order. */
  method GetFlags(parsed: Getopt) returns (outcome: Outcome)
    ensures outcome == FlagsOutcome(parsed)
  {
    if parsed.GetoptError? {
      return Exit(2, Usage);
    }
    var opts := parsed.opts;
    var timeout := Minutes(10);
    var isKioskMode := true;
    var shouldRebuild := false;
    var port := Port;
    for i := 0 to |opts|
      invariant Apply(Flags(shouldRebuild, isKioskMode, port, timeout), opts[i..]) == Apply(Defaults, opts)
    {
      var (opt, arg) := opts[i];
      ApplyStep(Flags(shouldRebuild, isKioskMode, port, timeout), opts, i);
      if opt == "-h" {
        return Exit(0, Usage);
      } else if opt == "-b" || opt == "--build" {
        var b := Str2Bool(StrArg(arg));
        if b.None? {
          return Raised(ArgumentTypeError);
        }
        shouldRebuild := b.value;
      } else if opt == "-t" || opt == "--timeout" {
        if IsNumeric(arg) {
          timeout := Given(arg);
        }
      } else if opt == "-k" || opt == "--kiosk" {
        var b := Str2Bool(StrArg(arg));
        if b.None? {
          return Raised(ArgumentTypeError);
        }
        isKioskMode := b.value;
      } else if opt == "-p" || opt == "--port" {
        var p := PyInt(arg);
        if p.None? {
          return Raised(ValueError);
        }
        port := p.value;
      }
    }
    outcome := Run(Flags(shouldRebuild, isKioskMode, port, timeout));
  }

  /** With no options the script rebuilds nothing, runs in kiosk mode on port 8000 with a ten-minute timeout. */
  lemma NoOptionsGiveDefaults()
    ensures FlagsOutcome(Opts([])) == Run(Flags(false, true, 8000, Minutes(10)))
    ensures FlagsOutcome(GetoptError) == Exit(2, Usage)
  {
  }

  /** `-h` prints the usage and exits with status 0, whatever follows it. */
  lemma HelpStops(f: Flags, arg: string, rest: seq<(string, string)>)
    ensures Apply(f, [("-h", arg)] + rest) == Exit(0, Usage)
  {
    assert ([("-h", arg)] + rest)[0] == ("-h", arg);
  }

  /** Which variable an option sets, if any. */
  function Target(opt: string): int
  {
    if opt == "-b" || opt == "--build" then 0
    else if opt == "-t" || opt == "--timeout" then 1
    else if opt == "-k" || opt == "--kiosk" then 2
    else if opt == "-p" || opt == "--port" then 3
    else -1
  }

  /**
   * When an option is repeated the later one wins: the earlier one is
   * forgotten, unless the later one is a timeout that is not numeric,
   * which keeps the earlier value.
   */
  lemma {:induction false} LaterOptionWins(f: Flags, a: (string, string), b: (string, string), rest: seq<(string, string)>)
    requires a.0 != "-h" && Target(a.0) >= 0 && Target(a.0) == Target(b.0)
    requires Handle(f, a.0, a.1).Continue?
    requires !(Target(b.0) == 1 && !IsNumeric(b.1))
    ensures Apply(f, [a, b] + rest) == Apply(f, [b] + rest)
  {
    var g := Handle(f, a.0, a.1).flags;
    assert ([a, b] + rest)[0] == a && ([a, b] + rest)[1..] == [b] + rest;
    assert ([b] + rest)[0] == b && ([b] + rest)[1..] == rest;
    assert Handle(g, b.0, b.1) == Handle(f, b.0, b.1);
  }

  /** A timeout that is not numeric is ignored: the loop goes on with the flags as they were. */
  lemma NonNumericTimeoutIgnored(f: Flags, arg: string, rest: seq<(string, string)>)
    requires !IsNumeric(arg)
    ensures Apply(f, [("-t", arg)] + rest) == Apply(f, rest)
    ensures Apply(f, [("--timeout", arg)] + rest) == Apply(f, rest)
  {
    assert ([("-t", arg)] + rest)[1..] == rest;
    assert ([("--timeout", arg)] + rest)[1..] == rest;
  }

  // ---------------------------------------------------------------------
  // update_flags and run

  const FlagsPath := "./build/lib/flags.js"

  // The pieces of the flags file, in the order they are written.
  const Header := "window.URBAN5_flags = {\n"
  const TimeoutLabel := "  timeout: "
  const TimeoutComment := ", // demo timeout (in minutes)\n"
  const KioskLabel := "  isKioskMode: "
  const KioskComment := ", // is going to be run in kiosk mode for display (disable cursor and keyboard hot keys)\n"
  const Closing := "};\n"
  const KioskTail := KioskComment + Closing

  /** `str(flag).lower()`. */
  function BoolText(b: bool): string
  {
    if b then "true" else "false"
  }

  /** What `update_flags` writes: the header line, the timeout line, the kiosk line and the closing line. */
  function FlagsText(isKioskMode: bool, timeout: Timeout): string
  {
    Header + TimeoutLabel + TimeoutText(timeout) + TimeoutComment
      + KioskLabel + BoolText(isKioskMode) + KioskTail
  }

  /** Where the timeout's text starts: after the header line and the timeout label. */
  const TimeoutAt := 35

  predicate EndsWith(text: string, suffix: string)
  {
    |suffix| <= |text| && text[|text| - |suffix|..] == suffix
  }

  /** The `isKioskMode` value a flags file holds, read from its end. */
  function ReadKiosk(text: string): Option<bool>
  {
    if EndsWith(text, "true" + KioskTail) then Some(true)
    else if EndsWith(text, "false" + KioskTail) then Some(false)
    else None
  }

  /** The `timeout` value a flags file holds: the digits where the value starts. */
  function ReadTimeout(text: string): string
  {
    ConstraintEval.LeadingDigits(text, TimeoutAt)
  }

  /** A run of digits ends at the first character that is not one. */
  lemma {:induction false} DigitsUpTo(s: string, i: nat, j: nat)
    requires i <= j < |s| && AllDigits(s[i..j]) && !IsDigit(s[j])
    ensures ConstraintEval.LeadingDigits(s, i) == s[i..j]
    decreases j - i
  {
    if i < j {
      assert s[i..j] == [s[i]] + s[i + 1..j];
      assert s[i + 1..j] == s[i..j][1..];
      assert IsDigit(s[i..j][0]);
      DigitsUpTo(s, i + 1, j);
    }
  }

  lemma EndsWithConcat(a: string, b: string)
    ensures EndsWith(a + b, b)
  {
    assert (a + b)[|a + b| - |b|..] == b;
  }

  /** A text ending in `false` followed by the tail does not end in `true` followed by it. */
  lemma FalseIsNotTrue(front: string, tail: string)
    ensures !EndsWith(front + "false" + tail, "true" + tail)
  {
    var s := front + "false" + tail;
    assert s[|s| - |tail| - 4] == 'a';
  }

  /** The kiosk field of a text laid out as the flags file is. */
  lemma KioskFieldReadBack(front: string, b: bool, tail: string)
    ensures EndsWith(front + BoolText(b) + tail, "true" + tail) <==> b
    ensures EndsWith(front + BoolText(b) + tail, BoolText(b) + tail)
  {
    assert front + BoolText(b) + tail == front + (BoolText(b) + tail);
    EndsWithConcat(front, BoolText(b) + tail);
    if !b {
      FalseIsNotTrue(front, tail);
    }
  }

  lemma Regroup(a: string, b: string, t: string, c: string, d: string, k: string, e: string)
    ensures a + b + t + c + d + k + e == (a + b) + t + (c + d + k + e)
  {
  }

  /** The digits placed after a prefix, and followed by a comma, are read back. */
  lemma DigitsAfter(head: string, t: string, rest: string)
    requires AllDigits(t) && |rest| > 0 && rest[0] == ','
    ensures ConstraintEval.LeadingDigits(head + t + rest, |head|) == t
  {
    var s := head + t + rest;
    assert s[|head|..|head| + |t|] == t;
    assert s[|head| + |t|] == ',';
    DigitsUpTo(s, |head|, |head| + |t|);
  }

  /** The flags file reads back as the timeout it was written from: the digits after the timeout label. */
  lemma TimeoutReadsBack(isKioskMode: bool, timeout: Timeout)
    requires timeout.Given? ==> IsNumeric(timeout.text)
    requires timeout.Minutes? ==> timeout.n >= 0
    ensures ReadTimeout(FlagsText(isKioskMode, timeout)) == TimeoutText(timeout)
  {
    var t := TimeoutText(timeout);
    if timeout.Minutes? {
      DigitsValueOfNatToString(timeout.n);
    }
    var k := BoolText(isKioskMode);
    Regroup(Header, TimeoutLabel, t, TimeoutComment, KioskLabel, k, KioskTail);
    assert |Header + TimeoutLabel| == TimeoutAt;
    assert (TimeoutComment + KioskLabel + k + KioskTail)[0] == ',';
    DigitsAfter(Header + TimeoutLabel, t, TimeoutComment + KioskLabel + k + KioskTail);
  }

  /** The flags file reads back as the kiosk flag it was written from: the value before the kiosk comment. */
  lemma KioskReadsBack(isKioskMode: bool, timeout: Timeout)
    ensures ReadKiosk(FlagsText(isKioskMode, timeout)) == Some(isKioskMode)
  {
    KioskFieldReadBack(Header + TimeoutLabel + TimeoutText(timeout) + TimeoutComment + KioskLabel, isKioskMode, KioskTail);
  }

  const ChromePath := "/Applications/Google\\ Chrome.app/Contents/MacOS/Google\\ Chrome"
  const KioskArg := "--kiosk "
  const AppArg := "--app=http://localhost:"

  /** The browser's arguments in `run`: kiosk mode puts `--kiosk` before the app address. */
  function BrowserArgs(isKioskMode: bool, port: int): string
  {
    (if isKioskMode then KioskArg else "") + AppArg + IntToString(port) + "/"
  }

  function BrowserCommand(isKioskMode: bool, port: int): string
  {
    ChromePath + " " + BrowserArgs(isKioskMode, port)
  }

  /** The address the browser opens names the port the server listens on. */
  lemma BrowserOpensServedPort(isKioskMode: bool, port: int)
    ensures var args := BrowserArgs(isKioskMode, port);
      var start := if isKioskMode then 8 + 23 else 23;
      |args| == start + |IntToString(port)| + 1
      && PyInt(args[start..|args| - 1]) == Some(port) && args[|args| - 1] == '/'
  {
    var front := (if isKioskMode then KioskArg else "") + AppArg;
    var n := IntToString(port);
    assert |front| == if isKioskMode then 8 + 23 else 23;
    assert BrowserArgs(isKioskMode, port) == front + n + "/";
    NumberBeforeSlash(front, n);
    PyIntOfString(port);
  }

  /** Kiosk mode only puts `--kiosk ` before the arguments of a normal window. */
  lemma KioskOnlyPrefixes(port: int)
    ensures BrowserArgs(true, port) == KioskArg + BrowserArgs(false, port)
  {
    var n := IntToString(port);
    assert "" + AppArg == AppArg;
    assert KioskArg + AppArg + n + "/" == KioskArg + (AppArg + n + "/");
  }

  /** A text placed between a prefix and a slash is read back from between them. */
  lemma NumberBeforeSlash(front: string, n: string)
    ensures var args := front + n + "/";
      |args| == |front| + |n| + 1 && args[|front|..|args| - 1] == n && args[|args| - 1] == '/'
  {
    var args := front + n + "/";
    assert args == front + (n + "/");
    assert (n + "/")[..|n|] == n;
  }

  /** The process work of the script, in order. */
  datatype Effect = NpmBuild | WriteFile(path: string, text: string) | StartServer(port: int) | System(command: string)

  /** What the script does once the flags are read. */
  function Effects(f: Flags): seq<Effect>
  {
    (if f.shouldRebuild then [NpmBuild] else [])
      + [WriteFile(FlagsPath, FlagsText(f.isKioskMode, f.timeout)), StartServer(f.port), System(BrowserCommand(f.isKioskMode, f.port))]
  }

  /**
   * The script's main block: read the flags; then rebuild when asked,
   * write the flags file, start the server and open the browser. A run
   * that exits or raises while reading the flags does nothing else.
   */
  method Launch(parsed: Getopt) returns (outcome: Outcome, effects: seq<Effect>)
    ensures outcome == FlagsOutcome(parsed)
    ensures outcome.Run? ==> effects == Effects(outcome.flags)
    ensures !outcome.Run? ==> effects == []
  {
    outcome := GetFlags(parsed);
    effects := [];
    if outcome.Run? {
      var f := outcome.flags;
      if f.shouldRebuild {
        effects := [NpmBuild];
      }
      var text := FlagsText(f.isKioskMode, f.timeout);
      var command := BrowserCommand(f.isKioskMode, f.port);
      effects := effects + [WriteFile(FlagsPath, text), StartServer(f.port), System(command)];
    }
  }
}
