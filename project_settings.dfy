/** The persisted per-project settings of the Arduino support (ArduinoProjectSettings): serial
    monitor options and the build-configuration matcher, with three lazily filled caches and
    change notification grouped by a nesting counter. */
module ProjectSettings {
  import opened JavaText
  import opened Wrappers

  /** Java `int`. */
  newtype int32 = x: int | -0x8000_0000 <= x < 0x8000_0000

  /** BuildConfigurationPatternType. Its constants are stored as int codes, which this model does
      not fix; it only compares them, as the settings class does. */
  datatype PatternType = All | Regex | Prefix | Suffix | Anywhere

  /** The code stored for the serial line ending: that of SerialEndOfLineTypes.LF, the default,
      or some other code. */
  datatype SerialEndOfLine = Lf | OtherCode(code: int32)

  /** Every plain (persisted) field of the settings object. */
  datatype SettingValues = SettingValues(
    port: string,
    baudRate: int32,
    disconnectOnBuild: bool,
    reconnectAfterBuild: bool,
    afterSuccessfulBuild: bool,
    patternType: PatternType,
    regexSampleText: string,
    buildConfigurationNames: string,
    activateOnConnect: bool,
    logConnectDisconnect: bool,
    showSendOptions: bool,
    serialEndOfLine: SerialEndOfLine,
    logSentText: bool,
    immediateSend: bool,
    logExceptions: bool)

  /** The field initialisers of a new settings object. */
  const DEFAULTS := SettingValues(
    "", 9600, true, true, true, Regex, "upload|test-upload|!-upload", "(^|.+-)upload$",
    true, true, true, Lf, true, true, true)

  /** The three lazily filled caches: the compiled name pattern (represented by its source text),
      the build-configuration names list and the regex sample list. */
  datatype Caches = Caches(
    namesPattern: Option<string>, namesList: Option<seq<string>>, regexSampleList: Option<seq<string>>)

  /** A call of one setter. */
  datatype Setter =
    | SetPort(port: string)
    | SetBaudRate(baudRate: int32)
    | SetDisconnectOnBuild(disconnectOnBuild: bool)
    | SetReconnectAfterBuild(reconnectAfterBuild: bool)
    | SetAfterSuccessfulBuild(afterSuccessfulBuild: bool)
    | SetBuildConfigurationPatternType(patternType: PatternType)
    | SetRegexSampleText(regexSampleText: string)
    | SetBuildConfigurationNames(buildConfigurationNames: string)
    | SetActivateOnConnect(activateOnConnect: bool)
    | SetLogConnectDisconnect(logConnectDisconnect: bool)
    | SetShowSendOptions(showSendOptions: bool)
    | SetSerialEndOfLine(serialEndOfLine: SerialEndOfLine)
    | SetLogSentText(logSentText: bool)
    | SetImmediateSend(immediateSend: bool)
    | SetLogExceptions(logExceptions: bool)

  /** The field values after one setter call: its own field replaced, every other kept. */
  function Apply(v: SettingValues, s: Setter): (r: SettingValues)
  {
    match s
    case SetPort(x) => v.(port := x)
    case SetBaudRate(x) => v.(baudRate := x)
    case SetDisconnectOnBuild(x) => v.(disconnectOnBuild := x)
    case SetReconnectAfterBuild(x) => v.(reconnectAfterBuild := x)
    case SetAfterSuccessfulBuild(x) => v.(afterSuccessfulBuild := x)
    case SetBuildConfigurationPatternType(x) => v.(patternType := x)
    case SetRegexSampleText(x) => v.(regexSampleText := x)
    case SetBuildConfigurationNames(x) => v.(buildConfigurationNames := x)
    case SetActivateOnConnect(x) => v.(activateOnConnect := x)
    case SetLogConnectDisconnect(x) => v.(logConnectDisconnect := x)
    case SetShowSendOptions(x) => v.(showSendOptions := x)
    case SetSerialEndOfLine(x) => v.(serialEndOfLine := x)
    case SetLogSentText(x) => v.(logSentText := x)
    case SetImmediateSend(x) => v.(immediateSend := x)
    case SetLogExceptions(x) => v.(logExceptions := x)
  }

  /** The setters of the build-configuration options. */
  predicate IsBuildSetter(s: Setter)
  {
    || s.SetDisconnectOnBuild? || s.SetReconnectAfterBuild? || s.SetAfterSuccessfulBuild?
    || s.SetBuildConfigurationPatternType? || s.SetRegexSampleText? || s.SetBuildConfigurationNames?
  }

  /** What the Runnable handed to `groupChanges` does, one step at a time: call a setter, run a
      nested group, or throw. */
  datatype Step = Call(setter: Setter) | Nested(body: seq<Step>) | Throw

  datatype RunResult = RunResult(values: SettingValues, threw: bool)

  /** The field values after running `steps`, and whether an exception escaped them. A throw
      ends the run: the steps after it do not happen. */
  function Run(v: SettingValues, steps: seq<Step>): (r: RunResult)
    decreases steps
  {
    if steps == [] then RunResult(v, false)
    else
      match steps[0]
      case Call(s) => Run(Apply(v, s), steps[1..])
      case Nested(body) =>
        var r := Run(v, body);
        if r.threw then r else Run(r.values, steps[1..])
      case Throw => RunResult(v, true)
  }

  /** Running two scripts one after the other is running the first and, unless it threw, the
      second from where the first left off. */
  lemma {:induction false} RunConcat(v: SettingValues, a: seq<Step>, b: seq<Step>)
    ensures Run(v, a + b) == (var r := Run(v, a); if r.threw then r else Run(r.values, b))
    decreases a
  {
    if a == [] {
      assert a + b == b;
    } else {
      assert (a + b)[0] == a[0];
      assert (a + b)[1..] == a[1..] + b;
      match a[0]
      case Call(s) => RunConcat(Apply(v, s), a[1..], b);
      case Nested(body) =>
        var r := Run(v, body);
        if !r.threw {
          RunConcat(r.values, a[1..], b);
        }
      case Throw =>
    }
  }

  /** The names list a cache fill computes: nothing for empty names, the whole text as one regex
      for type REGEX, and otherwise the `|`-separated entries. */
  function NamesListOf(names: string, patternType: PatternType): (r: Option<seq<string>>)
  {
    if names == "" then None
    else if patternType != Regex then Some(Split(names))
    else Some([names])
  }

  /** For a type other than REGEX, a names text written as entries separated by `|`, with any
      whitespace of its own around each `|`, is cached as exactly those entries. */
  lemma NamesListOfJoinedEntries(xs: seq<string>, gaps: seq<Gap>, patternType: PatternType)
    requires patternType != Regex
    requires |xs| == |gaps| + 1 && AreWhitespaceGaps(gaps) && AreEntries(xs)
    requires xs[|xs| - 1] != ""
    ensures NamesListOf(JoinGaps(xs, gaps), patternType) == Some(xs)
  {
    SplitJoinRoundTrip(xs, gaps);
    assert JoinGaps(xs, gaps) != "" by {
      assert Split("") == [""];
    }
  }

  // ----- The build-configuration pattern text -----

  /** What the builder puts between two entries: it closes one quoted run, adds the alternation
      bar and opens the next quoted run. */
  const ENTRY_SEPARATOR: string := "\\E|\\Q"

  /** One entry as a literal regex alternative. */
  function Quote(e: string): (r: string)
  {
    "\\Q" + e + "\\E"
  }

  function QuoteAll(xs: seq<string>): (r: seq<string>)
    ensures |r| == |xs| && forall k :: 0 <= k < |xs| ==> r[k] == Quote(xs[k])
  {
    if xs == [] then [] else [Quote(xs[0])] + QuoteAll(xs[1..])
  }

  /** The entries that the builder uses: the non-empty ones, in order. */
  function NonEmptyEntries(xs: seq<string>): (r: seq<string>)
    ensures forall k :: 0 <= k < |r| ==> r[k] != ""
  {
    if xs == [] then []
    else NonEmptyEntries(xs[..|xs| - 1]) + (if xs[|xs| - 1] != "" then [xs[|xs| - 1]] else [])
  }

  function StartAnchor(patternType: PatternType): (r: string)
  {
    if patternType == Prefix then "^" else ""
  }

  function EndAnchor(patternType: PatternType): (r: string)
  {
    if patternType == Suffix then "$" else ""
  }

  /** A non-capturing group of literal alternatives, one per entry of `used`, or of the empty
      literal when `used` is empty. */
  function Alternation(used: seq<string>): (r: string)
  {
    "(?:" + (if used == [] then Quote("") else Join(QuoteAll(used), "|")) + ")"
  }

  /** The pattern text for a non-REGEX type: the alternation of the non-empty entries, anchored
      at the start for PREFIX and at the end for SUFFIX. */
  function PatternText(patternType: PatternType, entries: seq<string>): (r: string)
  {
    StartAnchor(patternType) + Alternation(NonEmptyEntries(entries)) + EndAnchor(patternType)
  }

  /** Separating entries by `\E|\Q` inside one outer `\Q`...`\E` is the same as quoting each
      entry on its own and separating the quoted entries by `|`. */
  lemma {:induction false} QuotedJoin(xs: seq<string>)
    requires xs != []
    ensures "\\Q" + Join(xs, ENTRY_SEPARATOR) + "\\E" == Join(QuoteAll(xs), "|")
  {
    if |xs| == 1 {
      assert QuoteAll(xs) == [Quote(xs[0])];
    } else {
      var rest := Join(xs[1..], ENTRY_SEPARATOR);
      QuotedJoin(xs[1..]);
      assert QuoteAll(xs)[1..] == QuoteAll(xs[1..]);
      calc {
        "\\Q" + Join(xs, ENTRY_SEPARATOR) + "\\E";
        "\\Q" + (xs[0] + ENTRY_SEPARATOR + rest) + "\\E";
        { assert ENTRY_SEPARATOR == "\\E" + "|" + "\\Q"; }
        ("\\Q" + xs[0] + "\\E") + "|" + ("\\Q" + rest + "\\E");
        Quote(xs[0]) + "|" + Join(QuoteAll(xs[1..]), "|");
        Join(QuoteAll(xs), "|");
      }
    }
  }

  /** The group as the builder writes it, one `\Q` after the opening, `\E|\Q` between entries
      and `\E` before the closing, is the alternation of the entries. */
  lemma AlternationAsBuilt(used: seq<string>)
    ensures "(?:\\Q" + Join(used, ENTRY_SEPARATOR) + "\\E)" == Alternation(used)
  {
    var open: string := "(?:";
    var close: string := ")";
    assert "(?:\\Q" + Join(used, ENTRY_SEPARATOR) + "\\E)"
        == open + ("\\Q" + Join(used, ENTRY_SEPARATOR) + "\\E") + close;
    if used != [] {
      QuotedJoin(used);
    }
  }

  lemma NonEmptyEntriesStep(xs: seq<string>, i: nat)
    requires i < |xs|
    ensures NonEmptyEntries(xs[..i + 1])
         == NonEmptyEntries(xs[..i]) + (if xs[i] != "" then [xs[i]] else [])
  {
    assert xs[..i + 1][..i] == xs[..i];
  }

  /** One turn of the builder loop: appending `sep` and a non-empty entry extends the joined
      entries by that entry. */
  lemma BuilderStep(head: string, done: seq<string>, sep: string, prefix: string)
    requires sep == if done == [] then "" else ENTRY_SEPARATOR
    ensures head + Join(done, ENTRY_SEPARATOR) + sep + prefix == head + Join(done + [prefix], ENTRY_SEPARATOR)
  {
    var joined := Join(done, ENTRY_SEPARATOR);
    if done == [] {
      assert done + [prefix] == [prefix];
      assert head + joined + sep == head;
    } else {
      JoinAppend(done, prefix, ENTRY_SEPARATOR);
    }
  }

  lemma Regroup(a: string, b: string, c: string, d: string, e: string)
    ensures a + b + c + d + e == a + (b + c + d) + e
  {
  }

  /** Closing the builder's text: the opening written before the loop, the joined entries and
      the closing form the anchored alternation. */
  lemma BuilderClose(patternType: PatternType, used: seq<string>)
    ensures StartAnchor(patternType) + "(?:\\Q" + Join(used, ENTRY_SEPARATOR) + "\\E)" + EndAnchor(patternType)
         == StartAnchor(patternType) + Alternation(used) + EndAnchor(patternType)
  {
    AlternationAsBuilt(used);
    Regroup(StartAnchor(patternType), "(?:\\Q", Join(used, ENTRY_SEPARATOR), "\\E)", EndAnchor(patternType));
  }

  /** The text that `getBuildConfigurationNamesPattern` assembles in its StringBuilder for a
      non-REGEX type from the names list; the `sep` variable is empty until the first non-empty
      entry has been appended. */
  method BuildPatternText(patternType: PatternType, prefixList: seq<string>) returns (text: string)
    ensures text == PatternText(patternType, prefixList)
  {
    var sb := "";
    if patternType == Prefix {
      sb := sb + "^";
    }
    assert sb == StartAnchor(patternType);
    sb := sb + "(?:\\Q";
    ghost var head := sb;
    var sep := "";
    for i := 0 to |prefixList|
      invariant sb == head + Join(NonEmptyEntries(prefixList[..i]), ENTRY_SEPARATOR)
      invariant sep == if NonEmptyEntries(prefixList[..i]) == [] then "" else ENTRY_SEPARATOR
    {
      var prefix := prefixList[i];
      NonEmptyEntriesStep(prefixList, i);
      if prefix != "" {
        BuilderStep(head, NonEmptyEntries(prefixList[..i]), sep, prefix);
        sb := sb + sep;
        sep := ENTRY_SEPARATOR;
        sb := sb + prefix;
      } else {
        assert NonEmptyEntries(prefixList[..i]) + [] == NonEmptyEntries(prefixList[..i]);
      }
    }
    assert prefixList[..|prefixList|] == prefixList;
    ghost var before := sb;
    sb := sb + "\\E)";
    if patternType == Suffix {
      sb := sb + "$";
    } else {
      assert sb == sb + EndAnchor(patternType);
    }
    text := sb;
    BuilderClose(patternType, NonEmptyEntries(prefixList));
  }

  lemma AlternationIsGroup(used: seq<string>)
    ensures var g := Alternation(used); |g| >= 2 && g[0] == '(' && g[|g| - 1] == ')'
  {
  }

  /** The text starts with `^` exactly for PREFIX and ends with `$` exactly for SUFFIX, whatever
      the entries hold. */
  lemma PatternTextAnchors(patternType: PatternType, entries: seq<string>)
    ensures var text := PatternText(patternType, entries);
      |text| >= 2 && (text[0] == '^' <==> patternType == Prefix)
      && (text[|text| - 1] == '$' <==> patternType == Suffix)
  {
    var g := Alternation(NonEmptyEntries(entries));
    AlternationIsGroup(NonEmptyEntries(entries));
    var text := PatternText(patternType, entries);
    var a, b := StartAnchor(patternType), EndAnchor(patternType);
    assert text == a + g + b;
    assert text[0] == if a == "" then g[0] else a[0];
    assert text[|text| - 1] == if b == "" then g[|g| - 1] else b[0];
  }

  lemma {:induction false} NonEmptyEntriesIdempotent(xs: seq<string>)
    ensures NonEmptyEntries(NonEmptyEntries(xs)) == NonEmptyEntries(xs)
  {
    if xs != [] {
      var init := xs[..|xs| - 1];
      var r := NonEmptyEntries(init);
      NonEmptyEntriesIdempotent(init);
      if xs[|xs| - 1] != "" {
        var r' := r + [xs[|xs| - 1]];
        assert r'[..|r'| - 1] == r;
      } else {
        assert r + [] == r;
      }
    }
  }

  /** Empty entries contribute nothing to the pattern, not even a separator. */
  lemma EmptyEntriesIgnored(patternType: PatternType, entries: seq<string>)
    ensures PatternText(patternType, entries) == PatternText(patternType, NonEmptyEntries(entries))
  {
    NonEmptyEntriesIdempotent(entries);
  }

  /** `part` occurs in `whole` starting at index `i`. */
  predicate OccursAt(part: string, whole: string, i: int)
  {
    0 <= i <= |whole| - |part| && whole[i..i + |part|] == part
  }

  ghost predicate IsSubstring(part: string, whole: string)
  {
    exists i :: OccursAt(part, whole, i)
  }

  lemma OccursInConcat(part: string, a: string, b: string, c: string, i: int)
    requires OccursAt(part, b, i)
    ensures OccursAt(part, a + b + c, |a| + i)
  {
    assert (a + b + c)[|a| + i..|a| + i + |part|] == b[i..i + |part|];
  }

  lemma {:induction false} JoinContainsEntry(xs: seq<string>, sep: string, m: nat) returns (i: int)
    requires m < |xs|
    ensures OccursAt(xs[m], Join(xs, sep), i)
  {
    var e: string := [];
    if |xs| == 1 {
      assert OccursAt(xs[0], e + xs[0] + e, 0);
      assert e + xs[0] + e == xs[0];
      i := 0;
    } else if m == 0 {
      var rest := sep + Join(xs[1..], sep);
      assert OccursAt(xs[0], e + xs[0] + rest, 0);
      assert e + xs[0] + rest == Join(xs, sep);
      i := 0;
    } else {
      var k := JoinContainsEntry(xs[1..], sep, m - 1);
      OccursInConcat(xs[m], xs[0] + sep, Join(xs[1..], sep), e, k);
      assert (xs[0] + sep) + Join(xs[1..], sep) + e == Join(xs, sep);
      i := |xs[0] + sep| + k;
    }
  }

  lemma NonEmptyEntriesContains(xs: seq<string>, k: nat) returns (m: nat)
    requires k < |xs| && xs[k] != ""
    ensures m < |NonEmptyEntries(xs)| && NonEmptyEntries(xs)[m] == xs[k]
    decreases |xs|
  {
    var init := xs[..|xs| - 1];
    if k == |xs| - 1 {
      m := |NonEmptyEntries(init)|;
    } else {
      m := NonEmptyEntriesContains(init, k);
    }
  }

  /** Every non-empty entry appears in the pattern text as a quoted literal. */
  lemma PatternTextQuotesEveryEntry(patternType: PatternType, entries: seq<string>, k: nat)
    requires k < |entries| && entries[k] != ""
    ensures IsSubstring(Quote(entries[k]), PatternText(patternType, entries))
  {
    var used := NonEmptyEntries(entries);
    var m := NonEmptyEntriesContains(entries, k);
    var quoted := QuoteAll(used);
    var i := JoinContainsEntry(quoted, "|", m);
    var inner := Join(quoted, "|");
    var open: string := "(?:";
    var close: string := ")";
    OccursInConcat(quoted[m], open, inner, close, i);
    assert Alternation(used) == open + inner + close;
    var j := |open| + i;
    OccursInConcat(quoted[m], StartAnchor(patternType), Alternation(used), EndAnchor(patternType), j);
  }

  // ----- The settings object -----

  /** The pattern lookup's outcome: the cached pattern (null when there are no names), or the
      PatternSyntaxException that compiling `text` raised. */
  datatype PatternResult = Compiled(pattern: Option<string>) | CompileError(text: string)

  class ArduinoProjectSettings {
    /** Whether the object belongs to a project (myProject != null). */
    const hasProject: bool
    /** myGroupCount: how many groupChanges calls are running. */
    var groupCount: nat
    /** How many settings-changed events went out on the project's message bus. */
    var published: nat

    var port: string
    var baudRate: int32
    var disconnectOnBuild: bool
    var reconnectAfterBuild: bool
    var afterSuccessfulBuild: bool
    var patternType: PatternType
    var regexSampleText: string
    var buildConfigurationNames: string
    var activateOnConnect: bool
    var logConnectDisconnect: bool
    var showSendOptions: bool
    var serialEndOfLine: SerialEndOfLine
    var logSentText: bool
    var immediateSend: bool
    var logExceptions: bool

    var namesPattern: Option<string>
    var namesList: Option<seq<string>>
    var regexSampleList: Option<seq<string>>

    function Current(): SettingValues
      reads this
    {
      SettingValues(
        port, baudRate, disconnectOnBuild, reconnectAfterBuild, afterSuccessfulBuild,
        patternType, regexSampleText, buildConfigurationNames, activateOnConnect,
        logConnectDisconnect, showSendOptions, serialEndOfLine, logSentText, immediateSend,
        logExceptions)
    }

    function CachedValues(): Caches
      reads this
    {
      Caches(namesPattern, namesList, regexSampleList)
    }

    constructor (hasProject: bool)
      ensures this.hasProject == hasProject
      ensures Current() == DEFAULTS
      ensures CachedValues() == Caches(None, None, None)
      ensures groupCount == 0 && published == 0
    {
      this.hasProject := hasProject;
      groupCount, published := 0, 0;
      port, baudRate := "", 9600;
      disconnectOnBuild, reconnectAfterBuild, afterSuccessfulBuild := true, true, true;
      patternType := Regex;
      regexSampleText := "upload|test-upload|!-upload";
      buildConfigurationNames := "(^|.+-)upload$";
      activateOnConnect, logConnectDisconnect, showSendOptions := true, true, true;
      serialEndOfLine := Lf;
      logSentText, immediateSend, logExceptions := true, true, true;
      namesPattern, namesList, regexSampleList := None, None, None;
    }

    method SetSerialEndOfLine(serialEndOfLine: SerialEndOfLine)
      modifies this`serialEndOfLine
      ensures Current() == old(Current()).(serialEndOfLine := serialEndOfLine)
    {
      this.serialEndOfLine := serialEndOfLine;
    }

    method SetLogSentText(logSentText: bool)
      modifies this`logSentText
      ensures Current() == old(Current()).(logSentText := logSentText)
    {
      this.logSentText := logSentText;
    }

    method SetImmediateSend(immediateSend: bool)
      modifies this`immediateSend
      ensures Current() == old(Current()).(immediateSend := immediateSend)
    {
      this.immediateSend := immediateSend;
    }

    method SetLogExceptions(logExceptions: bool)
      modifies this`logExceptions
      ensures Current() == old(Current()).(logExceptions := logExceptions)
    {
      this.logExceptions := logExceptions;
    }

    method SetShowSendOptions(showSendOptions: bool)
      modifies this`showSendOptions
      ensures Current() == old(Current()).(showSendOptions := showSendOptions)
    {
      this.showSendOptions := showSendOptions;
    }

    method SetPort(port: string)
      modifies this`port
      ensures Current() == old(Current()).(port := port)
    {
      this.port := port;
    }

    method SetBaudRate(baudRate: int32)
      modifies this`baudRate
      ensures Current() == old(Current()).(baudRate := baudRate)
    {
      this.baudRate := baudRate;
    }

    method SetDisconnectOnBuild(disconnectOnBuild: bool)
      modifies this`disconnectOnBuild
      ensures Current() == old(Current()).(disconnectOnBuild := disconnectOnBuild)
    {
      this.disconnectOnBuild := disconnectOnBuild;
    }

    method SetReconnectAfterBuild(reconnectAfterBuild: bool)
      modifies this`reconnectAfterBuild
      ensures Current() == old(Current()).(reconnectAfterBuild := reconnectAfterBuild)
    {
      this.reconnectAfterBuild := reconnectAfterBuild;
    }

    /** Changes the type only; a names list or pattern already cached stays as it is. */
    method SetBuildConfigurationPatternType(patternType: PatternType)
      modifies this`patternType
      ensures Current() == old(Current()).(patternType := patternType)
    {
      this.patternType := patternType;
    }

    /** Changes the sample text only; a sample list already cached stays as it is. */
    method SetRegexSampleText(regexSampleText: string)
      modifies this`regexSampleText
      ensures Current() == old(Current()).(regexSampleText := regexSampleText)
    {
      this.regexSampleText := regexSampleText;
    }

    /** Changes the names only; a names list or pattern already cached stays as it is. */
    method SetBuildConfigurationNames(buildConfigurationNames: string)
      modifies this`buildConfigurationNames
      ensures Current() == old(Current()).(buildConfigurationNames := buildConfigurationNames)
    {
      this.buildConfigurationNames := buildConfigurationNames;
    }

    method SetAfterSuccessfulBuild(afterSuccessfulBuild: bool)
      modifies this`afterSuccessfulBuild
      ensures Current() == old(Current()).(afterSuccessfulBuild := afterSuccessfulBuild)
    {
      this.afterSuccessfulBuild := afterSuccessfulBuild;
    }

    method SetActivateOnConnect(activateOnConnect: bool)
      modifies this`activateOnConnect
      ensures Current() == old(Current()).(activateOnConnect := activateOnConnect)
    {
      this.activateOnConnect := activateOnConnect;
    }

    method SetLogConnectDisconnect(logConnectDisconnect: bool)
      modifies this`logConnectDisconnect
      ensures Current() == old(Current()).(logConnectDisconnect := logConnectDisconnect)
    {
      this.logConnectDisconnect := logConnectDisconnect;
    }

    /** Calls the setter that `s` names. */
    method Perform(s: Setter)
      modifies this
      ensures Current() == Apply(old(Current()), s)
      ensures CachedValues() == old(CachedValues())
      ensures groupCount == old(groupCount) && published == old(published)
    {
      if s.SetPort? || s.SetBaudRate? {
        PerformConnectionSetter(s);
      } else if IsBuildSetter(s) {
        PerformBuildSetter(s);
      } else {
        PerformMonitorSetter(s);
      }
    }

    method PerformConnectionSetter(s: Setter)
      requires s.SetPort? || s.SetBaudRate?
      modifies this
      ensures Current() == Apply(old(Current()), s)
      ensures CachedValues() == old(CachedValues())
      ensures groupCount == old(groupCount) && published == old(published)
    {
      match s
      case SetPort(x) => SetPort(x);
      case SetBaudRate(x) => SetBaudRate(x);
    }

    method PerformBuildSetter(s: Setter)
      requires IsBuildSetter(s)
      modifies this
      ensures Current() == Apply(old(Current()), s)
      ensures CachedValues() == old(CachedValues())
      ensures groupCount == old(groupCount) && published == old(published)
    {
      match s
      case SetDisconnectOnBuild(x) => SetDisconnectOnBuild(x);
      case SetReconnectAfterBuild(x) => SetReconnectAfterBuild(x);
      case SetAfterSuccessfulBuild(x) => SetAfterSuccessfulBuild(x);
      case SetBuildConfigurationPatternType(x) => SetBuildConfigurationPatternType(x);
      case SetRegexSampleText(x) => SetRegexSampleText(x);
      case SetBuildConfigurationNames(x) => SetBuildConfigurationNames(x);
    }

    method PerformMonitorSetter(s: Setter)
      requires !(s.SetPort? || s.SetBaudRate? || IsBuildSetter(s))
      modifies this
      ensures Current() == Apply(old(Current()), s)
      ensures CachedValues() == old(CachedValues())
      ensures groupCount == old(groupCount) && published == old(published)
    {
      match s
      case SetActivateOnConnect(x) => SetActivateOnConnect(x);
      case SetLogConnectDisconnect(x) => SetLogConnectDisconnect(x);
      case SetShowSendOptions(x) => SetShowSendOptions(x);
      case SetSerialEndOfLine(x) => SetSerialEndOfLine(x);
      case SetLogSentText(x) => SetLogSentText(x);
      case SetImmediateSend(x) => SetImmediateSend(x);
      case SetLogExceptions(x) => SetLogExceptions(x);
    }

    /** Runs `grouped` with the group counter raised by one. The counter goes back down whether
        or not `grouped` throws (the finally block), and the one settings-changed event goes out
        when it is back at 0 and a project is present, so nested groups publish once, at the end
        of the outermost. */
    method GroupChanges(grouped: seq<Step>) returns (threw: bool)
      modifies this
      ensures groupCount == old(groupCount)
      ensures published == old(published) + (if old(groupCount) == 0 && hasProject then 1 else 0)
      ensures Run(old(Current()), grouped) == RunResult(Current(), threw)
      ensures CachedValues() == old(CachedValues())
      decreases grouped, 1
    {
      groupCount := groupCount + 1;
      threw := RunGrouped(grouped);
      groupCount := groupCount - 1;
      if groupCount == 0 {
        FireSettingsChanged();
      }
    }

    /** Publishes one settings-changed event when no group is running and a project is present. */
    method FireSettingsChanged()
      modifies this`published
      ensures published == old(published) + (if groupCount == 0 && hasProject then 1 else 0)
    {
      if groupCount == 0 && hasProject {
        published := published + 1;
      }
    }

    /** The body of the grouped Runnable, run inside an open group. */
    method RunGrouped(steps: seq<Step>) returns (threw: bool)
      requires groupCount > 0
      modifies this
      ensures groupCount == old(groupCount) && published == old(published)
      ensures Run(old(Current()), steps) == RunResult(Current(), threw)
      ensures CachedValues() == old(CachedValues())
      decreases steps, 0
    {
      threw := false;
      var i := 0;
      while i < |steps| && !threw
        invariant 0 <= i <= |steps|
        invariant groupCount == old(groupCount) && published == old(published)
        invariant CachedValues() == old(CachedValues())
        invariant Run(old(Current()), steps)
               == if threw then RunResult(Current(), true) else Run(Current(), steps[i..])
        decreases |steps| - i
      {
        assert steps[i..][0] == steps[i] && steps[i..][1..] == steps[i + 1..];
        match steps[i] {
          case Call(s) =>
            Perform(s);
          case Nested(body) =>
            threw := GroupChanges(body);
          case Throw =>
            threw := true;
        }
        i := i + 1;
      }
    }

    /** The names list, computed and cached on first use. The cache is never cleared, so once
        filled it is returned as it is, whatever the names and type are now. */
    method GetBuildConfigurationNamesList() returns (list: Option<seq<string>>)
      modifies this`namesList
      ensures list == if old(namesList).Some? then old(namesList)
                      else NamesListOf(buildConfigurationNames, patternType)
      ensures namesList == list
    {
      if namesList.None? && buildConfigurationNames != "" {
        if patternType != Regex {
          namesList := Some(Split(buildConfigurationNames));
        } else {
          namesList := Some([buildConfigurationNames]);
        }
      }
      list := namesList;
    }

    /** Fills the sample-list cache on first use, but returns the names-list cache. */
    method GetRegexSampleList() returns (list: Option<seq<string>>)
      modifies this`regexSampleList
      ensures list == namesList
      ensures regexSampleList
           == if old(regexSampleList).None? && regexSampleText != "" then Some(Split(regexSampleText))
              else old(regexSampleList)
    {
      if regexSampleList.None? && regexSampleText != "" {
        regexSampleList := Some(Split(regexSampleText));
      }
      list := namesList;
    }

    /** The names pattern, compiled and cached on first use. For REGEX the names are the
        pattern; otherwise the text comes from the (possibly cached) names list. When
        compilation fails, the type is reset to ANYWHERE, nothing is cached and the error is
        passed on. `compiles` says which texts Pattern.compile accepts. */
    method GetBuildConfigurationNamesPattern(compiles: string -> bool) returns (r: PatternResult)
      modifies this`namesPattern, this`namesList, this`patternType
      ensures old(namesPattern).Some? || buildConfigurationNames == "" ==>
        r == Compiled(old(namesPattern)) && CachedValues() == old(CachedValues())
        && patternType == old(patternType)
      ensures old(namesPattern).None? && buildConfigurationNames != "" && old(patternType) == Regex ==>
        var text := buildConfigurationNames;
        && namesList == old(namesList)
        && (compiles(text) ==> r == Compiled(Some(text)) && namesPattern == Some(text) && patternType == Regex)
        && (!compiles(text) ==> r == CompileError(text) && namesPattern == None && patternType == Anywhere)
      ensures old(namesPattern).None? && buildConfigurationNames != "" && old(patternType) != Regex ==>
        && namesList == (if old(namesList).Some? then old(namesList)
                         else NamesListOf(buildConfigurationNames, old(patternType)))
        && namesList.Some?
        && var text := PatternText(old(patternType), namesList.value);
        && (compiles(text) ==>
              r == Compiled(Some(text)) && namesPattern == Some(text) && patternType == old(patternType))
        && (!compiles(text) ==> r == CompileError(text) && namesPattern == None && patternType == Anywhere)
    {
      if namesPattern.None? && buildConfigurationNames != "" {
        if patternType == Regex {
          if compiles(buildConfigurationNames) {
            namesPattern := Some(buildConfigurationNames);
          } else {
            patternType := Anywhere;
            return CompileError(buildConfigurationNames);
          }
        } else {
          var prefixList := GetBuildConfigurationNamesList();
          var text := BuildPatternText(patternType, prefixList.value);
          if compiles(text) {
            namesPattern := Some(text);
          } else {
            patternType := Anywhere;
            return CompileError(text);
          }
        }
      }
      r := Compiled(namesPattern);
    }

    /** Whether a build configuration is matched: always for ALL; otherwise the pattern type's
        own matcher decides from the (possibly cached) names list, `getMatched` standing for
        BuildConfigurationPatternType.getMatched. Only an empty match string means "not
        matched": a null match (`None`) counts as matched, since `"".equals(null)` is false. */
    method IsBuildConfigurationMatched(
      buildConfiguration: string, getMatched: (PatternType, string, Option<seq<string>>) -> Option<string>)
      returns (matched: bool)
      modifies this`namesList
      ensures patternType == All ==> matched && namesList == old(namesList)
      ensures patternType != All ==>
        && namesList == (if old(namesList).Some? then old(namesList)
                         else NamesListOf(buildConfigurationNames, patternType))
        && matched == (getMatched(patternType, buildConfiguration, namesList) != Some(""))
    {
      if patternType == All {
        matched := true;
      } else {
        var list := GetBuildConfigurationNamesList();
        matched := getMatched(patternType, buildConfiguration, list) != Some("");
      }
    }
  }

  // ----- Client scenarios -----

  /** No setter clears the names-list cache: once a fresh object has cached its default names,
      setting other names and another type changes nothing that the getter returns. */
  method NamesListNotInvalidated(names: string, patternType: PatternType)
    returns (before: Option<seq<string>>, after: Option<seq<string>>)
    ensures before == Some([DEFAULTS.buildConfigurationNames])
    ensures after == before
  {
    var settings := new ArduinoProjectSettings(true);
    before := settings.GetBuildConfigurationNamesList();
    settings.SetBuildConfigurationNames(names);
    settings.SetBuildConfigurationPatternType(patternType);
    after := settings.GetBuildConfigurationNamesList();
  }

  /** A fresh object has a sample text, yet its sample-list getter returns null: it returns the
      names-list cache, which nothing has filled yet. */
  method RegexSampleListOfFreshSettings() returns (samples: Option<seq<string>>)
    ensures samples == None
  {
    var settings := new ArduinoProjectSettings(true);
    samples := settings.GetRegexSampleList();
  }

  /** A group holding a nested group publishes one event, after the outer group, and the
      changes made inside both are kept. */
  method NestedGroupsPublishOnce(port: string, baudRate: int32)
    returns (events: nat, newPort: string, newBaudRate: int32)
    ensures events == 1 && newPort == port && newBaudRate == baudRate
  {
    var settings := new ArduinoProjectSettings(true);
    var inner: seq<Step> := [Call(SetPort(port))];
    var script := [Nested(inner), Call(SetBaudRate(baudRate))];
    ghost var v := settings.Current();
    assert inner[1..] == [] && script[1..] == [Call(SetBaudRate(baudRate))] && script[1..][1..] == [];
    assert Run(v, inner) == RunResult(v.(port := port), false);
    assert Run(v.(port := port), script[1..]) == RunResult(v.(port := port).(baudRate := baudRate), false);
    assert Run(v, script) == RunResult(v.(port := port).(baudRate := baudRate), false);
    var threw := settings.GroupChanges(script);
    events, newPort, newBaudRate := settings.published, settings.port, settings.baudRate;
  }

  /** A throw inside a group ends it early: the event still goes out and the setters before
      the throw keep their effect, those after it never run. */
  method ThrowingGroupStillPublishes(port: string, baudRate: int32)
    returns (threw: bool, events: nat, newPort: string, newBaudRate: int32)
    requires baudRate != 9600
    ensures threw && events == 1 && newPort == port && newBaudRate == 9600
  {
    var settings := new ArduinoProjectSettings(true);
    threw := settings.GroupChanges([Call(SetPort(port)), Throw, Call(SetBaudRate(baudRate))]);
    events, newPort, newBaudRate := settings.published, settings.port, settings.baudRate;
  }
}
