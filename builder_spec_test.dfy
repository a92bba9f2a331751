/** The option tables of the CMake builder spec test: `valueSet` and `suppressSet`, which turn an
    argument array into a map or a set, and the table of named option sets they fill. */
module BuilderSpecTest {
  import opened Wrappers

  // ----- valueSet -----

  /** The map that `valueSet` builds from the pairs (s[0], s[1]), (s[2], s[3]), ...: the pairs
      are put from the last to the first, so the earliest pair of a key is the one that stays. */
  function PairsMap(s: seq<string>): (r: map<string, string>)
    requires |s| % 2 == 0
  {
    if s == [] then map[] else PairsMap(s[2..])[s[0] := s[1]]
  }

  /** The strings at the even positions, the keys of the pairs. */
  function KeysAt(s: seq<string>): (r: set<string>)
  {
    set k | 0 <= k < |s| && k % 2 == 0 :: s[k]
  }

  lemma KeysAtStep(s: seq<string>)
    requires |s| >= 2
    ensures KeysAt(s) == {s[0]} + KeysAt(s[2..])
  {
    var t := s[2..];
    forall x | x in KeysAt(s)
      ensures x in {s[0]} + KeysAt(t)
    {
      var k :| 0 <= k < |s| && k % 2 == 0 && s[k] == x;
      if k > 0 {
        assert t[k - 2] == x;
      }
    }
    forall x | x in KeysAt(t)
      ensures x in KeysAt(s)
    {
      var k :| 0 <= k < |t| && k % 2 == 0 && t[k] == x;
      assert s[k + 2] == x;
    }
  }

  /** The keys of the map are exactly the strings at even positions. */
  lemma {:induction false} PairsMapKeys(s: seq<string>)
    requires |s| % 2 == 0
    ensures PairsMap(s).Keys == KeysAt(s)
    decreases |s|
  {
    if s != [] {
      PairsMapKeys(s[2..]);
      KeysAtStep(s);
    }
  }

  /** The key at an even position `k` that no earlier even position holds maps to the string
      right after it: the earliest pair of each key wins. */
  lemma {:induction false} EarliestPairWins(s: seq<string>, k: nat)
    requires |s| % 2 == 0 && k < |s| && k % 2 == 0
    requires forall j :: 0 <= j < k && j % 2 == 0 ==> s[j] != s[k]
    ensures s[k] in PairsMap(s) && PairsMap(s)[s[k]] == s[k + 1]
    decreases k
  {
    if k > 0 {
      var t := s[2..];
      forall j | 0 <= j < k - 2 && j % 2 == 0
        ensures t[j] != t[k - 2]
      {
        assert s[j + 2] != s[k];
      }
      EarliestPairWins(t, k - 2);
      assert s[0] != s[k];
    }
  }

  /** Every value in the map is the string right after some occurrence of its key. */
  lemma {:induction false} PairsMapValues(s: seq<string>, key: string) returns (k: nat)
    requires |s| % 2 == 0 && key in PairsMap(s)
    ensures k < |s| && k % 2 == 0 && s[k] == key && PairsMap(s)[key] == s[k + 1]
    decreases |s|
  {
    if s[0] == key {
      k := 0;
    } else {
      var j := PairsMapValues(s[2..], key);
      k := j + 2;
    }
  }

  /** At most one entry per pair. */
  lemma {:induction false} PairsMapSize(s: seq<string>)
    requires |s| % 2 == 0
    ensures |PairsMap(s)| <= |s| / 2
    decreases |s|
  {
    if s != [] {
      var rest := PairsMap(s[2..]);
      PairsMapSize(s[2..]);
      if s[0] in rest {
        assert rest[s[0] := s[1]].Keys == rest.Keys;
      } else {
        assert rest[s[0] := s[1]].Keys == rest.Keys + {s[0]};
      }
    }
  }

  /** `valueSet`: walks the array two places at a time from the end, putting each key with the
      value after it. The Java assertion on the length is the precondition. */
  method ValueSet(values: array<string>) returns (valueSet: map<string, string>)
    requires values.Length % 2 == 0
    ensures valueSet == PairsMap(values[..])
  {
    var i := values.Length;
    valueSet := map[];
    while i > 1
      invariant 0 <= i <= values.Length && i % 2 == 0
      invariant valueSet == PairsMap(values[i..])
    {
      i := i - 1;
      var value := values[i];
      i := i - 1;
      var key := values[i];
      assert values[i..][2..] == values[i + 2..];
      valueSet := valueSet[key := value];
    }
    assert values[..] == values[i..];
  }

  // ----- suppressSet -----

  /** What `suppressSet` collects: every argument but the first. */
  function AfterFirst(s: seq<string>): (r: set<string>)
  {
    set j | 1 <= j < |s| :: s[j]
  }

  /** The first argument is in the set only when it appears again later. */
  lemma FirstArgumentSkipped(s: seq<string>)
    requires |s| >= 1
    ensures s[0] in AfterFirst(s) <==> s[0] in s[1..]
  {
    if s[0] in s[1..] {
      var j :| 0 <= j < |s| - 1 && s[1..][j] == s[0];
      assert s[j + 1] == s[0];
    }
  }

  /** The set holds exactly the arguments after the first. */
  lemma AfterFirstMembers(s: seq<string>, x: string)
    requires |s| >= 1
    ensures x in AfterFirst(s) <==> x in s[1..]
  {
    if x in s[1..] {
      var j :| 0 <= j < |s| - 1 && s[1..][j] == x;
      assert s[j + 1] == x;
    }
  }

  /** `suppressSet`: walks the array from the end and stops once the index reaches 1, so the
      argument at index 0 is never added. */
  method SuppressSet(values: array<string>) returns (valueSet: set<string>)
    ensures valueSet == AfterFirst(values[..])
    ensures values.Length <= 1 ==> valueSet == {}
  {
    var i := values.Length;
    valueSet := {};
    while i > 1
      invariant (values.Length == 0 && i == 0) || 1 <= i <= values.Length
      invariant valueSet == set j | i <= j < values.Length :: values[j]
    {
      i := i - 1;
      var value := values[i];
      valueSet := valueSet + {value};
    }
  }

  /** A varargs call of `valueSet`: the arguments are passed in a new array. */
  method CallValueSet(args: seq<string>) returns (valueSet: map<string, string>)
    requires |args| % 2 == 0
    ensures valueSet == PairsMap(args)
  {
    var values := new string[|args|](i requires 0 <= i < |args| => args[i]);
    assert values[..] == args;
    valueSet := ValueSet(values);
  }

  /** A varargs call of `suppressSet`. */
  method CallSuppressSet(args: seq<string>) returns (valueSet: set<string>)
    ensures valueSet == AfterFirst(args)
  {
    var values := new string[|args|](i requires 0 <= i < |args| => args[i]);
    assert values[..] == args;
    valueSet := SuppressSet(values);
  }

  // ----- The option sets -----

  /** The data keys that the option sets use. */
  datatype OptionKey =
    | ValueMap
    | SuppressCommentedSet
    | SuppressCommented
    | DumpOptions
    | DumpElementsAfter
    | DumpElementsBefore
    | SetOrAdd
    | UseUnmodifiedOriginal
    | DumpVariableMap
    | ResetProjectToDefaults

  datatype OptionValue = ValueMapOf(values: map<string, string>) | SetOf(names: set<string>) | Flag(on: bool)

  /** A MutableDataSet: the values set under each key. */
  type DataSet = map<OptionKey, OptionValue>

  const BOARD_PRO: seq<string> := ["SET_BOARD", "pro", "SET_CPU", "8MHzatmega328", "PROJECT", "${MAKE_PROJECT_NAME}"]

  const CHANGE_ALL: seq<string> := [
    "CMAKE_MINIMUM_REQUIRED_VERSION", "Maj.Min.Rev.Twk",
    "SET_CMAKE_TOOLCHAIN_FILE", "setCmakeToolchainFile",
    "SET_CMAKE_CXX_STANDARD", "setCmakeCxxStandard",
    "SET_PROJECT_NAME", "setProjectName",
    "PROJECT", "${MAKE_PROJECT_NAME}",
    "SET_BOARD", "setBoard",
    "SET_CPU", "setCpu",
    "SET_SKETCH", "setSketch",
    "SET_PROGRAMMER", "setProgrammer",
    "SET_PORT", "setPort",
    "SET_AFLAGS", "setAflags",
    "SET_HDRS", "setHdrs",
    "SET_SRCS", "setSrcs",
    "SET_UPLOAD_SPEED", "setUploadSpeed",
    "SET_LIB_NAME_RECURSE", "setLibNameRecurse",
    "LIB_NAME", "libName",
    "SET_UPLOAD_SPEED", "setUploadSpeed",
    "LINK_DIRECTORIES", "linkDirectories",
    "ADD_SUBDIRECTORY", "addSubdirectory",
    "GENERATE_ARDUINO_LIBRARY", "${CMAKE_PROJECT_NAME}",
    "GENERATE_ARDUINO_FIRMWARE", "${CMAKE_PROJECT_NAME}",
    "", ""]

  const ADD_PROJECT: seq<string> := ["PROJECT", "${A_PROJECT_NAME}", "SET_PROGRAMMER", "setProgrammer", "", ""]

  const NO_COMMENT_UNUSED: seq<string> := ["SET_PROJECT_NAME", "SET_PORT", ""]

  /** The table that the static initializer fills, by name of option set. */
  function RegisteredOptions(): map<string, DataSet>
  {
    map[]
      ["board-pro" := map[ValueMap := ValueMapOf(PairsMap(BOARD_PRO))]]
      ["change-all" := map[ValueMap := ValueMapOf(PairsMap(CHANGE_ALL))]]
      ["add-project" := map[ValueMap := ValueMapOf(PairsMap(ADD_PROJECT))]]
      ["no-comment-unused" := map[
        SuppressCommentedSet := SetOf(AfterFirst(NO_COMMENT_UNUSED)), SuppressCommented := Flag(true)]]
      ["dump-options" := map[DumpOptions := Flag(true)]]
      ["dump-after" := map[DumpElementsAfter := Flag(true)]]
      ["dump-before" := map[DumpElementsBefore := Flag(true)]]
      ["set-or-add" := map[SetOrAdd := Flag(true)]]
      ["unmodified-original" := map[UseUnmodifiedOriginal := Flag(true)]]
      ["dump-variables" := map[DumpVariableMap := Flag(true)]]
      ["reset-project" := map[ResetProjectToDefaults := Flag(true)]]
  }

  /** The eleven registered names. */
  lemma RegisteredNames()
    ensures RegisteredOptions().Keys == {
      "board-pro", "change-all", "add-project", "no-comment-unused", "dump-options", "dump-after",
      "dump-before", "set-or-add", "unmodified-original", "dump-variables", "reset-project"}
  {
  }

  /** The "no-comment-unused" set suppresses SET_PORT and the empty name, but not
      SET_PROJECT_NAME, which is its first argument. */
  lemma NoCommentUnusedSuppresses()
    ensures AfterFirst(NO_COMMENT_UNUSED) == {"SET_PORT", ""}
    ensures "SET_PROJECT_NAME" !in AfterFirst(NO_COMMENT_UNUSED)
  {
    var s := NO_COMMENT_UNUSED;
    assert s[1] == "SET_PORT" && s[2] == "";
  }

  /** The "board-pro" map holds its three pairs. */
  lemma BoardProValues()
    ensures PairsMap(BOARD_PRO)
         == map["SET_BOARD" := "pro", "SET_CPU" := "8MHzatmega328", "PROJECT" := "${MAKE_PROJECT_NAME}"]
  {
    var s := BOARD_PRO;
    assert s[2..][2..][2..] == [];
    assert s[2..][2..] == ["PROJECT", "${MAKE_PROJECT_NAME}"];
    assert s[2..] == ["SET_CPU", "8MHzatmega328", "PROJECT", "${MAKE_PROJECT_NAME}"];
  }

  /** The fixture class: its static option table and the lookups over it. */
  class CMakeBuilderSpecTest {
    var optionsMap: map<string, DataSet>

    /** The static initializer: one option set per name, the value maps built by `valueSet` and
        the suppress set by `suppressSet`. */
    constructor ()
      ensures optionsMap == RegisteredOptions()
    {
      optionsMap := map[];
      new;
      var boardProValues := CallValueSet(BOARD_PRO);
      optionsMap := optionsMap["board-pro" := map[ValueMap := ValueMapOf(boardProValues)]];
      var changeAllValues := CallValueSet(CHANGE_ALL);
      optionsMap := optionsMap["change-all" := map[ValueMap := ValueMapOf(changeAllValues)]];
      var addProjectValues := CallValueSet(ADD_PROJECT);
      optionsMap := optionsMap["add-project" := map[ValueMap := ValueMapOf(addProjectValues)]];
      var suppressed := CallSuppressSet(NO_COMMENT_UNUSED);
      optionsMap := optionsMap["no-comment-unused" := map[
        SuppressCommentedSet := SetOf(suppressed), SuppressCommented := Flag(true)]];
      optionsMap := optionsMap["dump-options" := map[DumpOptions := Flag(true)]];
      optionsMap := optionsMap["dump-after" := map[DumpElementsAfter := Flag(true)]];
      optionsMap := optionsMap["dump-before" := map[DumpElementsBefore := Flag(true)]];
      optionsMap := optionsMap["set-or-add" := map[SetOrAdd := Flag(true)]];
      optionsMap := optionsMap["unmodified-original" := map[UseUnmodifiedOriginal := Flag(true)]];
      optionsMap := optionsMap["dump-variables" := map[DumpVariableMap := Flag(true)]];
      optionsMap := optionsMap["reset-project" := map[ResetProjectToDefaults := Flag(true)]];
    }

    /** `optionsSet`: the option set registered under the name, or null. */
    method OptionsSet(optionSet: string) returns (options: Option<DataSet>)
      ensures optionSet in optionsMap ==> options == Some(optionsMap[optionSet])
      ensures optionSet !in optionsMap ==> options == None
    {
      if optionSet in optionsMap {
        options := Some(optionsMap[optionSet]);
      } else {
        options := None;
      }
    }

    /** `options`: the test framework's lookup, answered from the same table. */
    method Options(optionSet: string) returns (options: Option<DataSet>)
      requires optionsMap == RegisteredOptions()
      ensures options.Some? <==> optionSet in RegisteredOptions()
      ensures options.Some? ==> options.value == RegisteredOptions()[optionSet]
    {
      options := OptionsSet(optionSet);
    }
  }
}
