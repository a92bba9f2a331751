# CLion Arduino plugin: project settings and builder-test option tables

This project models two parts of the CLion Arduino plugin in Dafny and proves properties about them.

**Project settings (`ArduinoProjectSettings`).** This is the persisted per-project settings object. It holds:
- fifteen plain options: serial port, baud rate, build reconnection flags, build-configuration matching, and serial monitor flags;
- three lazily filled caches;
- a nesting counter that decides when a settings-changed event goes out.

The model keeps the class and its fields. It proves:
- the constructor's defaults;
- that each setter changes its own field only;
- the cache behaviour, including that no setter clears a cache and that the sample-list getter returns the names cache;
- the exact text of the build-configuration pattern (anchors, quoting, skipped empty entries);
- the reset to ANYWHERE when compilation fails;
- the group counter's behaviour, including under a throw and with nesting.

**Name splitting.** The `|`-separated names are split the way Java's `String.split("\\s*\\|\\s*")` splits them:
- only whitespace next to a `|` goes;
- trailing empty pieces are dropped;
- a leading empty piece stays.

The round trip is proved in both directions. Entries written out with bars and any whitespace around each bar split back into the entries. The pieces of any text, with the consumed separators put back, give the text again.

**The CMake builder spec test's option tables.** The model covers:
- `valueSet`: argument pairs to a map, walking from the last pair, so the earliest pair of a key wins;
- `suppressSet`: the arguments to a set, never reaching index 0;
- the named option sets its static initializer registers;
- the lookups over them.

**Modules.**
- `wrappers.dfy`, module `Wrappers`: `Option`, which stands for a nullable reference.
- `java_text.dfy`, module `JavaText`: Java whitespace, the split and `Join`.
- `project_settings.dfy`, module `ProjectSettings`: the settings class and the pattern-text specification.
- `builder_spec_test.dfy`, module `BuilderSpecTest`: `valueSet`, `suppressSet` and the option table.

## Model

| member | source | states |
|---|---|---|
| JavaText.StripLeft | src/com/vladsch/clionarduinoplugin/settings/ArduinoProjectSettings.java:20 | the leading `\s*` of the split regex: the result is no longer than the input and does not start with Java whitespace |
| JavaText.StripRight | src/com/vladsch/clionarduinoplugin/settings/ArduinoProjectSettings.java:20 | the `\s*` before the delimiter: the result does not end with Java whitespace |
| JavaText.IndexOfDelimiter | src/com/vladsch/clionarduinoplugin/settings/ArduinoProjectSettings.java:19 | the index of the first bar, or -1 when there is none; no bar comes before it |
| JavaText.StripLeftCutsWhitespace | src/com/vladsch/clionarduinoplugin/settings/ArduinoProjectSettings.java:20 | the `\s*` behind a delimiter takes only whitespace: the stripped text is a suffix of the input and what was cut off is all whitespace |
| JavaText.StripRightCutsWhitespace | src/com/vladsch/clionarduinoplugin/settings/ArduinoProjectSettings.java:20 | the `\s*` in front of a delimiter takes only whitespace: the stripped text is a prefix of the input and what was cut off is all whitespace |
| JavaText.Pieces | src/com/vladsch/clionarduinoplugin/settings/ArduinoProjectSettings.java:220 | the pieces between successive delimiter matches; there is always at least one |
| JavaText.PiecesHaveNoDelimiter | src/com/vladsch/clionarduinoplugin/settings/ArduinoProjectSettings.java:19-20 | no piece contains a bar, for every input string |
| JavaText.PiecesRejoin | src/com/vladsch/clionarduinoplugin/settings/ArduinoProjectSettings.java:19-20 | for every input string, the pieces put back together with the whitespace-bar-whitespace text each match consumed give the string again: the split loses only the bars and the whitespace touching them |
| JavaText.DropTrailingEmpty | src/com/vladsch/clionarduinoplugin/settings/ArduinoProjectSettings.java:220 | `split` with limit 0 drops trailing empty pieces: the result is a prefix of the pieces, every piece dropped is empty, and the result is empty or ends with a non-empty piece |
| JavaText.Split | src/com/vladsch/clionarduinoplugin/settings/ArduinoProjectSettings.java:220 | the split of the names text: no entry contains a bar; without a bar the text comes back whole; with one, the result is the pieces less trailing empty ones, so it never ends with an empty entry |
| JavaText.JoinAppend | src/com/vladsch/clionarduinoplugin/settings/ArduinoProjectSettings.java:261 | joining with one more entry adds the separator and that entry at the end |
| JavaText.SplitJoinRoundTrip | src/com/vladsch/clionarduinoplugin/settings/ArduinoProjectSettings.java:19-20 | entries without a bar, written out with a bar between each two and whitespace of its own around each bar, split back into exactly those entries, provided no entry has whitespace on a side a bar touches and the last one is non-empty (or is the only one); the first entry keeps its leading and the last its trailing whitespace, and a leading empty entry is kept |
| JavaText.PiecesOfLeadingWhitespace | src/com/vladsch/clionarduinoplugin/settings/ArduinoProjectSettings.java:220 | whitespace in front of a leading delimiter is matched with it: the pieces are those of the text without it, starting with the kept empty piece |
| JavaText.SplitOfOnlyDelimiters | src/com/vladsch/clionarduinoplugin/settings/ArduinoProjectSettings.java:220 | a lone bar with whitespace around it splits into no entries at all |
| ProjectSettings.RunConcat | src/com/vladsch/clionarduinoplugin/settings/ArduinoProjectSettings.java:185 | a grouped action run as two parts is the first part, then the second from where the first left off, unless the first threw |
| ProjectSettings.NamesListOfJoinedEntries | src/com/vladsch/clionarduinoplugin/settings/ArduinoProjectSettings.java:216-226 | for a type other than REGEX, names written as entries separated by bars, with any whitespace of their own around each bar, fill the names cache with exactly those entries |
| ProjectSettings.QuoteAll | src/com/vladsch/clionarduinoplugin/settings/ArduinoProjectSettings.java:254-265 | each entry becomes `\Q`entry`\E`, one for one |
| ProjectSettings.NonEmptyEntries | src/com/vladsch/clionarduinoplugin/settings/ArduinoProjectSettings.java:259 | the entries that the builder appends: none of them is empty |
| ProjectSettings.QuotedJoin | src/com/vladsch/clionarduinoplugin/settings/ArduinoProjectSettings.java:254-265 | entries separated by `\E`, a bar and `\Q` inside one outer `\Q`…`\E` equal the entries quoted one by one and separated by a bar |
| ProjectSettings.AlternationAsBuilt | src/com/vladsch/clionarduinoplugin/settings/ArduinoProjectSettings.java:254-265 | `(?:\Q` + entries joined by `\E`, a bar and `\Q` + `\E)` is the non-capturing group of the quoted entries, or of the empty literal when there are none |
| ProjectSettings.BuildPatternText | src/com/vladsch/clionarduinoplugin/settings/ArduinoProjectSettings.java:248-269 | the StringBuilder loop, with its `sep` variable, produces exactly the pattern text: the optional anchors around the alternation of the non-empty entries |
| ProjectSettings.PatternTextAnchors | src/com/vladsch/clionarduinoplugin/settings/ArduinoProjectSettings.java:250-269 | the text starts with `^` exactly when the type is PREFIX and ends with `$` exactly when it is SUFFIX |
| ProjectSettings.EmptyEntriesIgnored | src/com/vladsch/clionarduinoplugin/settings/ArduinoProjectSettings.java:258-264 | empty entries contribute nothing, not even a separator: the text is that of the non-empty entries alone |
| ProjectSettings.JoinContainsEntry | src/com/vladsch/clionarduinoplugin/settings/ArduinoProjectSettings.java:258-264 | every entry occurs in the joined text at the position returned |
| ProjectSettings.NonEmptyEntriesContains | src/com/vladsch/clionarduinoplugin/settings/ArduinoProjectSettings.java:259 | every non-empty entry is among the entries used, at the index returned |
| ProjectSettings.PatternTextQuotesEveryEntry | src/com/vladsch/clionarduinoplugin/settings/ArduinoProjectSettings.java:258-264 | every non-empty entry appears in the pattern text as a `\Q`…`\E` literal |
| ProjectSettings.ArduinoProjectSettings.constructor | src/com/vladsch/clionarduinoplugin/settings/ArduinoProjectSettings.java:22-44 | a new object has the field defaults (port "", 9600 baud, the three build flags set, type REGEX, the default names and sample text, the monitor flags set, LF line ending), empty caches, counter 0 and no event published |
| ProjectSettings.ArduinoProjectSettings.SetSerialEndOfLine | src/com/vladsch/clionarduinoplugin/settings/ArduinoProjectSettings.java:58-60 | only the line-ending field changes; no other field or cache |
| ProjectSettings.ArduinoProjectSettings.SetLogSentText | src/com/vladsch/clionarduinoplugin/settings/ArduinoProjectSettings.java:66-68 | only its own field changes |
| ProjectSettings.ArduinoProjectSettings.SetImmediateSend | src/com/vladsch/clionarduinoplugin/settings/ArduinoProjectSettings.java:74-76 | only its own field changes |
| ProjectSettings.ArduinoProjectSettings.SetLogExceptions | src/com/vladsch/clionarduinoplugin/settings/ArduinoProjectSettings.java:82-84 | only its own field changes |
| ProjectSettings.ArduinoProjectSettings.SetShowSendOptions | src/com/vladsch/clionarduinoplugin/settings/ArduinoProjectSettings.java:90-92 | only its own field changes |
| ProjectSettings.ArduinoProjectSettings.SetPort | src/com/vladsch/clionarduinoplugin/settings/ArduinoProjectSettings.java:98-100 | only the port changes |
| ProjectSettings.ArduinoProjectSettings.SetBaudRate | src/com/vladsch/clionarduinoplugin/settings/ArduinoProjectSettings.java:106-108 | only the baud rate changes |
| ProjectSettings.ArduinoProjectSettings.SetDisconnectOnBuild | src/com/vladsch/clionarduinoplugin/settings/ArduinoProjectSettings.java:114-116 | only its own field changes |
| ProjectSettings.ArduinoProjectSettings.SetReconnectAfterBuild | src/com/vladsch/clionarduinoplugin/settings/ArduinoProjectSettings.java:122-124 | only its own field changes |
| ProjectSettings.ArduinoProjectSettings.SetBuildConfigurationPatternType | src/com/vladsch/clionarduinoplugin/settings/ArduinoProjectSettings.java:130-132 | only the type changes; the cached names list and pattern are left as they are |
| ProjectSettings.ArduinoProjectSettings.SetRegexSampleText | src/com/vladsch/clionarduinoplugin/settings/ArduinoProjectSettings.java:138-140 | only the sample text changes; the cached sample list is left as it is |
| ProjectSettings.ArduinoProjectSettings.SetBuildConfigurationNames | src/com/vladsch/clionarduinoplugin/settings/ArduinoProjectSettings.java:146-148 | only the names change; the cached names list and pattern are left as they are |
| ProjectSettings.ArduinoProjectSettings.SetAfterSuccessfulBuild | src/com/vladsch/clionarduinoplugin/settings/ArduinoProjectSettings.java:154-156 | only its own field changes |
| ProjectSettings.ArduinoProjectSettings.SetActivateOnConnect | src/com/vladsch/clionarduinoplugin/settings/ArduinoProjectSettings.java:162-164 | only its own field changes |
| ProjectSettings.ArduinoProjectSettings.SetLogConnectDisconnect | src/com/vladsch/clionarduinoplugin/settings/ArduinoProjectSettings.java:170-172 | only its own field changes |
| ProjectSettings.ArduinoProjectSettings.Perform | src/com/vladsch/clionarduinoplugin/settings/ArduinoProjectSettings.java:94-172 | a setter call changes the fields as `Apply` says, and leaves the caches, the counter and the events alone |
| ProjectSettings.ArduinoProjectSettings.GroupChanges | src/com/vladsch/clionarduinoplugin/settings/ArduinoProjectSettings.java:182-192 | the counter is back to its old value whether or not the action threw; one event goes out exactly when the counter was 0 before and a project is present; the fields are those the action leaves (`Run`); caches untouched |
| ProjectSettings.ArduinoProjectSettings.FireSettingsChanged | src/com/vladsch/clionarduinoplugin/settings/ArduinoProjectSettings.java:194-198 | one event goes out exactly when the counter is 0 and a project is present |
| ProjectSettings.ArduinoProjectSettings.RunGrouped | src/com/vladsch/clionarduinoplugin/settings/ArduinoProjectSettings.java:185 | running the action inside an open group publishes nothing, keeps the counter and reaches the state `Run` describes, stopping at a throw |
| ProjectSettings.ArduinoProjectSettings.GetBuildConfigurationNamesList | src/com/vladsch/clionarduinoplugin/settings/ArduinoProjectSettings.java:216-226 | a filled cache is returned unchanged; an empty one is filled with nothing for empty names, `[names]` for REGEX, and the split names otherwise |
| ProjectSettings.ArduinoProjectSettings.GetRegexSampleList | src/com/vladsch/clionarduinoplugin/settings/ArduinoProjectSettings.java:228-234 | fills the sample cache with the split sample text when it is empty and the text is not, but returns the names-list cache |
| ProjectSettings.ArduinoProjectSettings.GetBuildConfigurationNamesPattern | src/com/vladsch/clionarduinoplugin/settings/ArduinoProjectSettings.java:236-280 | a cached pattern, or empty names, is returned as is with nothing changed; otherwise the text (the names for REGEX, else the pattern text of the possibly cached names list) is cached when it compiles, and when it does not the type becomes ANYWHERE, nothing is cached and the error is raised |
| ProjectSettings.ArduinoProjectSettings.IsBuildConfigurationMatched | src/com/vladsch/clionarduinoplugin/settings/ArduinoProjectSettings.java:282-290 | true for ALL whatever the configuration, with the caches untouched; otherwise the names list is filled if it was empty, and the result is false exactly when the type's matcher returns the empty string, so a null match counts as matched |
| ProjectSettings.NamesListNotInvalidated | src/com/vladsch/clionarduinoplugin/settings/ArduinoProjectSettings.java:216-226 | after a fresh object caches its default names, new names and a new type do not change what the getter returns |
| ProjectSettings.RegexSampleListOfFreshSettings | src/com/vladsch/clionarduinoplugin/settings/ArduinoProjectSettings.java:228-234 | a fresh object's sample-list getter returns null although the sample text is not empty |
| ProjectSettings.NestedGroupsPublishOnce | src/com/vladsch/clionarduinoplugin/settings/ArduinoProjectSettings.java:182-198 | a group with a nested group publishes exactly one event and keeps the changes made in both |
| ProjectSettings.ThrowingGroupStillPublishes | src/com/vladsch/clionarduinoplugin/settings/ArduinoProjectSettings.java:182-192 | a throw inside a group is passed on, the event still goes out, and the setters after the throw do not run |
| BuilderSpecTest.PairsMapKeys | test/com/vladsch/clionarduinoplugin/generators/cmake/CMakeBuilderSpecTest.java:36-44 | the keys of `valueSet`'s map are exactly the strings at even indices |
| BuilderSpecTest.EarliestPairWins | test/com/vladsch/clionarduinoplugin/generators/cmake/CMakeBuilderSpecTest.java:39-43 | a key maps to the value of its earliest pair |
| BuilderSpecTest.PairsMapValues | test/com/vladsch/clionarduinoplugin/generators/cmake/CMakeBuilderSpecTest.java:39-43 | every key maps to the string right after one of its occurrences at an even index |
| BuilderSpecTest.PairsMapSize | test/com/vladsch/clionarduinoplugin/generators/cmake/CMakeBuilderSpecTest.java:36-44 | the map has at most half as many entries as there are arguments |
| BuilderSpecTest.ValueSet | test/com/vladsch/clionarduinoplugin/generators/cmake/CMakeBuilderSpecTest.java:34-45 | for an even number of arguments, the loop from the end builds exactly the pairs map |
| BuilderSpecTest.FirstArgumentSkipped | test/com/vladsch/clionarduinoplugin/generators/cmake/CMakeBuilderSpecTest.java:51-54 | the first argument is in the set exactly when it appears again later |
| BuilderSpecTest.AfterFirstMembers | test/com/vladsch/clionarduinoplugin/generators/cmake/CMakeBuilderSpecTest.java:47-56 | a string is in the set exactly when it is among the arguments after the first |
| BuilderSpecTest.SuppressSet | test/com/vladsch/clionarduinoplugin/generators/cmake/CMakeBuilderSpecTest.java:47-56 | the loop collects the arguments at indices 1 to n-1, and nothing for zero or one argument |
| BuilderSpecTest.CallValueSet | test/com/vladsch/clionarduinoplugin/generators/cmake/CMakeBuilderSpecTest.java:59-88 | a varargs call of `valueSet` with the arguments of one option set yields their pairs map |
| BuilderSpecTest.CallSuppressSet | test/com/vladsch/clionarduinoplugin/generators/cmake/CMakeBuilderSpecTest.java:90-94 | a varargs call of `suppressSet` yields the arguments after the first |
| BuilderSpecTest.RegisteredNames | test/com/vladsch/clionarduinoplugin/generators/cmake/CMakeBuilderSpecTest.java:58-104 | the table holds exactly the eleven option-set names |
| BuilderSpecTest.NoCommentUnusedSuppresses | test/com/vladsch/clionarduinoplugin/generators/cmake/CMakeBuilderSpecTest.java:89-96 | the "no-comment-unused" suppress set is {SET_PORT, ""}: its first argument, SET_PROJECT_NAME, is not in it |
| BuilderSpecTest.BoardProValues | test/com/vladsch/clionarduinoplugin/generators/cmake/CMakeBuilderSpecTest.java:59 | the "board-pro" value map holds its three pairs |
| BuilderSpecTest.CMakeBuilderSpecTest.constructor | test/com/vladsch/clionarduinoplugin/generators/cmake/CMakeBuilderSpecTest.java:58-104 | the static initializer fills the option table with exactly the registered sets |
| BuilderSpecTest.CMakeBuilderSpecTest.OptionsSet | test/com/vladsch/clionarduinoplugin/generators/cmake/CMakeBuilderSpecTest.java:110-112 | the set registered under the name, or null for a name not in the table |
| BuilderSpecTest.CMakeBuilderSpecTest.Options | test/com/vladsch/clionarduinoplugin/generators/cmake/CMakeBuilderSpecTest.java:123-126 | over the initialised table, a set comes back exactly for the eleven registered names, and it is the registered one |

## Left out

- Pattern types are the five named constants. Their int codes, and `BuildConfigurationPatternType.ADAPTER.get` of a code that is not one of them, are not modelled. The type field holds a constant, not an int.
- The serial line ending is the code of LF or some other code. `getSerialEndOfLineType` and the `SerialEndOfLineTypes` adapter are not part of this model.
- Getters are not separate members: a getter returns its field, which the setters' contracts state directly.
- `getProject`, `getInstance` (ServiceManager), `getState` and `loadState` (XmlSerializerUtil.copyBean) are left out: they are platform plumbing.
- Regular-expression semantics: a compiled pattern is represented by its source text, and whether `Pattern.compile` accepts a text is the parameter `compiles`.
- ProjectSettings.ArduinoProjectSettings.IsBuildConfigurationMatched: for types other than ALL the matcher `BuildConfigurationPatternType.getMatched` is not part of this model. It is the parameter `getMatched`, so the result is stated only relative to it.
- The message bus: publishing a settings-changed event is a counter of events. Listeners are not modelled.
- The group counter is an unbounded natural number, so Java `int` overflow after 2^31 nested groups is not modelled.
- The grouped `Runnable` is a script of setter calls, nested groups and throws. Other code it could run (reads, cache fills) is not modelled. Exceptions are a single kind: any escaping throw.
- Java `null` is `None` and a `String[]` is a sequence; array identity, which the caches share with callers, is not modelled.
- `String.split` is modelled for the one regex the class uses, not in general.
- BuilderSpecTest.ValueSet: requires an even number of arguments, as the Java `assert` does; with assertions disabled an odd count would leave the first argument unpaired, and that is not modelled.
- The test class's static `optionsMap` is a field of one fixture object, and a `MutableDataSet` is a map from data key to value. Only the keys the option sets use are named.
- The "change-all" set is covered only by the general `valueSet` lemmas (two identical SET_UPLOAD_SPEED pairs, and the "" key), not by a lemma of its own.
- The test's `OPTIONS` data set, parser, renderer, spec resource, `data()` and constructor are left out, as are the CMake parse/patch/render engine, which is not part of this model, and the `LineEnding` AST node.
- NewProjectSettingsForm.java and ProjectBuildSettingsDialog.java (Swing forms, dialogs, debounce timers, file and document I/O) are left out: user interface.
