# ModLauncher core in Dafny

ModLauncher is a Qt launcher for the Black Ops III mod tools. This project models the part of it
that runs things:

- **The build runner** (`mlBuildThread`) runs an ordered list of (program, arguments) commands. It
  prints each command's invocation line and then the child's output. It stops after an abnormal
  exit. It stops or carries on after a non-zero exit code, as the ignore-errors flag says.
- **The Export2Bin conversion runner** (`mlConvertThread`) pipes each dropped `.xanim_export` or
  `.xmodel_export` file through the converter. It writes the converter's output next to the other
  outputs, skips or fails files on its per-file checks, and keeps three counters.
- **Building the command lists in the main window**:
  - `OnEditBuild` turns the checked maps and mod zones of the file list into compile, light and link
    commands. It puts a single `gdtdb /update` in front and the game launch last.
  - `UpdateDB` and `OnRunMapOrMod`.
- **The window's handles of the two runners** (`mBuildThread`, `mConvertThread`), with their start
  and finished slots.
- **Smaller pieces**:
  - the dvar dialog (`OnEditDvars`, `Dvar::findDvar`, the three `setDvarSetting` overloads);
  - the name checks and the "template" renaming of `OnFileNew`;
  - the first-checked-item search of `OnEditPublish`;
  - the Workshop tag filter of `UpdateWorkshopItem`.

Child processes are oracles. For each command, a run is given how its child would end: a normal exit
with a code, or an abnormal one, together with the output chunks it would print. A cancel request is
the index of the command whose poll loop sees the cancel flag; that child is killed, so its exit is
abnormal.

Each runner's loop is a method proved equal to a left fold over its commands or files
(`BuildRunner.Replay`, `ConvertRunner.ConvertUpTo`). The properties are lemmas about those folds,
and several are checked against a second, loop-free description. The main window is a class whose
fields are the two handles, the button text, the output lines and `mRunDvars`. Its ghost fields
record the runners started and not yet finished, the build runners handed to `deleteLater`, and
whether `deleteLater` was called through a null `mBuildThread`. `Window.Valid` states the window's
intended invariant:
- at most one build runs, and `mBuildThread` is that build;
- the button offers "Cancel" exactly while it runs;
- no running build has been handed to `deleteLater`, and none was called through null.

Files:

| file | contents |
|---|---|
| `wrappers.dfy` | Option |
| `strings.dfy` | join, split, ASCII case mapping, replace, decimal text |
| `process.dfy` | commands, outcomes, output events |
| `paths.dfy` | QFileInfo's name parts, QDir::cleanPath |
| `build_runner.dfy` | `mlBuildThread` |
| `convert_runner.dfy` | `mlConvertThread` |
| `file_tree.dfy` | the file list and its searches |
| `build_commands.dfy` | the command lists |
| `dvars.dfy` | the dvar table and dialog |
| `new_map.dfy` | new map checks |
| `workshop.dfy` | the tag filter |
| `main_window.dfy` | the window's runner handles and slots |

## Model

| member | source | states |
|---|---|---|
| BuildRunner.BuildThread.constructor | mlMainWindow.cpp:60-63 | keeps the commands and the ignore flag; success and cancel start false |
| BuildRunner.BuildThread.Succeeded | mlMainWindow.h:30-33 | returns the success flag and reads nothing else |
| BuildRunner.BuildThread.Cancel | mlMainWindow.h:35-38 | sets the cancel flag and may write nothing else |
| BuildRunner.Step | mlMainWindow.cpp:69-103 | defines one pass of the command loop: the invocation line and the child's output are emitted; an abnormal exit returns; a non-zero code clears Success and returns unless errors are ignored |
| BuildRunner.Replay | mlMainWindow.cpp:67-103 | defines the loop's state after the first k commands, from Success true, as the fold of Step |
| Process.InvocationLine | mlMainWindow.cpp:76 | defines the line emitted before a command: program, a blank, the arguments joined by blanks, a newline |
| BuildRunner.BuildThread.Run | mlMainWindow.cpp:65-106 | the events emitted and the final success flag equal the fold of the command loop over the observed outcomes; success is left as it was when the loop returns early |
| BuildRunner.RunBuild | mlMainWindow.cpp:65-106 | a fresh runner, run to the end, reports Succeeded() exactly when every command exited normally with code 0; an empty list succeeds |
| BuildRunner.FirstHalt | mlMainWindow.cpp:94-103 | the index of the first outcome that ends the run, with no earlier one ending it |
| BuildRunner.ReplayBeforeHalt | mlMainWindow.cpp:67-105 | until a halting outcome, the loop is running, has printed the transcript so far, and its local Success is "every exit so far was clean" |
| BuildRunner.StoppedStays | mlMainWindow.cpp:94-103 | once the loop has returned, later commands change nothing |
| BuildRunner.ReplayMatchesReference | mlMainWindow.cpp:65-106 | the loop equals the loop-free description: it stops after the first halting command, having printed the commands up to it, or runs all of them |
| BuildRunner.BuildSucceedsIff | mlMainWindow.cpp:67-106 | starting from false, the success flag ends true exactly when every exit was normal with code 0 |
| BuildRunner.AbnormalExitEndsBuild | mlMainWindow.cpp:94-95 | an abnormal exit returns from the run right after that command's output |
| BuildRunner.NonZeroExitEndsBuild | mlMainWindow.cpp:97-102 | without ignore-errors, a non-zero exit code ends the run in the same way |
| BuildRunner.NonZeroExitIgnored | mlMainWindow.cpp:97-102 | with ignore-errors, a non-zero exit code does not stop the run, but the run cannot succeed |
| BuildRunner.CancelEndsBuild | mlMainWindow.cpp:86-95 | cancelling during command k kills it; no later command starts and the run does not succeed |
| BuildRunner.InvocationLinesInOrder | mlMainWindow.cpp:76 | the text lines of the first k commands are exactly their invocation lines, in list order |
| BuildRunner.OutputBetweenInvocations | mlMainWindow.cpp:76-84 | each command's output comes right after its own invocation line and before the next command's |
| Process.Observed | mlMainWindow.cpp:86-95 | the killed command ends abnormally with the output it printed; every other command ends as it would have |
| ConvertRunner.ObservedConversions | mlMainWindow.cpp:204-210 | the killed converter ends abnormally; every other one ends as it would have |
| ConvertRunner.TargetExtension | mlMainWindow.cpp:143-157 | defines the extension mapping of the upper-cased suffix: ".XANIM_BIN", ".XMODEL_BIN", or none |
| ConvertRunner.TargetPath | mlMainWindow.cpp:159 | defines the target: the cleaned output directory, a backslash, the base name, the extension |
| ConvertRunner.PlanFor | mlMainWindow.cpp:132-159 | defines what a file name alone decides: an invalid extension, or the base name and the target |
| ConvertRunner.Check | mlMainWindow.cpp:152-177 | defines which way the per-file checks send a file: bad extension, existing target (without overwrite, found under any case or separator variant), unreadable source, or a launch |
| ConvertRunner.ConvertStep | mlMainWindow.cpp:122-242 | defines one pass of the file loop: each check's message and counter, then the converter's outcome: crash breaks; a non-zero code emits both buffers (the error one empty) and fails; otherwise the output is written under the target's file key, or reported unwritable |
| ConvertRunner.Render | mlMainWindow.cpp:154-252 | defines the text of each OutputReady signal, with the runner's wording and the four-line summary; a file is quoted as given, which for a dropped file is its absolute path |
| ConvertRunner.TargetExtensionShape | mlMainWindow.cpp:143-157 | only the upper-cased suffixes XANIM_EXPORT and XMODEL_EXPORT map to an extension, which is "." followed by the suffix with EXPORT replaced by BIN |
| ConvertRunner.TargetExtensionIgnoresCase | mlMainWindow.cpp:143 | the case of the suffix does not matter |
| ConvertRunner.PlanOfAnimation | mlMainWindow.cpp:132-159 | dir/x.xanim_export targets the cleaned output directory, a backslash, then x.XANIM_BIN |
| ConvertRunner.PlanShape | mlMainWindow.cpp:132-159 | a convertible file has a dotless base name and a target in the cleaned output directory with one of the two extensions |
| ConvertRunner.BadExtensionSkipped | mlMainWindow.cpp:152-157 | an unknown suffix adds one to skipped, starts no converter and leaves the files alone |
| ConvertRunner.FileKey | mlMainWindow.cpp:164 | defines the name Windows finds a file under: ASCII lower case, with '\' read as '/'; the file map, `exists` and both opens go through it |
| ConvertRunner.CaseVariantsSameFile | mlMainWindow.cpp:164 | paths that differ only in letter case name the same file |
| ConvertRunner.SeparatorVariantsSameFile | mlMainWindow.cpp:164 | paths that differ only in '/' against '\' name the same file |
| ConvertRunner.WrittenFoundByCaseVariant | mlMainWindow.cpp:164-237 | after a target is written, a case variant of its path exists and holds the written contents |
| ConvertRunner.TwoAnimationPlans | mlMainWindow.cpp:132-159 | two dropped animations plan to their own base names and targets |
| ConvertRunner.CaseVariantsShareTarget | mlMainWindow.cpp:159-241 | two animations whose base names differ only in case (C:/a/Foo and C:/b/foo) share a target: with overwrite off the first is converted and the second is skipped as existing, giving one success and one skip |
| ConvertRunner.ExistingTargetSkipped | mlMainWindow.cpp:164-169 | without overwrite, an existing target adds one to skipped and starts no converter |
| ConvertRunner.UnreadableSourceFails | mlMainWindow.cpp:171-177 | an unreadable source adds one to failed and the loop goes on |
| ConvertRunner.CleanExitWritesTarget | mlMainWindow.cpp:230-241 | a clean exit writes the converter's merged output as the target's contents and adds one to succeeded; if the target cannot be opened, nothing is written and no counter moves |
| ConvertRunner.NonZeroExitFails | mlMainWindow.cpp:215-228 | a non-zero exit emits both buffers, the error buffer empty because the channels are merged, and adds one to failed; it breaks the loop only without ignore-errors |
| ConvertRunner.StepAccounting | mlMainWindow.cpp:122-242 | one file moves exactly one counter (or unsaved), except a crash, which moves none and breaks the loop |
| ConvertRunner.AbortedStays | mlMainWindow.cpp:208-226 | after the break, later files change nothing |
| ConvertRunner.LaunchedInOrder | mlMainWindow.cpp:181-186 | converters start in file order, at most once per file |
| ConvertRunner.LaunchedOutcomes | mlMainWindow.cpp:208-228 | every started converter but the last ended usably, and the loop broke exactly when the last one crashed or failed with errors not ignored |
| ConvertRunner.IgnoringErrorsOnlyCrashesAbort | mlMainWindow.cpp:208-228 | with ignore-errors, the run is not broken exactly when every started converter exited normally |
| ConvertRunner.TallyConservation | mlMainWindow.cpp:118-241 | each file taken up is counted once, except a crashed one; without a break every file is taken up |
| ConvertRunner.CountersCoverAllFiles | mlMainWindow.cpp:118-251 | with no break and every conversion saved, succeeded + skipped + failed is the number of files |
| ConvertRunner.AbortEndsOnError | mlMainWindow.cpp:208-226 | a broken run's last event is the abnormal-exit message or the converter's output |
| ConvertRunner.SummaryIffNotAborted | mlMainWindow.cpp:244-253 | the last event is the summary with the file count and the three counters exactly when the run was not broken |
| ConvertRunner.ConvertThread.constructor | mlMainWindow.cpp:108-112 | keeps the files, the output directory and both flags; success and cancel start false |
| ConvertRunner.ConvertThread.Succeeded | mlMainWindow.h:57-60 | returns the success flag and reads nothing else |
| ConvertRunner.ConvertThread.Cancel | mlMainWindow.h:62-65 | sets the cancel flag and may write nothing else |
| ConvertRunner.ConvertThread.ConvertFile | mlMainWindow.cpp:124-241 | one pass of the loop body equals one step of the fold: files, counters, events and the break |
| ConvertRunner.ConvertThread.ConvertFiles | mlMainWindow.cpp:122-242 | the file loop equals the fold over all files |
| ConvertRunner.ConvertThread.Run | mlMainWindow.cpp:114-254 | success is "not broken"; the files and events equal the fold's, with the summary appended exactly on success |
| ConvertRunner.RunConversion | mlMainWindow.cpp:554-560 | the window's runner (errors ignored) succeeds exactly when no started converter crashed or was killed, and then its last event is the summary |
| Paths.BaseName | mlMainWindow.cpp:132 | defines QFileInfo::baseName on Windows: the file name, after the last '/' or '\', up to its first dot |
| Paths.Suffix | mlMainWindow.cpp:143 | defines QFileInfo::suffix on Windows: the file name, after the last '/' or '\', after its last dot, empty without one |
| Paths.CleanPath | mlMainWindow.cpp:159 | defines QDir::cleanPath on Windows: backslashes become slashes, repeated slashes collapse except the two opening a UNC path, and a trailing slash goes except on "/" and a drive root |
| Paths.NamePartsShape | mlMainWindow.cpp:132-143 | the base name and suffix contain no dot and neither separator |
| Paths.NameParts | mlMainWindow.cpp:132-143 | for dir/base.ext or dir\base.ext with a plain base and extension, the base name is base and the suffix is ext |
| Paths.CleanPathShape | mlMainWindow.cpp:159 | a cleaned path has forward slashes only; a doubled slash only as the opening of a UNC path, which the input had; and a trailing slash only on "/" or a drive root such as "C:/" |
| Paths.DriveRootKept | mlMainWindow.cpp:159 | a drive root such as `C:\` or `C:/` cleans to `C:/`, keeping its slash |
| Paths.UncPrefixKept | mlMainWindow.cpp:159 | a UNC path keeps its two opening slashes |
| Paths.CleanPathIdempotent | mlMainWindow.cpp:159 | cleaning a cleaned path changes nothing |
| Strings.JoinSplit | mlMainWindow.cpp:976-980 | the extra options split at blanks join back to the option text |
| Strings.SplitJoin | mlMainWindow.cpp:976-980 | splitting the blank-join of parts without blanks gives the parts back |
| Strings.UpperIgnoresCase | mlMainWindow.cpp:143 | upper-casing ignores the case of its input |
| Strings.ReplaceLength | mlMainWindow.cpp:793 | each replaced "template" changes the length by the difference of the two names |
| Strings.ReplaceAbsent | mlMainWindow.cpp:793 | text without the pattern is left as it is |
| Strings.ReplaceAtFirst | mlMainWindow.cpp:793 | the text before the first occurrence is kept, that occurrence becomes the replacement, and the rest is rewritten in turn |
| Strings.IntToStringRoundTrip | dvar.cpp:63-69 | an integer's decimal text parses back to the integer |
| FileTree.SearchCheckedItems | mlMainWindow.cpp:841-855 | appends the reference collection: a checked child is taken and not descended into, an unchecked one is searched, in child order |
| FileTree.CheckedItems | mlMainWindow.cpp:857 | the search from the invisible root gives the reference collection of the top level |
| FileTree.CheckedInAreChecked | mlMainWindow.cpp:846-849 | every collected item is checked |
| FileTree.CheckedChildCollected | mlMainWindow.cpp:846-853 | every checked child of a searched item is collected, with that item's text as parent |
| FileTree.NothingCheckedNothingFound | mlMainWindow.cpp:841-855 | with nothing checked, nothing is collected |
| FileTree.FirstChecked | mlMainWindow.cpp:997-1015 | the first-match search returns only a checked item |
| FileTree.FirstCheckedIsHead | mlMainWindow.cpp:997-1015 | the first-match search returns the head of the collecting search, or nothing when it is empty |
| FileTree.CollectedItemsHaveParents | mlMainWindow.cpp:944 | with no top-level check box, every collected item has a parent item |
| BuildCommands.CommandOf | mlMainWindow.cpp:829-982 | defines the program and arguments of each entry: `gdtdb /update`, cod2map64 by compile mode, radiant_modtools by light quality, linker_modtools for a map or a mod zone, BlackOps3 |
| BuildCommands.LightQualityArg | mlMainWindow.cpp:910-924 | defines the light quality argument: index 0 is "+low", 2 is "+high", every other index "+medium" |
| BuildCommands.MapSource | mlMainWindow.cpp:897 | defines the .map path: the game path, map_source, the map's first two letters, the map |
| BuildCommands.GameArgs | mlMainWindow.cpp:960-980 | defines the game arguments: the dvars, `+set fs_game`, `+devmap` for a map, the extras split at blanks |
| BuildCommands.ItemTasks | mlMainWindow.cpp:877-957 | defines the entries of one checked item: compile, light and link for a map, as ticked; link with its parent mod for a mod zone |
| BuildCommands.BuildTasks | mlMainWindow.cpp:829-983 | defines the whole list: one `gdtdb /update` before any per-item entry, the per-item entries in item order, then the game entry when Run is ticked and a map or mod was checked |
| BuildCommands.RunArgs | mlMainWindow.cpp:1620-1645 | defines Run's arguments for the first selected item: a map launches itself with `+devmap`; anything else names its parent mod, or itself without a parent |
| BuildCommands.LanguageArgs | mlMainWindow.cpp:861-873 | one `-language` pair for a chosen language, or one per entry of gLanguages for "All" |
| BuildCommands.ExpandLanguages | mlMainWindow.cpp:867-872 | the loop gives one `-language` pair per language, in order |
| BuildCommands.LanguagePairsShape | mlMainWindow.cpp:867-872 | the pairs have twice the length, with `-language` at even positions and each language after it |
| BuildCommands.AllLanguagesExpanded | mlMainWindow.cpp:33-36 | "All" gives all twelve languages, each after its own `-language` |
| BuildCommands.GameArgsParts | mlMainWindow.cpp:960-982 | game arguments are the dvars, `+set fs_game <mod>`, `+devmap <map>` for a map, then the extras, which join back to the option text |
| BuildCommands.AddIf | mlMainWindow.cpp:829-838 | AddUpdateDBCommand and one ticked entry keep the list as "update, then the per-item entries so far", with UpdateAdded saying whether there are any |
| BuildCommands.AddItem | mlMainWindow.cpp:875-958 | one checked item adds its compile, light and link entries (map) or its link entry (mod zone), keeping that invariant |
| BuildCommands.GameEntryArgs | mlMainWindow.cpp:960-980 | the appended argument list equals the game arguments for the last mod, else the last map |
| BuildCommands.CollectBuildTasks | mlMainWindow.cpp:875-983 | the list equals the reference list; UpdateAdded holds exactly when some per-item entry was added |
| BuildCommands.CollectBuildCommands | mlMainWindow.cpp:861-983 | the Commands list is the reference list spelled out with the exact programs and arguments |
| BuildCommands.CheckedItemsParentsKnown | mlMainWindow.cpp:944 | the items collected from the file list all have the parent a mod zone's entry reads |
| BuildCommands.NoUpdateInItems | mlMainWindow.cpp:829-838 | no per-item entry is the database update |
| BuildCommands.UpdateComesFirst | mlMainWindow.cpp:829-838 | `gdtdb /update` heads the list exactly when some per-item entry exists, and appears nowhere else |
| BuildCommands.MapEntriesPresent | mlMainWindow.cpp:877-941 | every checked map gets its compile, light and link entries, as far as ticked |
| BuildCommands.ModEntriesPresent | mlMainWindow.cpp:942-957 | every checked mod zone gets a link entry naming its mod and zone when Link is ticked |
| BuildCommands.ItemEntriesSound | mlMainWindow.cpp:875-958 | every per-item entry comes from a checked item of the matching kind and a ticked action |
| BuildCommands.LastMapNone | mlMainWindow.cpp:940 | with no checked map, LastMap is empty |
| BuildCommands.LastMapAt | mlMainWindow.cpp:940 | LastMap is the text of the last checked map |
| BuildCommands.LastModNone | mlMainWindow.cpp:956 | with no checked mod zone, LastMod is empty |
| BuildCommands.LastModAt | mlMainWindow.cpp:944-956 | LastMod is the parent text of the last checked mod zone |
| BuildCommands.GameEntryLast | mlMainWindow.cpp:960-983 | the game entry is present, and last, exactly when Run is ticked and some map or mod was checked; it has the game arguments, and no earlier entry launches the game |
| BuildCommands.NothingCheckedNothingToDo | mlMainWindow.cpp:985-990 | with nothing checked, or no action ticked, the list is empty |
| BuildCommands.NoItemTasks | mlMainWindow.cpp:875-958 | with compile, light and link unticked, no per-item entry is added |
| BuildCommands.RunArgsShape | mlMainWindow.cpp:1620-1645 | Run's arguments: the dvars, `+set fs_game` with the map, the parent mod or the item itself, `+devmap` for a map only, then the extras |
| Dvars.LookupFrom | dvar.cpp:45-52 | defines the scan from an index on: the first entry with the name, or the last entry scanned |
| Dvars.Lookup | dvar.cpp:43-53 | defines findDvar's result: the scan from the first entry, starting from dvar_s{} |
| Dvars.VariantText | dvar.cpp:60-76 | defines QVariant::toString of the stored value: "true"/"false", decimal text, or the text itself |
| Dvars.RowArgs | mlMainWindow.cpp:1341-1353 | defines the arguments one row adds: `+set name value`, `+name value` for a command, nothing for empty text |
| Dvars.FindDvar | dvar.cpp:43-53 | the scan returns the table's reference lookup |
| Dvars.LookupFirstMatch | dvar.cpp:46-50 | the first entry with the queried name is returned |
| Dvars.LookupNoMatch | dvar.cpp:45-52 | without a match, the last entry scanned, or dvar_s{} for an empty table |
| Dvars.LookupOwnEntry | dvar.cpp:43-53 | in a table without repeated names, each entry is found under its own name |
| Dvars.TableNamesDistinct | mlMainWindow.cpp:41-51 | gDvars has no repeated name |
| Dvars.SettingKey | dvar.cpp:58 | the key is "dvar_" followed by the name |
| Dvars.SettingKeysDistinct | dvar.cpp:58 | two names share a key exactly when they are equal |
| Dvars.BoolText | dvar.cpp:60 | the bool overload returns "1" or "0" |
| Dvars.BoolTextOfCheckBox | dvar.cpp:55-61 | a check box reads back as "1" exactly when checked, and never as empty text |
| Dvars.IntTextOfSpinBox | dvar.cpp:63-69 | a spin box value reads back as non-empty decimal text that parses to the value |
| Dvars.SettingsStore.SetValue | dvar.cpp:58 | QSettings::setValue updates the one key |
| Dvars.SettingsStore.Value | dvar.cpp:60 | defines QSettings::value read as text: the stored value's text, or empty text for a missing key |
| Dvars.SettingsStore.SetBoolDvar | dvar.cpp:55-61 | stores the check state under the dvar's key and returns "1" exactly when checked |
| Dvars.SettingsStore.SetIntDvar | dvar.cpp:63-69 | stores the spin value and returns text that parses back to it |
| Dvars.SettingsStore.SetStringDvar | dvar.cpp:71-77 | stores the text and returns it unchanged |
| Dvars.Visited | mlMainWindow.cpp:1323 | the loop reads no more rows than the tree has and than the table has entries |
| Dvars.ReadRow | mlMainWindow.cpp:1325-1353 | one row stores its widget's value under the found dvar's key and adds `+set name value`, `+name value`, or nothing for empty text |
| Dvars.RunDvarArguments | mlMainWindow.cpp:1314-1356 | mRunDvars and the store equal the reference fold over the visited rows |
| Dvars.BoolRowAlwaysSet | mlMainWindow.cpp:1341-1353 | a bool row always contributes its arguments |
| Dvars.IntRowAlwaysSet | mlMainWindow.cpp:1341-1353 | an int row always contributes, with text that parses to the value |
| Dvars.StringRowIff | mlMainWindow.cpp:1341-1353 | a string row contributes exactly when its text is non-empty, with the text unchanged |
| Dvars.RunDvarsSplit | mlMainWindow.cpp:1321-1356 | reading more rows only appends to mRunDvars |
| Dvars.RowsBeyondIgnored | mlMainWindow.cpp:1323 | rows beyond the table size change neither the arguments nor the store |
| Dvars.DialogRowsStored | mlMainWindow.cpp:1302-1356 | with the dialog's rows, each dvar's value lands under its own key |
| Dvars.RowsStored | mlMainWindow.cpp:1323-1356 | the same for any table without repeated names, after any number of rows |
| NewMap.CheckName | mlMainWindow.cpp:727-751 | defines the name checks in their order: empty, shipped in any case, then the template's prefix on the lower-cased name |
| NewMap.Message | mlMainWindow.cpp:729-750 | defines the message shown for each refusal |
| NewMap.CopyLine | mlMainWindow.cpp:784-794 | defines the rewrite of one copied line: a line with "guid" gets a fresh guid, any other has every "template" replaced |
| NewMap.CopiedPath | mlMainWindow.cpp:762-774 | defines a copied entry's destination: the destination path, a backslash, the entry, with every "template" replaced |
| NewMap.AcceptedNameFacts | mlMainWindow.cpp:727-751 | an accepted name is non-empty, not a shipped map in any case, lower-cased, and has the template's prefix |
| NewMap.ShippedNameRefused | mlMainWindow.cpp:735-739 | a shipped map's name is refused however it is cased |
| NewMap.ShippedUpperCaseRefused | mlMainWindow.cpp:735-739 | every shipped map in capitals is refused |
| NewMap.FreshNameAccepted | mlMainWindow.cpp:729-751 | any other non-empty name with a fitting prefix is accepted, lower-cased |
| NewMap.OtherTemplatesAnyPrefix | mlMainWindow.cpp:746-751 | only the MP and ZM mod templates demand a prefix |
| NewMap.MixedCaseExample | mlMainWindow.cpp:741-751 | "MP_Test" becomes "mp_test" with the MP template, and is refused with the ZM one |
| NewMap.RenamedLineLength | mlMainWindow.cpp:784-794 | a line without "guid" has every "template" replaced by the map name, and its length changes accordingly |
| NewMap.FirstTemplateRenamed | mlMainWindow.cpp:791-794 | in a line without "guid", the text before the first "template" is kept, that occurrence becomes the map name, and the rest is renamed in turn |
| NewMap.PlainLineCopied | mlMainWindow.cpp:791-794 | a line with neither "template" nor "guid" is copied as it is |
| Workshop.KnownOf | mlMainWindow.cpp:1417-1432 | defines the tags kept: the item's tags that are in gTags, in the item's order |
| Workshop.KnownTagsDistinct | mlMainWindow.cpp:37-40 | gTags has no repeated tag |
| Workshop.MatchTag | mlMainWindow.cpp:1421-1431 | a tag that equals a table entry is stored once after the earlier ones; any other tag stores nothing |
| Workshop.FilterTags | mlMainWindow.cpp:1412-1432 | the tag array holds exactly the item's known tags, in order |
| Workshop.KnownOfExact | mlMainWindow.cpp:1417-1432 | a tag is kept exactly when it is an item tag and a known tag |
| Workshop.DistinctTagsFit | mlMainWindow.cpp:1173-1180 | tags gathered from the dialog's distinct check boxes never overflow the array |
| Workshop.DistinctKnownOf | mlMainWindow.cpp:1417-1432 | distinct item tags give distinct kept tags |
| MainWindow.Window.constructor | mlMainWindow.cpp:260 | no build runs; the window's invariant holds |
| MainWindow.Window.StartBuildThread | mlMainWindow.cpp:543-552 | the button reads "Cancel", the output is cleared, and a fresh runner starts with the commands and the ignore-errors box |
| MainWindow.Window.UpdateDB | mlMainWindow.cpp:531-541 | does nothing while a build runs; otherwise starts `gdtdb /update` alone; keeps the invariant |
| MainWindow.Window.OnEditBuild | mlMainWindow.cpp:818-993 | while a build runs, only cancels it; otherwise starts the build list for the checked items, or nothing when that list is empty; keeps the invariant |
| MainWindow.Window.OnRunMapOrMod | mlMainWindow.cpp:1611-1649 | with a selection, starts the game for the first selected item, whatever is running |
| MainWindow.Window.OnRunMapOrModGuarded | mlMainWindow.cpp:1611-1649 | the same with UpdateDB's guard: does nothing while a build runs; keeps the invariant |
| MainWindow.Window.StartConvertThread | mlMainWindow.cpp:554-560 | a fresh conversion runner with errors ignored and the chosen overwrite flag |
| MainWindow.Window.BuildOutputReady | mlMainWindow.cpp:1757-1760 | appends the text to the output |
| MainWindow.Window.BuildFinished | mlMainWindow.cpp:1762-1767 | resets the button, hands mBuildThread to deleteLater and forgets it; with no build held, records a deleteLater through null |
| MainWindow.Window.BuildThreadFinished | mlMainWindow.cpp:549 | when a build ends, the window holds no build and keeps the invariant |
| MainWindow.Window.ConvertThreadFinished | mlMainWindow.cpp:558 | as wired, a conversion's end also resets the button, hands mBuildThread to deleteLater (or calls it through null) and forgets it |
| MainWindow.Window.ConvertThreadFinishedFixed | mlMainWindow.cpp:558 | with its own slot, a conversion's end leaves the build handle alone and keeps the invariant |
| MainWindow.Window.OnEditDvars | mlMainWindow.cpp:1314-1356 | rebuilds mRunDvars and the store from the dialog's rows |
| MainWindow.CancelBuildTwice | mlMainWindow.h:35-38 | cancelling twice is the same as cancelling once |
| MainWindow.CancelConversionTwice | mlMainWindow.h:62-65 | cancelling a conversion twice is the same as cancelling once |
| MainWindow.RunWhileBuilding | mlMainWindow.cpp:1611-1649 | Update DB and then Run leave two builds running, of which the window knows only the second |
| MainWindow.RunWhileBuildingGuarded | mlMainWindow.cpp:531-541 | with the guard, the same presses leave the one build, known to the window |
| MainWindow.ConversionEndsDuringBuild | mlMainWindow.cpp:554-560 | a conversion ending during a build resets the button, forgets that build, and hands it to deleteLater while it still runs |
| MainWindow.ConversionEndsWithNoBuild | mlMainWindow.cpp:1762-1767 | a conversion ending with no build running calls deleteLater through a null mBuildThread |
| MainWindow.ConversionEndsDuringBuildFixed | mlMainWindow.cpp:554-560 | with its own slot, the same presses keep the one build, delete nothing, and Build then cancels it |
| MainWindow.ConversionEndsWithNoBuildFixed | mlMainWindow.cpp:554-560 | with its own slot, a conversion alone leaves the window valid, with no deleteLater through null |

## Left out

- Processes, threads and signals are not modelled. The runners' loops are modelled, but child processes are given outcomes. Left out: the sleep-and-poll timing, the working directory, and the exact chunking of output.
- Both runners start their children with merged channels. A build child's output is one sequence of chunks. A converter's outcome carries one output, holding what it wrote to either stream, and its error buffer is always empty. Which poll sees the cancel flag is an input. Cross-thread visibility of `mCancel` is assumed.
- `deleteLater` is a ghost record of the runners handed to it, with a flag for a call through null. The deletion itself is not modelled, nor what Qt does when a running QThread is destroyed. The message boxes and every widget are left out. Widgets become plain values: the build options, the dvar rows, the file tree, the selection.
- The `TA_TOOLS_PATH` environment read, `getenv` and Steam are not modelled. The Workshop calls are left out; only the tag filter is kept.
- `Workshop.FilterTags`: this uses array length `|KnownTags|`, and the inner loop is cut short once it is full, as `MatchTag` says. The model requires that the item's known tags fit (`DistinctTagsFit` proves this for tags from the dialog). The source has no such check, so an overflowing tag list is not modelled.
- The new-map checks:
  - Only the checks and the renaming of one line or path are modelled.
  - Not modelled: the template directory scan, `mkpath`, and the file reads and writes of `RecursiveCopy`, including what happens when an open fails.
  - The list of files shown at the end is not modelled.
  - The guid rewrite (a regular expression and a fresh UUID) is left out: such a line is kept as it is, marked as needing a fresh guid.
- Latin-1 and Unicode case mapping are not modelled: upper and lower case are ASCII only.
- ConvertRunner.Check, ConvertRunner.ConvertStep: a file is found under its `FileKey`, so paths that differ only in ASCII case or in '/' against '\' name the same file. Not modelled: non-ASCII case folding, "." and ".." segments, short 8.3 names and links, which also make distinct strings name one file on Windows.
- ConvertRunner.ConvertStep, ConvertRunner.Render: a file is taken to be an absolute path with '/' separators, as the dropped URLs that fill the list give (`toLocalFile`, mlMainWindow.cpp:1797-1800). `absoluteFilePath()` (139) is then the path itself, so the model quotes and opens the path as given. For a relative path Qt prepends the working directory, and it may re-case the drive letter; neither is modelled. The base name and suffix do not depend on this.
- Paths.CleanPath, Paths.CleanPathShape: `QDir::cleanPath` is modelled on Windows with its drive-root and UNC rules. Not modelled: the "." and ".." segments, and the server name of a UNC path followed by further slashes ("///x"), which Qt keeps and the model collapses.
- `QSettings` persistence is a map in memory.
- `Dvars.FindDvar`: building a `Dvar` for each table entry also adds a row to the dialog's tree. This side effect is not modelled, so the rows `OnEditDvars` walks are an input. The enum `dvar_s::type` comes from `dvar.h`, which is not part of this model. The order BOOL, INT, STRING is assumed, so `dvar_s{}` is a bool dvar.
- `Dvars.RunDvarArguments` requires each visited row's widget to have the type its dvar's overload casts to. Otherwise `dynamic_cast` gives null, and the call dereferences it.
- `PopulateFileList` is not modelled: the file tree is an input. Its layout gives the precondition of `OnEditBuild` that no top-level item is checked.
- `mConvertThread` is never initialised by the constructor; the model starts it as null.
- `ConvertRunner.CountersCoverAllFiles` requires that every conversion was saved. A conversion whose target cannot be opened for writing moves no counter in the code, so the three counters then cover fewer files than were processed.
- `mSuccess` is two-valued and starts false, and `StartBuildThread` does not check for a running build (see Findings).

## Findings

| source | as written | input that shows it | evidently intended | confidence | as-written member | corrected member |
|---|---|---|---|---|---|---|
| mlMainWindow.cpp:1611-1649 | OnRunMapOrMod starts a build without checking mBuildThread | press Update DB, then Run with a map selected before the update finishes | return while a build runs, as UpdateDB does at 533-534 | not executed | MainWindow.RunWhileBuilding | MainWindow.Window.OnRunMapOrModGuarded |
| mlMainWindow.cpp:558 | the conversion runner's finished() is connected to BuildFinished, which resets the button, hands the running build to deleteLater and clears mBuildThread | press Update DB, then drop files on Export2Bin; the conversion ends first | a slot for the conversion that leaves the build handle alone | not executed | MainWindow.ConversionEndsDuringBuild | MainWindow.Window.ConvertThreadFinishedFixed |
| mlMainWindow.cpp:1762-1767 | reached from a conversion's end with no build running, BuildFinished calls deleteLater through a null mBuildThread | drop files on Export2Bin with no build running | a slot for the conversion that leaves the build handle alone | not executed | MainWindow.ConversionEndsWithNoBuild | MainWindow.Window.ConvertThreadFinishedFixed |
