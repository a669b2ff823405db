# CxxPlugin core, modelled in Dafny

CxxPlugin is the C++ plugin of the VSSonarExtension for Visual Studio. This
project models its core.

**Sensors.** Each sensor runs an external C++ analyser and parses the report
into SonarQube issues. There are five: Vera++, CppCheck, RATS, PC-lint and a
custom "other" linter.

**Vera++ lines.** The Vera++ rule key is `vera++.<id>`, with a dot (CxxPlugin/LocalExtensions/VeraSensor.cs:93). A Vera++ line is cut at every colon, so a line without a drive letter has too few fields and is skipped (CxxPlugin/LocalExtensions/VeraSensor.cs:82-85).

**Local extension.** `CxxLocalExtension` runs the sensors on the file in view.
It keeps only the issues of that file, rewrites each issue's component to a
resource key, and takes the severity from the quality profile. It can also
restrict the issues to the lines a change touched.

**Local analyser.** `LocalAnalyser` builds the sonar-runner command line for
the full, incremental and preview modes. It watches the runner's debug
output for the file being indexed and runs the sensors on that file.

**Resource keys.** The plugin (`CxxPlugin`) and the server extension
(`CxxServerExtension`) turn a file path into a SonarQube resource key.

**Options.** `CxxOptionsController` is the options page. Its settings are
written to, and read back from, a flat string dictionary. A reset restores
each tab to the defaults of the installation.

## Modules

| module | what it holds |
|---|---|
| `Wrappers` | `Option` and `Result`, with the exceptions the code raises as values |
| `Strings` | the .NET string operations the code uses, on `seq<char>` |
| `Seqs` | `FilterMap`, the shape of every "parse each line, skip failures" loop, and `UntilThrow`, the shape of a loop that a throw aborts |
| `Dictionaries` | `Dictionary<string,string>` as an insertion-ordered sequence of entries |
| `Issues` | the `Issue` record and the shared `List<Issue>` |
| `DiffFilter` | keeping only the issues on changed lines, and the fail-open rule |
| `ASensor` | the sensor base class, as a `class` with output buffers |
| `CppCheckSensor`, `VeraSensor`, `RatsSensor`, `PcLintSensor`, `CxxExternalSensor` | the five parsers and their option lookups |
| `CxxLocalExtension` | running a sensor and merging its issues |
| `LocalAnalyser` | runner arguments, the debug-output watcher and the per-file callback |
| `CxxPlugin`, `CxxServerExtension` | supported files, the enabled flag and resource keys |
| `CxxOptionsController` | the options page as a `class`: serialisation, loading and reset |

## Model

| member | source | states |
|---|---|---|
| `ASensor.Sensor.constructor` | CxxPlugin/LocalExtensions/ASensor.cs:72-77 | a new sensor has its repository key and output choice, empty buffers and no callback |
| `ASensor.Sensor.GetKey` | CxxPlugin/LocalExtensions/ASensor.cs:137-140 | the key is the repository key |
| `ASensor.Sensor.LaunchWith` | CxxPlugin/LocalExtensions/ASensor.cs:109-113 | launching records one launch with that executable, arguments and environment, sets the callback, and leaves the buffers alone |
| `ASensor.Sensor.LaunchSensor` | CxxPlugin/LocalExtensions/ASensor.cs:124-129 | launches the configured command, with the file path appended to the arguments after a space |
| `ASensor.Sensor.ProcessOutputDataReceived` | CxxPlugin/LocalExtensions/ASensor.cs:162-168 | standard output grows by the line if it is kept; standard error and the rest are unchanged |
| `ASensor.Sensor.ProcessErrorDataReceived` | CxxPlugin/LocalExtensions/ASensor.cs:179-185 | standard error grows by the line if it is kept; standard output and the rest are unchanged |
| `ASensor.Sensor.EventHandlerFunction` | CxxPlugin/LocalExtensions/ASensor.cs:196-200 | the exit handler fails exactly when no callback is set; otherwise it hands over the key and the buffer this sensor reads (stdout or stderr) |
| `ASensor.Sensor.Deliver` | CxxPlugin/LocalExtensions/ASensor.cs:162-185 | a run of process events leaves in each buffer the kept lines of its stream, in order |
| `ASensor.BufferLines` | CxxPlugin/LocalExtensions/ASensor.cs:162-185 | every buffered line is non-empty and was received on that stream |
| `ASensor.RunOnFile` | CxxPlugin/LocalExtensions/ASensor.cs:124-200 | launch, events, exit: the callback gets the key and exactly the kept lines of the chosen stream |
| `CppCheckSensor.ToIssue` | CxxPlugin/LocalExtensions/CppCheckSensor.cs:66-81 | an error gives an issue exactly when its id is not `unusedFunction`, with rule `cppcheck.<id>` |
| `CppCheckSensor.RuleKeyIsUnused` | CxxPlugin/LocalExtensions/CppCheckSensor.cs:66-81 | the rule key is `cppcheck.unusedFunction` exactly for that id |
| `CppCheckSensor.GetViolations` | CxxPlugin/LocalExtensions/CppCheckSensor.cs:66-81 | no lines give no issues; otherwise it throws exactly when the decoder does; no result has the unused-function rule |
| `CppCheckSensor.NoUnusedFunction` | CxxPlugin/LocalExtensions/CppCheckSensor.cs:66-81 | no produced issue has the unused-function rule or a severity |
| `CppCheckSensor.ViolationsMember` | CxxPlugin/LocalExtensions/CppCheckSensor.cs:66-81 | an issue is produced exactly for an error of the report whose id is not `unusedFunction` |
| `CppCheckSensor.ViolationsCount` | CxxPlugin/LocalExtensions/CppCheckSensor.cs:66-81 | one issue per error, minus the unused-function errors |
| `CppCheckSensor.GetCommand` | CxxPlugin/LocalExtensions/CppCheckSensor.cs:100-103 | the `CppCheckExecutable` option, or KeyNotFound when it is absent |
| `CppCheckSensor.GetArguments` | CxxPlugin/LocalExtensions/CppCheckSensor.cs:111-114 | the `CppCheckArguments` option, or KeyNotFound when it is absent |
| `CxxExternalSensor.FirstFrom` | CxxPlugin/LocalExtensions/CxxExternalSensor.cs:173-189 | the stopping index lies between the cursor and the end, and inside the line it holds the character |
| `CxxExternalSensor.FirstFromSkips` | CxxPlugin/LocalExtensions/CxxExternalSensor.cs:173-189 | no index between the cursor and the stopping index holds the character, so it is the first occurrence |
| `CxxExternalSensor.RunIsSlice` | CxxPlugin/LocalExtensions/CxxExternalSensor.cs:173-189 | the characters the loop collects are the slice from the cursor to the first occurrence |
| `CxxExternalSensor.ScanSpec` | CxxPlugin/LocalExtensions/CxxExternalSensor.cs:173-189 | the scan returns the text before the first occurrence, with the cursor on it; with no occurrence, the rest of the line and a cursor at the end |
| `CxxExternalSensor.ScanFinds` | CxxPlugin/LocalExtensions/CxxExternalSensor.cs:173-189 | a scan that meets the character at k returns the slice up to k |
| `CxxExternalSensor.GetStringUntilFirstChar` | CxxPlugin/LocalExtensions/CxxExternalSensor.cs:173-189 | the character loop computes the scan |
| `CxxExternalSensor.ReadFields` | CxxPlugin/LocalExtensions/CxxExternalSensor.cs:84-96 | the four scans with their cursor steps compute the file, number, message and id fields |
| `CxxExternalSensor.FieldsOfWellFormed` | CxxPlugin/LocalExtensions/CxxExternalSensor.cs:84-96 | on a line `file(number)` + one character + `message[id]...`, the fields are exactly those pieces |
| `CxxExternalSensor.FieldsWithoutId` | CxxPlugin/LocalExtensions/CxxExternalSensor.cs:84-96 | a line that ends after the message reads an empty id |
| `CxxExternalSensor.FieldsWithoutParenthesis` | CxxPlugin/LocalExtensions/CxxExternalSensor.cs:84-96 | a line without `(` is read whole as the file, with an empty number |
| `CxxExternalSensor.ParseLine` | CxxPlugin/LocalExtensions/CxxExternalSensor.cs:80-113 | a line gives an issue exactly when its number parses; the rule starts `other.`, the component is the file and the message is trimmed |
| `CxxExternalSensor.ParseWellFormedLine` | CxxPlugin/LocalExtensions/CxxExternalSensor.cs:80-113 | on a well-formed line, the issue is the line number, trimmed message, `other.[key.]id` rule and file |
| `CxxExternalSensor.ReadLine` | CxxPlugin/LocalExtensions/CxxExternalSensor.cs:80-113 | the statements of one loop iteration compute the parse of that line |
| `CxxExternalSensor.GetViolations` | CxxPlugin/LocalExtensions/CxxExternalSensor.cs:72-119 | the loop keeps the parse of each line that parses, in order |
| `CxxExternalSensor.ViolationRules` | CxxPlugin/LocalExtensions/CxxExternalSensor.cs:72-119 | every issue of the report has a rule under `other.` |
| `CxxExternalSensor.GetOtherKey` | CxxPlugin/LocalExtensions/CxxExternalSensor.cs:56-61 | the `CustomKey` option, or KeyNotFound |
| `CxxExternalSensor.GetCommand` | CxxPlugin/LocalExtensions/CxxExternalSensor.cs:142-145 | the `CustomExecutable` option, or KeyNotFound |
| `CxxExternalSensor.GetArguments` | CxxPlugin/LocalExtensions/CxxExternalSensor.cs:153-156 | the `CustomArguments` option, or KeyNotFound |
| `PcLintSensor.ParseLine` | CxxPlugin/LocalExtensions/PcLintSensor.cs:80-104 | a line gives an issue exactly when its number parses, with rule `pclint:<id>` and the file as component |
| `PcLintSensor.ParseWellFormedLine` | CxxPlugin/LocalExtensions/PcLintSensor.cs:80-104 | on a well-formed line, the issue is the line number, trimmed message, `pclint:id` rule and file |
| `PcLintSensor.SkipsBadNumber` | CxxPlugin/LocalExtensions/PcLintSensor.cs:80-110 | a line whose number does not parse is skipped |
| `PcLintSensor.ReadLine` | CxxPlugin/LocalExtensions/PcLintSensor.cs:80-104 | the statements of one loop iteration compute the parse of that line |
| `PcLintSensor.GetViolations` | CxxPlugin/LocalExtensions/PcLintSensor.cs:70-112 | the loop keeps the parse of each line that parses, in order |
| `PcLintSensor.ViolationRules` | CxxPlugin/LocalExtensions/PcLintSensor.cs:70-112 | every issue of the report has a rule under `pclint:` |
| `VeraSensor.ParseLine` | CxxPlugin/LocalExtensions/VeraSensor.cs:79-101 | an issue needs at least four colon-separated fields and a parsed line number; the rule starts `vera++.`; the message holds no `)` or `:` |
| `VeraSensor.ParseWellFormedLine` | CxxPlugin/LocalExtensions/VeraSensor.cs:79-101 | on `drive:path:line:pre(id)message`, the issue is that line, the message, rule `vera++.id` and component `drive:path` |
| `VeraSensor.SkipsFewColons` | CxxPlugin/LocalExtensions/VeraSensor.cs:79-101 | a line with fewer than three colons is skipped |
| `VeraSensor.SkipsWithoutParenthesis` | CxxPlugin/LocalExtensions/VeraSensor.cs:79-101 | a line whose fourth field has no `(` is skipped |
| `VeraSensor.GetViolations` | CxxPlugin/LocalExtensions/VeraSensor.cs:69-106 | the loop keeps the parse of each line that parses, in order, at most one per line |
| `VeraSensor.GetCommand` | CxxPlugin/LocalExtensions/VeraSensor.cs:136-139 | the `VeraExecutable` option, or KeyNotFound |
| `VeraSensor.GetArguments` | CxxPlugin/LocalExtensions/VeraSensor.cs:147-150 | the `VeraArguments` option, or KeyNotFound |
| `RatsSensor.Collect` | CxxPlugin/LocalExtensions/RatsSensor.cs:84-104 | the triple loop over records, files and lines computes the flattening |
| `RatsSensor.AddRecord` | CxxPlugin/LocalExtensions/RatsSensor.cs:84-104 | the loop over one record's files appends exactly that record's issues |
| `RatsSensor.AddFile` | CxxPlugin/LocalExtensions/RatsSensor.cs:89-102 | the loop over one file's line ids appends one issue per line id, in order |
| `RatsSensor.Report` | CxxPlugin/LocalExtensions/RatsSensor.cs:72-108 | no lines give no issues; otherwise it throws exactly when the decoder does, and else flattens the records |
| `RatsSensor.GetViolations` | CxxPlugin/LocalExtensions/RatsSensor.cs:72-108 | the method computes the report |
| `RatsSensor.FlattenCount` | CxxPlugin/LocalExtensions/RatsSensor.cs:87-104 | one issue per (file, line) pair of an untyped record |
| `RatsSensor.FlattenMember` | CxxPlugin/LocalExtensions/RatsSensor.cs:87-104 | an issue is produced exactly for a (file, line) pair of an untyped record |
| `RatsSensor.FlattenRule` | CxxPlugin/LocalExtensions/RatsSensor.cs:87-104 | every issue has the rule `rats.`, since typed records are dropped |
| `RatsSensor.LineIssuesAt` | CxxPlugin/LocalExtensions/RatsSensor.cs:91-102 | the issues of one file follow its line ids in order |
| `RatsSensor.GetCommand` | CxxPlugin/LocalExtensions/RatsSensor.cs:131-134 | the `RatsExecutable` option, or KeyNotFound |
| `RatsSensor.GetArguments` | CxxPlugin/LocalExtensions/RatsSensor.cs:142-145 | the `RatsArguments` option, or KeyNotFound |
| `CxxServerExtension.Slashes` | CxxPlugin/ServerExtensions/CxxServerExtension.cs:41-45 | every backslash becomes a slash and nothing else changes |
| `CxxServerExtension.RelativePath` | CxxPlugin/ServerExtensions/CxxServerExtension.cs:41-45 | no backslash remains; a path without `solution\` only has its separators changed |
| `CxxServerExtension.GetResourceKey` | CxxPlugin/ServerExtensions/CxxServerExtension.cs:41-45 | the key is `repoKey:` followed by the relative path |
| `CxxServerExtension.KeyUnderSolution` | CxxPlugin/ServerExtensions/CxxServerExtension.cs:41-45 | a file below the solution directory keys as `repoKey:` + the rest of its path in slash form |
| `CxxServerExtension.KeyDeletesInnerOccurrence` | CxxPlugin/ServerExtensions/CxxServerExtension.cs:41-45 | an occurrence of `solution\` inside the path is deleted too |
| `CxxServerExtension.KeyOfFileInSolutionRoot` | CxxPlugin/ServerExtensions/CxxServerExtension.cs:41-45 | a file in the solution root keys as `repoKey:name` |
| `CxxPlugin.GetKey` | CxxPlugin/CxxPlugin.cs:186-189 | the plugin key is `CxxPlugin` |
| `CxxPlugin.IsSupportedFile` | CxxPlugin/CxxPlugin.cs:88-98 | a supported name is at least two characters long and ends in p, c or h in either case; `SupportedWithExtension` and `SupportedIgnoresCase` give the converse and case-insensitivity |
| `CxxPlugin.SupportedWithExtension` | CxxPlugin/CxxPlugin.cs:88-98 | every name ending in a supported extension is supported |
| `CxxPlugin.SupportedIgnoresCase` | CxxPlugin/CxxPlugin.cs:88-98 | support does not depend on letter case |
| `CxxPlugin.UnsupportedLastLetter` | CxxPlugin/CxxPlugin.cs:88-98 | a name whose last letter is not p, c or h is not supported |
| `CxxPlugin.IsSupportedResource` | CxxPlugin/CxxPlugin.cs:109-112 | a null resource is unsupported; a null language throws NullReference; otherwise supported exactly for `c++` |
| `CxxPlugin.PluginEnabled` | CxxPlugin/CxxPlugin.cs:259-283 | a missing or empty flag and `true`, `True` or `TRUE` enable the plugin; `false` or `yes` disable it; a non-empty enabling value has four letters |
| `CxxPlugin.EnabledIgnoresCase` | CxxPlugin/CxxPlugin.cs:270-281 | the enabled flag does not depend on letter case |
| `CxxPlugin.BelowWorkingDir` | CxxPlugin/CxxPlugin.cs:314-319 | removing the working directory adds no backslash |
| `CxxPlugin.GetResourceKey` | CxxPlugin/CxxPlugin.cs:301-320 | the key starts with `projectKey:`; the safe form adds `projectName:`; the plain form has no backslash |
| `CxxPlugin.KeyWithoutWorkingDir` | CxxPlugin/CxxPlugin.cs:311-316 | without a working directory the key is `projectKey:` + the trimmed relative path |
| `CxxPlugin.KeyBelowWorkingDir` | CxxPlugin/CxxPlugin.cs:311-319 | a file below the working directory keys as `projectKey:` + the trimmed rest |
| `CxxPlugin.SafeKeyBelowProject` | CxxPlugin/CxxPlugin.cs:303-309 | the safe key of a file below the project directory is `projectKey:projectName:rest` |
| `CxxLocalExtension.SensorViolations` | CxxPlugin/LocalExtensions/CxxLocalExtension.cs:112-135 | an unknown sensor key throws KeyNotFound; the line sensors never fail and never yield more issues than lines; CppCheck and RATS give their reports |
| `CxxLocalExtension.ViolationsOf` | CxxPlugin/LocalExtensions/CxxLocalExtension.cs:524 | calling GetViolations on the sensor registered under the key gives that sensor's violations, and KeyNotFound for an unknown key |
| `CxxLocalExtension.Accept` | CxxPlugin/LocalExtensions/CxxLocalExtension.cs:525-538 | a failing full-path lookup throws; an issue of another file is dropped; an accepted one carries both keys and the profile's severity |
| `CxxLocalExtension.AcceptedIssue` | CxxPlugin/LocalExtensions/CxxLocalExtension.cs:522-540 | every merged issue is a rewrite of a sensor issue, with both resource keys and the profile's severity |
| `CxxLocalExtension.NoFullPathNothingAccepted` | CxxPlugin/LocalExtensions/CxxLocalExtension.cs:522-545 | when the full path cannot be computed, nothing is merged |
| `CxxLocalExtension.OtherFilesNothingAccepted` | CxxPlugin/LocalExtensions/CxxLocalExtension.cs:522-540 | issues of other files are never merged |
| `CxxLocalExtension.UnknownSensorMergesNothing` | CxxPlugin/LocalExtensions/CxxLocalExtension.cs:522-545 | an unknown sensor key adds nothing to the result |
| `CxxLocalExtension.ProcessSensorsIssues` | CxxPlugin/LocalExtensions/CxxLocalExtension.cs:501-576 | the shared list grows by the accepted issues, restricted to changed lines only when asked and the reference source exists |
| `CxxLocalExtension.AcceptAll` | CxxPlugin/LocalExtensions/CxxLocalExtension.cs:522-545 | the accept loop keeps the accepted issues in order and stops at the first exception |
| `CxxLocalExtension.GetSupportedIssues` | CxxPlugin/LocalExtensions/CxxLocalExtension.cs:305-308 | the result holds exactly the issues of supported files and is no longer than the input |
| `CxxLocalExtension.SupportedIssuesInOrder` | CxxPlugin/LocalExtensions/CxxLocalExtension.cs:305-308 | the kept issues appear in their original order |
| `CxxLocalExtension.RunnerPrefix` | CxxPlugin/LocalExtensions/CxxLocalExtension.cs:319-340 | the property prefix is never empty |
| `CxxLocalExtension.GetLocalAnalysisParamenters` | CxxPlugin/LocalExtensions/CxxLocalExtension.cs:319-340 | the loop computes the runner properties, at most one per option |
| `CxxLocalExtension.RunnerPropertiesMember` | CxxPlugin/LocalExtensions/CxxLocalExtension.cs:319-340 | a property is produced exactly for an option under the project's runner prefix, named by the rest of its key |
| `CxxLocalExtension.RunnerPropertyName` | CxxPlugin/LocalExtensions/CxxLocalExtension.cs:319-340 | an option `prefix+name` becomes the property `name` with its value |
| `DiffFilter.MergeTailFailOpen` | CxxPlugin/LocalExtensions/CxxLocalExtension.cs:551-569 | when no restriction is asked or no diff is available, all issues are kept |
| `DiffFilter.MergeTailFiltered` | CxxPlugin/LocalExtensions/LocalAnalyser.cs:515-518 | with a diff, an issue is kept exactly when its line is a changed line |
| `DiffFilter.MergeTailSubsequence` | CxxPlugin/LocalExtensions/CxxLocalExtension.cs:551-569 | the merge never adds issues |
| `LocalAnalyser.ModeArguments` | CxxPlugin/LocalExtensions/LocalAnalyser.cs:342-386 | an unavailable mode throws; full mode adds nothing; the other modes give the mode flag (from 4.0 on) followed by the excluded-plugins flags of the server version, or throw KeyNotFound when the option is absent |
| `LocalAnalyser.ModeArgumentsText` | CxxPlugin/LocalExtensions/LocalAnalyser.cs:342-386 | from 4.0, incremental gives `sonar.analysis.mode=incremental` and preview `sonar.analysis.mode=preview`, each then `sonar.preview.excludePlugins`; from 3.4 below 4.0, preview gives `sonar.dryRun.excludePlugins` and then `sonar.dryRun=true` |
| `LocalAnalyser.Excluding` | CxxPlugin/LocalExtensions/LocalAnalyser.cs:346-369 | a preview or incremental mode fails with KeyNotFound exactly when the excluded-plugins option is absent; otherwise it starts with the mode flag and ends with the excluded-plugins flags around that option's value |
| `LocalAnalyser.RunnerFlagsAreProperties` | CxxPlugin/LocalExtensions/LocalAnalyser.cs:388-394 | the `-D` flags are exactly the runner properties of the local extension |
| `LocalAnalyser.AppendRunnerFlags` | CxxPlugin/LocalExtensions/LocalAnalyser.cs:388-394 | the loop over the options appends exactly the runner flags to the command line |
| `LocalAnalyser.Arguments` | CxxPlugin/LocalExtensions/LocalAnalyser.cs:338-397 | the command line starts with the credentials and ends with the runner flags; it fails exactly when the mode arguments do |
| `LocalAnalyser.FullAlwaysSucceeds` | CxxPlugin/LocalExtensions/LocalAnalyser.cs:338-397 | full mode always yields a command line |
| `LocalAnalyser.GetArguments` | CxxPlugin/LocalExtensions/LocalAnalyser.cs:338-397 | the method computes the arguments |
| `LocalAnalyser.FileToAnalyse` | CxxPlugin/LocalExtensions/LocalAnalyser.cs:405-411 | nothing is found exactly when the line lacks either marker; a found name is non-empty; the only failure is IndexOutOfRange |
| `LocalAnalyser.FileToAnalyseOfIndexLine` | CxxPlugin/LocalExtensions/LocalAnalyser.cs:407-410 | a debug line `...Populating index from name`, where the marker occurs only once, yields `name` |
| `LocalAnalyser.IndexLineSplits` | CxxPlugin/LocalExtensions/LocalAnalyser.cs:409-410 | splitting a line on its only index marker gives the text before it and the file name |
| `LocalAnalyser.Admit` | CxxPlugin/LocalExtensions/LocalAnalyser.cs:458-467 | a rule missing from the profile drops the issue; an admitted issue has the profile's severity and the file's resource key |
| `LocalAnalyser.AdmitAll` | CxxPlugin/LocalExtensions/LocalAnalyser.cs:456-467 | the loop admits issues in order and stops at the first exception |
| `LocalAnalyser.CallbackIssueEnabled` | CxxPlugin/LocalExtensions/LocalAnalyser.cs:453-474 | every issue the callback keeps is enabled in the profile with its severity and keyed to the file |
| `LocalAnalyser.FileIssueEnabled` | CxxPlugin/LocalExtensions/LocalAnalyser.cs:453-474 | the same holds for all the callbacks of one file |
| `LocalAnalyser.CallbackWithoutExceptions` | CxxPlugin/LocalExtensions/LocalAnalyser.cs:453-474 | without exceptions the callback keeps exactly the admitted issues, in order |
| `LocalAnalyser.Analyser.constructor` | CxxPlugin/LocalExtensions/LocalAnalyser.cs:66-120 | a new analyser has the sensors and profile of its constructor and the mode RunSonarRunner sets, and no issues yet |
| `LocalAnalyser.Analyser.Callback` | CxxPlugin/LocalExtensions/LocalAnalyser.cs:453-474 | the file's issues grow by the callback's issues; nothing else changes |
| `LocalAnalyser.Analyser.ExecuteAnalysisOnFile` | CxxPlugin/LocalExtensions/LocalAnalyser.cs:482-535 | the file's issues are those of its sensor callbacks; the analysis issues grow by them, restricted to changed lines in incremental mode |
| `LocalAnalyser.Analyser.ProcessOutputDataReceived` | CxxPlugin/LocalExtensions/LocalAnalyser.cs:546-570 | only non-full modes read the line; a found file that exists is analysed, anything else leaves the state alone |
| `CxxOptionsController.GetOptionIfExists` | CxxPlugin/Options/CxxOptionsController.cs:817-825 | the stored value when the key is present, else the empty string |
| `CxxOptionsController.GetOptionsStartingWith` | CxxPlugin/Options/CxxOptionsController.cs:827-841 | the selection is no longer than the options |
| `CxxOptionsController.GetOptionsStartingWithMember` | CxxPlugin/Options/CxxOptionsController.cs:827-841 | an entry is selected exactly when it is an option whose key starts with the prefix |
| `CxxOptionsController.PropertyEntry` | CxxPlugin/Options/CxxOptionsController.cs:596-606 | a property piece is stored exactly when it holds `=`, under the project's runner key; otherwise IndexOutOfRange |
| `CxxOptionsController.AddProperties` | CxxPlugin/Options/CxxOptionsController.cs:596-606 | on success each piece appends its entry after the existing ones; failures are IndexOutOfRange or a duplicate key |
| `CxxOptionsController.LoadTools` | CxxPlugin/Options/CxxOptionsController.cs:617-636 | each tool setting is read from its key, empty when absent |
| `CxxOptionsController.ToolsRoundTrip` | CxxPlugin/Options/CxxOptionsController.cs:553-636 | the written tool settings load back unchanged, whatever follows them |
| `CxxOptionsController.ResetAllTools` | CxxPlugin/Options/CxxOptionsController.cs:689-787 | Java and the CppCheck and RATS environments are kept; without a source directory the executables, arguments, custom key and custom environment are emptied and the Vera++ environment kept; with one, every executable, argument, key and environment is its installation default |
| `CxxOptionsController.ResetKeepsOtherTabs` | CxxPlugin/Options/CxxOptionsController.cs:704-788 | resetting one tab leaves the settings of every other tab unchanged |
| `CxxOptionsController.ResetWithoutSourceDir` | CxxPlugin/Options/CxxOptionsController.cs:722-787 | without a source directory a tool tab's executable and arguments are emptied, the external sensor's key and environment too, and the Vera++ environment is kept |
| `CxxOptionsController.ResetBelowSourceDir` | CxxPlugin/Options/CxxOptionsController.cs:722-787 | with one, each tool's executable lies under it |
| `CxxOptionsController.VeraRootOfInstall` | CxxPlugin/Options/CxxOptionsController.cs:722-739 | the Vera++ environment sets VERA_ROOT to the `lib\vera++` directory of the installation |
| `CxxOptionsController.Controller.constructor` | CxxPlugin/Options/CxxOptionsController.cs:151-157 | a new controller has no tools, no project, nothing checked and the default excluded plugins |
| `CxxOptionsController.Controller.Options` | CxxPlugin/Options/CxxOptionsController.cs:553-609 | the global keys come first with the tool values; with a project, its fixed entries follow; failures are IndexOutOfRange or a duplicate key |
| `CxxOptionsController.Controller.GetOptions` | CxxPlugin/Options/CxxOptionsController.cs:553-609 | the method builds the options dictionary |
| `CxxOptionsController.Controller.SetSonarRunnerIsChecked` | CxxPlugin/Options/CxxOptionsController.cs:375-389 | checking the runner unchecks Maven; the two are never both checked afterwards if they were not before |
| `CxxOptionsController.Controller.SetMavenIsChecked` | CxxPlugin/Options/CxxOptionsController.cs:394-408 | checking Maven unchecks the runner, the same way |
| `CxxOptionsController.Controller.SetOptions` | CxxPlugin/Options/CxxOptionsController.cs:617-673 | the tools are loaded from the options; with a project, its settings are loaded too |
| `CxxOptionsController.Controller.SetProjectOptions` | CxxPlugin/Options/CxxOptionsController.cs:638-672 | the project's flags, paths, excluded plugins (default when empty) and runner properties are loaded |
| `CxxOptionsController.Controller.ResetOptions` | CxxPlugin/Options/CxxOptionsController.cs:704-788 | the tools of that tab are reset; the runner tab resets the runner settings; debug, runner path and project are kept |
| `CxxOptionsController.Controller.ResetToolTab` | CxxPlugin/Options/CxxOptionsController.cs:722-787 | the tests on the tab name reset exactly the tool settings of that tab |
| `CxxOptionsController.Controller.ResetRunnerTab` | CxxPlugin/Options/CxxOptionsController.cs:765-771 | Maven checked, runner unchecked, Maven path under the installation, default excluded plugins and runner properties |
| `CxxOptionsController.Controller.ResetDefaults` | CxxPlugin/Options/CxxOptionsController.cs:689-696 | every tab is reset in order; the runner settings are the defaults and Maven and the runner are exclusive |
| `CxxOptionsController.RunnerEntriesOpposite` | CxxPlugin/Options/CxxOptionsController.cs:581-590 | the stored Maven and runner flags are `true`/`false` and opposite |
| `CxxOptionsController.ToolsSurviveRoundTrip` | CxxPlugin/Options/CxxOptionsController.cs:553-636 | loading the written options gives back the tools |
| `CxxOptionsController.ProjectEntrySurvivesRoundTrip` | CxxPlugin/Options/CxxOptionsController.cs:553-609 | every fixed project entry reads back as written |
| `CxxOptionsController.ProjectRoundTrip` | CxxPlugin/Options/CxxOptionsController.cs:553-673 | writing then loading keeps debug, runner flag, paths and excluded plugins (default when empty); Maven is the opposite of the runner |
| `CxxOptionsController.FixedEntries` | CxxPlugin/Options/CxxOptionsController.cs:555-594 | the global entries in key order followed by the project entries under the project key |
| `CxxOptionsController.Entries` | CxxPlugin/Options/CxxOptionsController.cs:555-571 | one entry per key, the prefix put before each key |

## Left out

- Processes, threads, locks, logging and the console are not modelled. A sensor run is its sequence of output events.
- The XML deserialisers of CppCheck and RATS are parameters (`Decoder`). Their exceptions are `Throws`.
- `Path.GetFullPath`, `Directory.GetParent` and `Path.GetDirectoryName` are parameters. The source fetched from the server and `VsSonarUtils.GetSourceDiffFromStrings` are not modelled: their result is a parameter (`DiffOutcome`), which is either an exception, a missing reference source, or a list of changed line blocks.
- `DiffFilter.IssuesInModifiedLinesOnly`: `VsSonarUtils.GetIssuesInModifiedLinesOnly` is not part of this model. It is assumed to keep, in their order, the issues whose line lies in a changed block (`ChangedRange`, first to last line inclusive). `MergeTailFiltered` and `MergeTailSubsequence` rest on that assumption; `MergeTailFailOpen` does not depend on it.
- The source's `RunSensor` (CxxPlugin/LocalExtensions/CxxLocalExtension.cs:605-638) launches the sensor process and logs its failure. It is not modelled. `ProcessSensorsIssues` takes the sensor's output lines as a parameter.
- A decoded report with a null list throws NullReference in the code: the errors of a CppCheck report (CxxPlugin/LocalExtensions/CppCheckSensor.cs:77), and the files or line ids of a RATS record (CxxPlugin/LocalExtensions/RatsSensor.cs:88-90). A `Decoder` returns either sequences or an exception, so a null list is the decoder's `Throws(NullReference)`.
- `Profile.IsRuleEnabled` is a lookup parameter, or a map from enabled rules to severities.
- `Convert.ToInt32` is `ParseInt32`: optional sign and decimal digits in the 32-bit range. .NET's surrounding white space is accepted too; culture settings are not modelled.
- Case-insensitive comparison folds ASCII letters only.
- A null string is the empty string, except where the code tells null from empty (`Option`).
- The installation directory read from the user's settings file is the `pathDef` parameter.
- The environment setup of the runner and Maven is not modelled. Neither are the tools' `GetEnvironment` methods or the counter of analysed files.
- The plain property setters are record and field updates, without `OnPropertyChanged`.
- The user control, the file dialogs and the command wrapper around `ResetDefaults` are not modelled.
- The second controller constructor, with a service, leaves the excluded plugins null. Only the first constructor is modelled.
- Issues that the code rewrites in place are values here. A rewritten issue is a new value; aliasing between lists is not modelled.
- A `Dictionary` enumerates in insertion order; the sequence of entries keeps that order.
- `CxxOptionsController.GetOptionsStartingWith`: its membership is stated by `GetOptionsStartingWithMember` rather than by its own contract.
