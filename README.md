# GetContextConfigurationTask, modelled in Dafny

This project models `GetContextConfigurationTask`, a TYPO3 Surf deployment task.
The task reads the database credentials of two TYPO3 contexts, a source and a
target, from the project's repository. It gives them to the application as the
option `contextConfiguration`. One run does this, in order:

1. It checks that the options `sourceContext` and `targetContext` are set
   (`isset`, so a null value counts as missing). It fails with an
   `InvalidConfigurationException` (code 1405592631) on the first one that is not.
2. It reads the application option `repositoryUrl`.
3. It creates a temporary directory with `mkdir -p` on the caller's node, through
   the shell service's `execute`.
4. It builds three file names: `LocalConfiguration.php`,
   `AdditionalConfiguration.<sourceContext>.php` and
   `AdditionalConfiguration.<targetContext>.php`.
5. It hands three `git archive --remote=<url> HEAD:typo3conf -- <file> | tar -x`
   fetch commands, in that order, to `executeOrSimulate` on a new `localhost` node.
6. In a `try` block, it does the following:
   - it sets `$GLOBALS['TYPO3_CONF_VARS']` to the value the base file returns;
   - it includes the source overlay;
   - it reads `DB.host`, `DB.username`, `DB.password` and `DB.database` into the
     `source*` keys;
   - it includes the target overlay on top of that same value, with no reset to
     the base;
   - it reads the same four fields into the `target*` keys;
   - it sets `contextConfiguration` to the `array_merge` of the two arrays;
   - it unlinks the three files.

   The `catch` block rethrows any exception unchanged. So a failing include or
   read leaves the application's options as they were and the files in place.
7. `simulate` calls `execute`.

## Structure

- `wrappers.dfy` (`Wrappers`): `Option` and `Result`.
- `php.dfy` (`Php`): the PHP values used (null, string, string-keyed array),
  `isset`, string conversion, a PHP 5 array read (`Index`), `array_merge`, and the
  exceptions that can end the task.
- `surf.dfy` (`Surf`): the collaborators the task changes:
  - `Node`;
  - the shell calls (`ShellCall`, tagged with the entry point used);
  - the class `Application` (its option map, `SetOption`);
  - the class `Environment`: the shell service's log of calls, the workspace's
    files and `$GLOBALS['TYPO3_CONF_VARS']`, with the methods `Shell`, `Include`
    and `Unlink`;
  - the `Runtime`, which gives what the model cannot see.
- `context_configuration.dfy` (`ContextConfigurationTask`):
  - the pure specification: `Run` for one execution, and `Resolve` (the `try`
    block), built from `Evaluate` (includes and reads) and `Cleanup` (the unlinks);
  - the lemmas about them;
  - the class `GetContextConfigurationTask`, whose methods
    `AssertRequiredOptionsExist`, `Execute` and `Simulate` work step by step on
    the objects and are proved to agree with the specification.

The behaviour of the code the task calls is a `Runtime` parameter:

- `shell` gives, for each shell call, the exception the shell service throws, if any.
- `evaluate` gives what `include <path>` does. From the current value of
  `$GLOBALS['TYPO3_CONF_VARS']` and the path, it yields the global's value
  afterwards, the file's return value and the exception it raised. Nothing is
  assumed about this function: there is no overlay semantics.
- `warningsThrow` says whether the error handler turns PHP notices and warnings
  into exceptions. Three cases depend on it:
  - reading a missing `DB` entry: an exception, or null;
  - reading a string as an array: an exception, or its first character;
  - unlinking a file that is already gone: an exception, or `false`.

Two consequences of the code as written are proved here.

- The credentials of the target are read from the state after both overlays ran
  (`EvaluatedCredentials`).
- When `sourceContext` and `targetContext` have the same text, the two overlay
  names are the same file, and that file is unlinked twice (`SuccessfulEvaluation`,
  `CleanupStaged`). With `warningsThrow` the second unlink raises. At that point
  `contextConfiguration` is already set and the staged files are already gone.

## Model

| member | source | states |
|---|---|---|
| ContextConfigurationTask.GetContextConfigurationTask.AssertRequiredOptionsExist | Packages/Application/TYPO3.Surf.CMS/Classes/TYPO3/Surf/CMS/Task/GetContextConfigurationTask.php:107-113 | The loop over `requiredOptions` succeeds exactly when every required option is set; otherwise it raises the missing-option exception for the first one (`FirstMissing`). |
| ContextConfigurationTask.FirstMissingNone | Packages/Application/TYPO3.Surf.CMS/Classes/TYPO3/Surf/CMS/Task/GetContextConfigurationTask.php:108-112 | No option is reported exactly when every listed option is set (`isset`: present and not null). |
| ContextConfigurationTask.FirstMissingAt | Packages/Application/TYPO3.Surf.CMS/Classes/TYPO3/Surf/CMS/Task/GetContextConfigurationTask.php:108-112 | The first unset name in list order is the one reported. |
| ContextConfigurationTask.FirstMissingSome | Packages/Application/TYPO3.Surf.CMS/Classes/TYPO3/Surf/CMS/Task/GetContextConfigurationTask.php:108-112 | A reported name is unset, and every name before its position is set. |
| ContextConfigurationTask.ValidationOrder | Packages/Application/TYPO3.Surf.CMS/Classes/TYPO3/Surf/CMS/Task/GetContextConfigurationTask.php:31 | With the list `['sourceContext','targetContext']`, `sourceContext` is checked first. The exception carries the message `Required option "<name>" is not set!` and code 1405592631. |
| ContextConfigurationTask.MissingOptionChangesNothing | Packages/Application/TYPO3.Surf.CMS/Classes/TYPO3/Surf/CMS/Task/GetContextConfigurationTask.php:45-50 | With a required option missing, a run raises the exception for the first missing one. It issues no shell call and changes no state: not the options, not the files, not the global. |
| ContextConfigurationTask.MissingOption | Packages/Application/TYPO3.Surf.CMS/Classes/TYPO3/Surf/CMS/Task/GetContextConfigurationTask.php:110 | The `InvalidConfigurationException` for a missing option: message `Required option "<name>" is not set!`, code 1405592631. `ValidationOrder` and `MissingOptionChangesNothing` state which name it carries. |
| ContextConfigurationTask.Validation | Packages/Application/TYPO3.Surf.CMS/Classes/TYPO3/Surf/CMS/Task/GetContextConfigurationTask.php:107-113 | How `assertRequiredOptionsExist` ends for the task's list: normally, or with `MissingOption` of the first unset name. `ValidationOrder` states the outcome for `sourceContext` and `targetContext`; `AssertRequiredOptionsExist` is proved to agree with it. |
| Php.Get | Packages/Application/TYPO3.Surf.CMS/Classes/TYPO3/Surf/CMS/Task/GetContextConfigurationTask.php:47 | `getOption('repositoryUrl')` and a read `$options[$key]` of a set key: the stored value, null when there is none. Its ensures: the result is non-null exactly when the key is `isset`. |
| ContextConfigurationTask.OverlayFile | Packages/Application/TYPO3.Surf.CMS/Classes/TYPO3/Surf/CMS/Task/GetContextConfigurationTask.php:54-55 | `'AdditionalConfiguration.' . $context . '.php'`. `OverlayFileInjective` and `LocalIsNoOverlay` state that the name determines the context's text and never equals the base file. |
| ContextConfigurationTask.Files | Packages/Application/TYPO3.Surf.CMS/Classes/TYPO3/Surf/CMS/Task/GetContextConfigurationTask.php:53-55 | The three file names of one run: `LocalConfiguration.php` and the overlays of `sourceContext` and `targetContext`. `StagedFiles` states when they coincide. |
| ContextConfigurationTask.Path | Packages/Application/TYPO3.Surf.CMS/Classes/TYPO3/Surf/CMS/Task/GetContextConfigurationTask.php:66-67 | `$temporaryDirectory . '/' . $file`, the path included and unlinked. `PathInjective` states that, within one directory, it determines the file. |
| ContextConfigurationTask.MkdirCommand | Packages/Application/TYPO3.Surf.CMS/Classes/TYPO3/Surf/CMS/Task/GetContextConfigurationTask.php:50 | `sprintf('mkdir -p %s', $temporaryDirectory)`. `ShellCalls`, `MkdirFails` and `MissingOptionChangesNothing` state when it is issued and what its failure does. |
| ContextConfigurationTask.FetchCommand | Packages/Application/TYPO3.Surf.CMS/Classes/TYPO3/Surf/CMS/Task/GetContextConfigurationTask.php:56-58 | The `sprintf` that changes into the temporary directory and pipes `git archive --remote=<url> HEAD:typo3conf -- <file>` into `tar -x`, for one file. `ShellCalls` states the three commands issued. |
| ContextConfigurationTask.FetchCommands | Packages/Application/TYPO3.Surf.CMS/Classes/TYPO3/Surf/CMS/Task/GetContextConfigurationTask.php:56-58 | The `$commands` array: the fetch commands for the base file, the source overlay and the target overlay, in that order. `ShellCalls` states the sequence. |
| ContextConfigurationTask.FetchCall | Packages/Application/TYPO3.Surf.CMS/Classes/TYPO3/Surf/CMS/Task/GetContextConfigurationTask.php:60-63 | `executeOrSimulate($commands, $localhost, ...)` on the node `localhost` with host name `localhost`, using the text of `repositoryUrl`. `ShellCalls` and `FetchFails` state when it is made and what its failure does. |
| ContextConfigurationTask.Staged | Packages/Application/TYPO3.Surf.CMS/Classes/TYPO3/Surf/CMS/Task/GetContextConfigurationTask.php:56-63 | The paths a successful fetch leaves in the temporary directory. `StagedFiles` states that they number three, or two when the contexts coincide; `CleanupStaged` and `SuccessfulEvaluation` state that none is left after a successful evaluation. |
| ContextConfigurationTask.ShellCalls | Packages/Application/TYPO3.Surf.CMS/Classes/TYPO3/Surf/CMS/Task/GetContextConfigurationTask.php:47-63 | With both options set, the log grows by `mkdir -p <tmp>` on the caller's node through `execute`. If that succeeds, it also grows by one `executeOrSimulate` call on node `localhost` with exactly three fetch commands, for the base file, then the source overlay, then the target overlay. No other shell call is made. |
| ContextConfigurationTask.OverlayFileInjective | Packages/Application/TYPO3.Surf.CMS/Classes/TYPO3/Surf/CMS/Task/GetContextConfigurationTask.php:54-55 | Two overlay names `AdditionalConfiguration.<c>.php` are equal exactly when their contexts have the same text. |
| ContextConfigurationTask.LocalIsNoOverlay | Packages/Application/TYPO3.Surf.CMS/Classes/TYPO3/Surf/CMS/Task/GetContextConfigurationTask.php:53-55 | The base file `LocalConfiguration.php` never coincides with an overlay file. |
| ContextConfigurationTask.PathInjective | Packages/Application/TYPO3.Surf.CMS/Classes/TYPO3/Surf/CMS/Task/GetContextConfigurationTask.php:66-67 | Within one directory, `<tmp>/<file>` paths are equal exactly when the file names are. |
| ContextConfigurationTask.StagedFiles | Packages/Application/TYPO3.Surf.CMS/Classes/TYPO3/Surf/CMS/Task/GetContextConfigurationTask.php:53-58 | The base path differs from both overlay paths. The overlay paths coincide exactly when the two contexts have the same text. So three files are staged, or two when the contexts coincide. |
| ContextConfigurationTask.ReadFieldsOk | Packages/Application/TYPO3.Surf.CMS/Classes/TYPO3/Surf/CMS/Task/GetContextConfigurationTask.php:68-73 | A credentials array literal is built exactly when every one of its `['DB'][field]` reads succeeds. |
| ContextConfigurationTask.ReadFieldsErr | Packages/Application/TYPO3.Surf.CMS/Classes/TYPO3/Surf/CMS/Task/GetContextConfigurationTask.php:68-73 | A failing literal fails with the exception of its first failing read, in field order. |
| ContextConfigurationTask.ReadFieldsValues | Packages/Application/TYPO3.Surf.CMS/Classes/TYPO3/Surf/CMS/Task/GetContextConfigurationTask.php:75-80 | A built literal with distinct keys has exactly those keys, and each key holds the value of its own field. |
| ContextConfigurationTask.EvaluateSucceeds | Packages/Application/TYPO3.Surf.CMS/Classes/TYPO3/Surf/CMS/Task/GetContextConfigurationTask.php:66-80 | The evaluation succeeds exactly when no included file raises and all eight reads succeed. Each read is taken from the value of the global at its point in the sequence. |
| ContextConfigurationTask.EvaluatedCredentials | Packages/Application/TYPO3.Surf.CMS/Classes/TYPO3/Surf/CMS/Task/GetContextConfigurationTask.php:66-81 | The merged array has exactly the keys `source{Host,User,Password,Database}` and `target{Host,User,Password,Database}`. The source values are the `DB` fields after the base file's value plus the source overlay. The target values are the fields after the target overlay ran on that same value. That value is also the global's final value. |
| ContextConfigurationTask.MergedKeys | Packages/Application/TYPO3.Surf.CMS/Classes/TYPO3/Surf/CMS/Task/GetContextConfigurationTask.php:81 | `array_merge` of the two four-key arrays has exactly the eight keys. |
| ContextConfigurationTask.MergedSourceValues | Packages/Application/TYPO3.Surf.CMS/Classes/TYPO3/Surf/CMS/Task/GetContextConfigurationTask.php:81 | The key sets are disjoint, so the merge keeps every source value. |
| ContextConfigurationTask.MergedTargetValues | Packages/Application/TYPO3.Surf.CMS/Classes/TYPO3/Surf/CMS/Task/GetContextConfigurationTask.php:81 | The merge keeps every target value. |
| ContextConfigurationTask.FailedEvaluationKeepsFiles | Packages/Application/TYPO3.Surf.CMS/Classes/TYPO3/Surf/CMS/Task/GetContextConfigurationTask.php:65-87 | If an include or a read fails after a successful fetch, the run raises that same exception. The application's options are unchanged, and all three staged files stay in the workspace. |
| ContextConfigurationTask.CleanupEffect | Packages/Application/TYPO3.Surf.CMS/Classes/TYPO3/Surf/CMS/Task/GetContextConfigurationTask.php:82-84 | Unlinking a list of paths changes only the files. It succeeds exactly when warnings do not throw or every path is still present at its turn; then none of the paths remains. Otherwise it stops at the first path that is already gone, after removing the ones before it. |
| ContextConfigurationTask.CleanupStaged | Packages/Application/TYPO3.Surf.CMS/Classes/TYPO3/Surf/CMS/Task/GetContextConfigurationTask.php:82-84 | On a workspace holding the staged files, the three unlinks remove all of them and change nothing else. They end normally unless warnings throw and both contexts name the same overlay; then the third unlink raises. |
| ContextConfigurationTask.SuccessfulEvaluation | Packages/Application/TYPO3.Surf.CMS/Classes/TYPO3/Surf/CMS/Task/GetContextConfigurationTask.php:81-84 | After a successful evaluation, `contextConfiguration` is set to the merged credentials, and the workspace keeps none of the staged files. The run ends normally except in the repeated-overlay case under `warningsThrow`. |
| ContextConfigurationTask.SuccessfulRun | Packages/Application/TYPO3.Surf.CMS/Classes/TYPO3/Surf/CMS/Task/GetContextConfigurationTask.php:44-88 | (Converse of the above.) A run that ends normally had both options set, both shell calls succeed and the evaluation succeed. Afterwards `contextConfiguration` holds the merged credentials and no staged file is left. |
| ContextConfigurationTask.ResolveKeepsLog | Packages/Application/TYPO3.Surf.CMS/Classes/TYPO3/Surf/CMS/Task/GetContextConfigurationTask.php:65-87 | The `try` block issues no shell call. |
| ContextConfigurationTask.FirstMissing | Packages/Application/TYPO3.Surf.CMS/Classes/TYPO3/Surf/CMS/Task/GetContextConfigurationTask.php:108-112 | The `foreach` over the required options with its early `throw`: the first name, in list order, that is not `isset`, or none. Its properties are stated by `FirstMissingNone`, `FirstMissingAt` and `FirstMissingSome`. |
| Php.IsSet | Packages/Application/TYPO3.Surf.CMS/Classes/TYPO3/Surf/CMS/Task/GetContextConfigurationTask.php:109 | PHP `isset($options[$key])`: the key is present and its value is not null. So a key mapped to null counts as missing. |
| Php.ToText | Packages/Application/TYPO3.Surf.CMS/Classes/TYPO3/Surf/CMS/Task/GetContextConfigurationTask.php:54-58 | PHP string conversion, used by `.` in the file names and by `%s` in the commands: null gives the empty string, a string itself, an array `Array`. |
| ContextConfigurationTask.MkdirFails | Packages/Application/TYPO3.Surf.CMS/Classes/TYPO3/Surf/CMS/Task/GetContextConfigurationTask.php:49-50 | With both options set, a throwing `mkdir -p` ends the run with that exception. The world differs from the one before only by that call in the log: no fetch, no staged file, no new option. |
| ContextConfigurationTask.FetchFails | Packages/Application/TYPO3.Surf.CMS/Classes/TYPO3/Surf/CMS/Task/GetContextConfigurationTask.php:56-63 | A throwing fetch, after a successful `mkdir -p`, ends the run with that exception before the `try` block. Only the two calls are logged; files, global and options keep their values, so `contextConfiguration` is left as it was. |
| ContextConfigurationTask.Run | Packages/Application/TYPO3.Surf.CMS/Classes/TYPO3/Surf/CMS/Task/GetContextConfigurationTask.php:44-88 | One execution as a function of the state before it: validation, then `mkdir -p`, then the fetch, each ending the run with its exception, then the `try` block (`Resolve`). Its outcomes are stated by `MissingOptionChangesNothing`, `MkdirFails`, `FetchFails`, `ShellCalls`, `FailedEvaluationKeepsFiles`, `SuccessfulEvaluation` and `SuccessfulRun`. |
| ContextConfigurationTask.Resolve | Packages/Application/TYPO3.Surf.CMS/Classes/TYPO3/Surf/CMS/Task/GetContextConfigurationTask.php:65-87 | The `try` block: evaluation, then on success the option `contextConfiguration` set to the merge and the three unlinks; the `catch` rethrows unchanged. Stated by `ResolveKeepsLog`, `FailedEvaluationKeepsFiles` and `SuccessfulEvaluation`. |
| ContextConfigurationTask.Evaluate | Packages/Application/TYPO3.Surf.CMS/Classes/TYPO3/Surf/CMS/Task/GetContextConfigurationTask.php:66-80 | The three includes and the two credential literals, in source order, each exception ending the evaluation. The base file's return value replaces the global, and the target overlay runs on the state the source overlay left. Stated by `EvaluateSucceeds` and `EvaluatedCredentials`. |
| ContextConfigurationTask.DbField | Packages/Application/TYPO3.Surf.CMS/Classes/TYPO3/Surf/CMS/Task/GetContextConfigurationTask.php:69-79 | One read `$GLOBALS['TYPO3_CONF_VARS']['DB'][$field]`. It can fail only when the error handler throws, and reading from null gives null. |
| Php.Index | Packages/Application/TYPO3.Surf.CMS/Classes/TYPO3/Surf/CMS/Task/GetContextConfigurationTask.php:69-79 | A PHP 5 array read `$v[$key]`. It fails exactly when the error handler throws and the key is missing from an array, or the value is a string. A present key gives its value, and null gives null. |
| ContextConfigurationTask.ReadFields | Packages/Application/TYPO3.Surf.CMS/Classes/TYPO3/Surf/CMS/Task/GetContextConfigurationTask.php:68-80 | A credentials array literal with distinct keys, read field by field in order. Stated by `ReadFieldsOk`, `ReadFieldsErr` and `ReadFieldsValues`. |
| ContextConfigurationTask.Cleanup | Packages/Application/TYPO3.Surf.CMS/Classes/TYPO3/Surf/CMS/Task/GetContextConfigurationTask.php:82-84 | The three `unlink` calls in order, the first throwing one ending the sequence. Stated by `CleanupEffect` and `CleanupStaged`. |
| Surf.Unlinked | Packages/Application/TYPO3.Surf.CMS/Classes/TYPO3/Surf/CMS/Task/GetContextConfigurationTask.php:82-84 | One `unlink($path)`: the path is not left and no other file is removed. It fails exactly when the error handler throws and the file is already gone, with the unlink exception for that path. |
| ContextConfigurationTask.GetContextConfigurationTask.Execute | Packages/Application/TYPO3.Surf.CMS/Classes/TYPO3/Surf/CMS/Task/GetContextConfigurationTask.php:44-88 | The step-by-step execution on the objects leaves the shell log, files, global and application options, and gives the outcome, exactly as `Run` specifies from the state before it. |
| ContextConfigurationTask.GetContextConfigurationTask.EvaluateAndCleanUp | Packages/Application/TYPO3.Surf.CMS/Classes/TYPO3/Surf/CMS/Task/GetContextConfigurationTask.php:65-87 | The `try` block on the objects ends as `Resolve` specifies. |
| ContextConfigurationTask.GetContextConfigurationTask.Simulate | Packages/Application/TYPO3.Surf.CMS/Classes/TYPO3/Surf/CMS/Task/GetContextConfigurationTask.php:99-101 | A dry run has exactly the effect and outcome of `Execute` on the same arguments. |
| Surf.Environment.Shell | Packages/Application/TYPO3.Surf.CMS/Classes/TYPO3/Surf/CMS/Task/GetContextConfigurationTask.php:50-63 | A shell call is appended to the log. When it succeeds, the files its commands extract are in the workspace; when it fails, its exception is returned and no file is added. |
| Surf.Environment.Include | Packages/Application/TYPO3.Surf.CMS/Classes/TYPO3/Surf/CMS/Task/GetContextConfigurationTask.php:66-67 | `include` changes only `$GLOBALS['TYPO3_CONF_VARS']`, as the runtime says. It yields the file's return value or its exception. |
| Surf.Environment.Unlink | Packages/Application/TYPO3.Surf.CMS/Classes/TYPO3/Surf/CMS/Task/GetContextConfigurationTask.php:82-84 | `unlink` removes a present file. A missing file raises only when warnings throw. Nothing else changes. |
| Surf.Application.SetOption | Packages/Application/TYPO3.Surf.CMS/Classes/TYPO3/Surf/CMS/Task/GetContextConfigurationTask.php:81 | Setting an option replaces that one key and keeps all others. |
| Php.ArrayMerge | Packages/Application/TYPO3.Surf.CMS/Classes/TYPO3/Surf/CMS/Task/GetContextConfigurationTask.php:81 | `array_merge` of arrays whose keys are non-numeric strings, as the eight credential keys are: the keys of both. Where both have a key, the later array's value wins; elsewhere each value is kept. |

## Left out

- Shell execution, `git archive` and `tar` are not modelled. A shell call is an entry in a log, and its success or failure is given by the runtime. A successful fetch call puts its three files in the workspace.
- What `executeOrSimulate` does in a dry run is the shell service's business, which is not part of this model. The model treats every successful fetch as staging its files. So `Simulate` performs the same includes and reads as `Execute`, as the code does.
- A failing fetch call is modelled as extracting no file at all. Which files a partly failed `git archive ... | tar -x` batch leaves behind is not tracked.
- The effect of `include` (arbitrary PHP code) is left uninterpreted, as the runtime's `evaluate`. Only `$GLOBALS['TYPO3_CONF_VARS']` is tracked; the rest of the global state is not.
- `sys_get_temp_dir()` and `uniqid('bm_deploy')` are not modelled: the temporary directory is a parameter. The directory itself is not tracked as a file.
- The Deployment object is only passed through to the shell service in the source, so it is left out.
- Nodes are values (name, host name). That the `localhost` node is a fresh object is not modelled.
- Flow's dependency injection of the shell service is left out.
- `Application::getOption` is not part of this model. A missing `repositoryUrl` is modelled as null, which converts to the empty string.
- PHP values are limited to null, strings and string-keyed arrays. For these arrays, `array_merge` behaves like a map union in which the later array wins. The key order of PHP arrays is not modelled.
- Converting an array to a string gives `Array`. The notice PHP raises for that conversion is not modelled.
- Reads are modelled as PHP 5 performs them. A missing key gives an undefined-index notice. A string used as an array gives an illegal-offset warning and its first character. Null gives null without a diagnostic. Later PHP versions differ on the last two cases. A PHP string is a sequence of bytes, so the string read gives its first byte; the model gives the first character, which differs when that character takes more than one byte in UTF-8.
- Surf.Environment.Shell: the exception a shell call throws is taken as given. Its message and the output of the command are not modelled.
- Php.ArrayMerge: covers non-numeric string keys only. PHP stores a numeric string key such as `"0"` as an integer, and `array_merge` renumbers and appends such keys instead of letting the later array win. The task merges only the eight fixed credential keys, so this does not arise.
- Included files run in the scope of the line that includes them, so PHP would let them rebind the local variables of `execute()`: the read credentials, the temporary directory, the file names, the application. The model assumes the included configuration files leave those variables alone. Only their effect on `$GLOBALS['TYPO3_CONF_VARS']`, their return value and their exception are modelled.
- A single flag, `warningsThrow`, says whether PHP diagnostics become exceptions. It covers undefined-index notices, illegal-offset warnings and the warning of `unlink` on a missing file together. An error handler that treats notices and warnings differently is not modelled.
