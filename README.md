# zorx scaffolder core in Dafny

This project models the core of the `zorx` command-line scaffolder, which
creates an Express.js project skeleton. The model covers four parts of the
program.

- **The scaffolding pipeline** (`createProject` and its helpers).
  `Scaffold.Scaffolder` is a class holding an abstract filesystem, the
  working directory, the subprocesses started, the logger calls made and
  the exit status. Its methods follow the source step by step:
  1. check the target directory;
  2. remove it when forced;
  3. create the root and the seven folders;
  4. create and then fill the three source files;
  5. run `<pm> init -y`;
  6. patch `package.json`;
  7. optionally install the packages;
  8. print the next steps, or report the failure.

  Each method is proved equal to a specification function on a `World`
  value. `CreateProjectRun` is the whole run. Lemmas about it state:
  - the exit status;
  - the exact subprocess list;
  - the exact layout and contents of the project directory;
  - that a refused run changes nothing;
  - that the filesystem stays well formed;
  - how the run's log ends;
  - that the generated modules import each other correctly.
- **The file templates** (`fileContents.js`). These are pure functions.
  The entry, route and controller files are text. The manifest is a JSON
  record. Lemmas state:
  - the manifest fields;
  - the port fallback;
  - the module specifiers;
  - the controller's status codes.
- **The logger** (`logger.js`). `Logger.Logger` is a class with the current
  level and the console lines written. `Output` is the pure description of
  what one logger call writes at a given level, and it covers:
  - the level filter;
  - the choice of console method;
  - the line format;
  - the header banner;
  - the progress bar and its arithmetic.
- **Process decisions** (`processManager.js`). These are:
  - the shutdown message and exit code;
  - the fatal-error report;
  - the routing of process events;
  - the Node.js version gate.

The outside world is a parameter of the run. `Scaffold.Env` gives:
- the exit codes of the init and install subprocesses;
- the manifest text that init writes;
- whether the connectivity probe succeeds.

The project path is `path.join` of the working directory and the name:
the name is split at `/`, an empty segment or `.` stays, `..` goes up.
So `create .` names the working directory itself. Without `--force` it is
refused, because the directory exists. With `--force` everything below the
working directory is removed and replaced by the generated project.

Each method row of `Scaffold.Scaffolder` in the table below stands for the
`After*` specification function (or `DirTaken`) that its `ensures` names.
The method's postcondition ties the new state to that function, and the
lemmas about `CreateProjectRun` state what the functions promise.

Terminating the process is recorded as the final `Exited(code)` outcome,
and no step runs after it. Generated files are stored as symbolic contents
(`AppSource(port)`, `RouteSource`, `ControllerSource`,
`ManifestRecord(name)`). `Scaffold.Rendered` and `Scaffold.Document` turn
them into the template text or the JSON document.

## Model

| member | source | states |
|---|---|---|
| Scaffold.Scaffolder.CreateProject | src/lib/core/createProject.js:19-96 | the new state is the run `CreateProjectRun` of the old state, the request and the environment |
| Scaffold.Scaffolder.TryBlock | src/lib/core/createProject.js:20-90 | the try block: announces the project, refuses an existing directory without force, otherwise builds and finishes; returns what it threw |
| Scaffold.Scaffolder.Proceed | src/lib/core/createProject.js:36-90 | past the directory check: build, and stop at the first thrown value before the dependency stage |
| Scaffold.Scaffolder.Catch | src/lib/core/createProject.js:92-95 | the catch block logs the failure line, the fatal-error report and exits 1 |
| Scaffold.Scaffolder.CheckDir | src/lib/core/createProject.js:98-101 | returns `DirTaken` of the filesystem, the path and the skip flag, and changes nothing |
| Scaffold.DirTaken | src/lib/core/createProject.js:98-101 | taken iff the check is not skipped and the path exists |
| Scaffold.Scaffolder.Refuse | src/lib/core/createProject.js:30-34 | logs the warning and the `--force` hint, then a silent shutdown with code 1 |
| Scaffold.Scaffolder.Prepare | src/lib/core/createProject.js:36-43 | with force the project path is removed first; the project directory is then ensured |
| Scaffold.Scaffolder.CreateDirs | src/lib/core/createProject.js:103-119 | the working directory becomes the root and each of the seven folders is ensured below it, in order (loop invariant against `EnsureDirs`) |
| Scaffold.EnsureDirs | src/lib/core/createProject.js:116-118 | files unchanged; a path is a directory afterwards iff it was one or is a prefix of one of the folders below the base |
| Scaffold.Scaffolder.CreateFiles | src/lib/core/createProject.js:121-125 | ensures the three empty source files in the working directory |
| Scaffold.Scaffolder.WriteToFiles | src/lib/core/createProject.js:127-131 | writes the entry file for the port, the route file and the controller file below the root |
| Scaffold.Scaffolder.RunCommand | src/utils/runCommand.js:14-37 | records the invocation with the working directory; a non-zero exit throws `<cmd> failed with exit code <n>` |
| Scaffold.AfterCommand | src/utils/runCommand.js:29-34 | the invocation is appended and the error is present iff the exit code is non-zero |
| Scaffold.Scaffolder.InitPackageManager | src/lib/core/createProject.js:133-135 | runs `<pm> init -y` and records the manifest text the subprocess writes |
| Scaffold.Scaffolder.InstallPackages | src/lib/core/createProject.js:137-143 | logs the package count and runs `<pm> install` with the default and extra packages |
| Scaffold.Packages | src/lib/core/createProject.js:138-139 | the five default packages come first, then the extras in their given order; none given means the defaults |
| Scaffold.Scaffolder.PatchManifest | src/lib/core/createProject.js:59-63 | `package.json` is replaced by the manifest record only when it exists |
| Scaffold.Scaffolder.Build | src/lib/core/createProject.js:36-63 | the steps from the directory to the manifest, with the four progress lines; a failing init stops before the patch |
| Scaffold.Scaffolder.Dependencies | src/lib/core/createProject.js:66-76 | skipped install does nothing; offline logs the warning and the hint; otherwise installs |
| Scaffold.Scaffolder.Completion | src/lib/core/createProject.js:79-90 | the success line, the next-steps header and lines, then a silent shutdown with code 0 |
| Scaffold.Scaffolder.Finish | src/lib/core/createProject.js:66-90 | the dependency stage, then the completion unless it threw |
| Scaffold.Scaffolder.Shutdown | src/utils/processManager.js:17-26 | appends the shutdown log and sets the exit outcome |
| Scaffold.Scaffolder.Log | src/lib/core/createProject.js:21-22 | appends one logger call |
| Scaffold.Scaffolder.constructor | src/lib/core/createProject.js:19 | a run starts with the given filesystem and directory, no commands, no logs, still running |
| Scaffold.ProjectPath | src/lib/core/createProject.js:24 | `path.join(cwd, name)`: a plain name without `/` is a child of the working directory; `.` and the empty name are the working directory; `..` is its parent |
| Scaffold.ParentOfRootExists | src/lib/core/createProject.js:24 | for a name without `/` the directory that holds the project exists when the working directory does |
| Scaffold.DotNamesWorkingDirectory | src/lib/core/createProject.js:24-43 | `create .` names the working directory: refused with exit 1 without force; with force, afterwards exactly the project files are files below it |
| FileSystem.Segments | src/lib/core/createProject.js:24 | splitting a name at `/` gives at least one piece, none holding a `/`, and joining them with `/` gives the name back; a name without `/` is its own single piece |
| FileSystem.ResolveOne | src/lib/core/createProject.js:24 | joining one segment: empty or `.` stays, `..` goes to the parent, anything else goes down |
| Scaffold.Rendered | src/lib/templates/fileContents.js:5-61 | every content but the manifest record has a text |
| Scaffold.Document | src/lib/templates/fileContents.js:64-79 | exactly the manifest record has a JSON document |
| Scaffold.ExitStatus | src/lib/core/createProject.js:27-95 | every run exits; the code is 0 iff the directory check passes, init succeeds and install is skipped, offline or succeeds; otherwise 1 |
| Scaffold.RefusalChangesNothing | src/lib/core/createProject.js:27-34 | a refused run leaves the filesystem, the directory and the commands unchanged, logs exactly four calls and exits 1 |
| Scaffold.Subprocesses | src/lib/core/createProject.js:57-76 | the commands are exactly `<pm> init -y` in the root, then `<pm> install` with the packages iff init succeeded, install is not skipped and the probe succeeds |
| Scaffold.AttemptError | src/lib/core/createProject.js:57-76 | the try block throws the init failure, else the install failure, else nothing |
| Scaffold.FailureReport | src/lib/core/createProject.js:92-95 | a failing subprocess makes the run end with the failure line and the report naming the program and exit code |
| Scaffold.NextSteps | src/lib/core/createProject.js:79-90 | a run exiting 0 ends with the next steps: the install hint iff skipped, `npm run dev`, the URL with the port or 3000 |
| Scaffold.OfflineWarns | src/lib/core/createProject.js:66-73 | offline, the run warns, logs the manual-install hint, starts only init and still exits 0 |
| Scaffold.ProjectLayout | src/lib/core/createProject.js:36-63 | nothing outside the root changes; below it, exactly the seven folders (and their parents) are directories and exactly the project files are files |
| Scaffold.ProjectContents | src/lib/core/createProject.js:49-63 | the three sources hold their templates for the requested port, and their rendered texts are `AppFileContent(port)`, `RouteFileContent()` and `ControllerFileContent()`; the manifest is the template record after a successful init and the written text otherwise |
| Scaffold.RunStages | src/lib/core/createProject.js:36-90 | past the check the run ends in the root and its filesystem is the composition of the skeleton, sources and init stages |
| Scaffold.RunKeepsWellFormed | src/lib/core/createProject.js:19-96 | a well-formed filesystem with an existing working directory stays so |
| Scaffold.BuiltWellFormed | src/lib/core/createProject.js:36-63 | the built filesystem is well formed and contains the root |
| Scaffold.ImportsResolve | src/lib/templates/fileContents.js:10-33 | in the built project the entry file's import resolves to the route source and the route's import to the controller source |
| Scaffold.RouteImportResolves | src/lib/templates/fileContents.js:10 | `./src/routes/main.route` from the entry file names `src/routes/main.route.js` |
| Scaffold.ControllerImportResolves | src/lib/templates/fileContents.js:33 | `../controllers/main.controller` from the route file names `src/controllers/main.controller.js` |
| FileSystem.Remove | src/lib/core/createProject.js:38 | the path and everything below it disappear; nothing else changes |
| FileSystem.EnsureDir | src/lib/core/createProject.js:43 | the path and every directory above it exist; files unchanged |
| FileSystem.OutputFile | src/lib/core/createProject.js:128-130 | the file holds the content and its parent directories exist |
| FileSystem.EnsureFile | src/lib/core/createProject.js:122-124 | an existing file is kept, otherwise an empty one is created with its parents |
| FileSystem.RemoveWellFormed | src/lib/core/createProject.js:38 | removing a non-root path keeps the filesystem well formed |
| FileSystem.EnsureDirWellFormed | src/lib/core/createProject.js:43 | ensuring a directory with no file above it keeps the filesystem well formed |
| FileSystem.OutputFileWellFormed | src/lib/core/createProject.js:128-130 | writing a file that is not a directory keeps the filesystem well formed |
| Templates.AppFileContent | src/lib/templates/fileContents.js:5-27 | the entry file contains the PORT line, the listen line and the route import |
| Templates.PortOrDefault | src/lib/templates/fileContents.js:13 | a non-empty port, else `3000` |
| Templates.RawPort | src/lib/templates/fileContents.js:25 | the raw port, `undefined` when absent |
| Templates.AppFileDistinguishesPorts | src/lib/templates/fileContents.js:13-25 | distinct non-empty ports give distinct entry files |
| Templates.NoOtherPortLiteral | src/lib/templates/fileContents.js:5-27 | for a port without the digit 3 the entry file does not contain `3000`: the fixed text holds no other port |
| Templates.AbsentAndEmptyPortDiffer | src/lib/templates/fileContents.js:13-25 | absent and empty ports both bind 3000 but print different listen messages |
| Templates.RouteFileContent | src/lib/templates/fileContents.js:30-40 | the route file imports the handler from the controller and mounts it on `GET /` |
| Templates.ControllerFileContent | src/lib/templates/fileContents.js:43-61 | the try block answers 200, the catch block 500, and the handler is exported under the imported name |
| Templates.PackageJsonFileContent | src/lib/templates/fileContents.js:64-79 | the manifest's keys are the nine keys in order |
| Templates.ManifestFields | src/lib/templates/fileContents.js:64-69 | name is the project name, version `1.0.0`, description empty, main `app.js` |
| Templates.ManifestScripts | src/lib/templates/fileContents.js:70-73 | the scripts are exactly `start` and `dev` with their commands |
| Templates.ManifestMetadata | src/lib/templates/fileContents.js:74-77 | no keywords, empty author, ISC licence, CommonJS type |
| Templates.ManifestNameInjective | src/lib/templates/fileContents.js:64-66 | the manifest determines the project name |
| Logger.Logger.constructor | src/utils/logger.js:60 | the level starts at NORMAL, nothing written |
| Logger.Logger.Log | src/utils/logger.js:73-93 | appends the line `Emit` gives: none above the current level |
| Logger.Emit | src/utils/logger.js:73-93 | one line iff the level is at most the current level; its text is the format; `console.error` iff ERROR, `console.warn` iff WARN |
| Logger.Format | src/utils/logger.js:83 | colour, then the prefix and a space when there is one, then the message, then the reset code |
| Logger.Output | src/utils/logger.js:99-170 | a call writes nothing exactly when the current level is below its level; only a progress call can throw |
| Logger.ChannelByLevel | src/utils/logger.js:86-92 | an enabled error goes to `console.error`, a warning to `console.warn`, anything else to `console.log` |
| Logger.Logger.Normal | src/utils/logger.js:99-101 | appends what `Output` gives for a normal call |
| Logger.Logger.Info | src/utils/logger.js:107-109 | appends what `Output` gives for an info call |
| Logger.Logger.Success | src/utils/logger.js:115-117 | appends what `Output` gives for a success call |
| Logger.Logger.Warn | src/utils/logger.js:123-125 | appends what `Output` gives for a warning |
| Logger.Logger.Error | src/utils/logger.js:131-133 | appends what `Output` gives for an error |
| Logger.Logger.Debug | src/utils/logger.js:139-141 | appends what `Output` gives for a debug call |
| Logger.Logger.Header | src/utils/logger.js:148-155 | three lines only at NORMAL or above; with `=` it is what `Output` gives |
| Logger.HeaderLines | src/utils/logger.js:148-155 | three `console.log` lines, each exactly bright blue, its text, then the reset code: a newline then the rule; the title indented by two spaces; the rule then a newline |
| Logger.HeaderRuleWidth | src/utils/logger.js:150 | the rule is max(20, title length + 4) characters wide |
| Logger.Logger.Progress | src/utils/logger.js:163-170 | appends what `Output` gives, or reports the RangeError and writes nothing |
| Logger.ProgressBar | src/utils/logger.js:183-191 | `[]` for a zero total; otherwise fails iff the filled count is outside 0..width, and is `width + 2` long with the filled cells first |
| Logger.ProgressBarInRange | src/utils/logger.js:183-191 | for progress between 0 and the total the bar exists, is `width + 2` long, empty at 0 and full at the total |
| Logger.Percentage | src/utils/logger.js:166 | for a positive total the percentage is the integer nearest to 100 · current / total, halves rounded up; otherwise 0 |
| Logger.RoundDivNearest | src/utils/logger.js:186 | the rounding used for the filled count is the integer nearest the quotient, halves rounded up |
| Logger.ProgressBarMonotone | src/utils/logger.js:186 | more progress never fills fewer cells |
| Logger.Logger.SetLevel | src/utils/logger.js:197-205 | a known upper-cased name sets the level and is confirmed at DEBUG; an unknown one keeps the level and warns |
| Logger.Logger.GetLevel | src/utils/logger.js:211-213 | the name returned has the current level's number |
| Logger.LevelNameInverse | src/utils/logger.js:211-213 | names and numbers are inverse on the six levels; other numbers have no name |
| Logger.LevelNumberOfName | src/utils/logger.js:50-57 | every level name's number is its position |
| Logger.Logger.IsLevelEnabled | src/utils/logger.js:220-222 | true iff the upper-cased name is a level at or below the current one |
| Logger.LevelEnabled | src/utils/logger.js:220-222 | the same as a function of the level; unknown names give false |
| Logger.IsLevelEnabledPredictsOutput | src/utils/logger.js:220-222 | `isLevelEnabled` on a call's level is true iff the call writes something |
| ProcessManager.GracefulShutdown | src/utils/processManager.js:17-26 | nothing logged for a null or empty message; otherwise one line, success iff code 0; exits with the code, default 0 and `Shutting down...` |
| ProcessManager.HandleFatalError | src/utils/processManager.js:33-43 | one error line `Fatal Error (<source>): <shown error>`, the two logger arguments joined by a space; exit 1 |
| ProcessManager.AsError | src/utils/processManager.js:56-57 | an Error is kept; any other reason becomes an Error with its text |
| ProcessManager.OnEvent | src/utils/processManager.js:50-67 | SIGINT logs `Process interrupted (SIGINT)` and SIGTERM `Process terminated (SIGTERM)` as success lines and exit 0; an exception or rejection logs `Fatal Error (uncaughtException): …` or `Fatal Error (unhandledRejection): …` with the shown error (a rejection wrapped as an Error) and exits 1 |
| ProcessManager.RejectionIsWrapped | src/utils/processManager.js:55-58 | a non-Error rejection is reported like the Error wrapping its text |
| ProcessManager.ExitListener | src/utils/processManager.js:70-73 | the exit line names the code, with success styling iff 0 |
| ProcessManager.BeforeFirstDot | src/utils/processManager.js:83-84 | the part before the first dot is a dot-free prefix |
| ProcessManager.ValidateNodeVersion | src/utils/processManager.js:81-92 | fails iff both majors are numbers and the current is smaller; on failure exactly one error naming both versions |
| ProcessManager.MajorOnly | src/utils/processManager.js:83-86 | for `v<a>...` against `<b>...` the gate passes iff a >= b, whatever follows the first dot |
| ProcessManager.DefaultGate | src/utils/processManager.js:81 | the default gate accepts majors 16 and later |

## Left out

- The output of subprocesses is left out. `runCommand` forwards the stdout and stderr of a subprocess to the logger (src/utils/runCommand.js:19-26). The model keeps only the exit code, which `Scaffold.Env` supplies. A subprocess that cannot be spawned, or one killed by a signal (a `null` code), is not modelled. A subprocess is assumed to terminate; a hung child, which would hang the run, is not modelled.
- The connectivity probe (`hasInternetConnection`, a DNS lookup) is a boolean in `Scaffold.Env`.
- The effect of `<pm> install` on the filesystem is not modelled: `node_modules`, lock files, and the dependency fields it writes into `package.json`. `Scaffold.ProjectContents` describes the manifest as it is before the install.
- The effect of `<pm> init -y` is modelled only as the manifest text it may write.
- The command-line entry points are not part of this model: src/index.js, bin/zorx.js, src/lib/commands/help.js and src/lib/commands/create.js.
  - `create.js` stores the `--pm` option as `pm`, while the pipeline reads `packageManager`. The model takes the package manager as an optional request field that defaults to `npm`.
  - The request always carries its options. The source reads `options.skipInstall` without a guard, so it would throw if options were missing.
- Filesystem errors are not modelled: permissions, lack of space, a file lying where a directory must go. Project names are resolved as `path.join` resolves them, including the empty name, `.`, `..` and names with `/`. A path that climbs above the root stays at the root.
- Scaffold.ProjectLayout is stated only when the directory that will hold the project exists. For a name without `/` this always holds (`Scaffold.ParentOfRootExists`). A name like `a/b` with `a` missing also creates `a` outside the project directory, and that is not described.
- Scaffold.ProjectContents is stated under the same condition as `Scaffold.ProjectLayout`.
- Scaffold.ImportsResolve is stated under the same condition as `Scaffold.ProjectLayout`.
- Scaffold.RunKeepsWellFormed is stated under the same condition as `Scaffold.ProjectLayout`.
- Scaffold.BuiltWellFormed is stated under the same condition as `Scaffold.ProjectLayout`.
- Scaffold.Scaffolder.PatchManifest: the record is stored symbolically. It is not rendered with `JSON.stringify` and two-space indentation.
- Generated files are stored symbolically. `Scaffold.Rendered` gives the text of the three source files.
- ProcessManager.HandleFatalError: the 100 ms `setTimeout` before exiting is not modelled. The `console.error('Stack trace:', …)` line, which bypasses the logger, is not modelled either.
- ProcessManager.Show: the logger prints a non-string argument as its `JSON.stringify` form. This is modelled only for an `Error` without enumerable own properties, which prints `{}`. Node.js system errors carry `errno`, `code`, `syscall` and `path`, which `JSON.stringify` would print; that is not modelled. Several message arguments joined by a space are modelled only for the two-argument call in `ProcessManager.HandleFatalError`.
- ProcessManager.ExitListener: the model does not register listeners. The line the `exit` listener prints is not part of a run's log.
- `getMemoryUsage`, `isDevelopment` and `setupDevelopmentEnvironment` are left out. They rely on floating-point division, environment lookups and module loading.
- Logger.ProgressBar: the bar cells `█` and `░`, and the emoji at the end of the success message, are written as the single characters they stand for, as are the prefix glyphs. So a bar is `width + 2` characters long.
- Logger.ProgressBar: `Math.round` of a floating-point quotient is modelled as exact rounding half up. This may differ from IEEE results at exact .5 boundaries.
- Logger.Percentage: the same exact rounding is used for the printed percentage.
- Logger.HeaderRuleWidth: the title length is counted in characters, not in UTF-16 code units.
- Prelude.ToUpper upper-cases ASCII letters only.
- Prelude.ToNumber reads only strings of decimal digits and the empty string. Other forms that `Number()` accepts, such as signs, spaces, exponents and hexadecimal, are read as NaN.
- The prefix glyphs are written as the characters they stand for. The colours are written as their ANSI escape strings.
