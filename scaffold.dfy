/** The scaffolding pipeline (src/lib/core/createProject.js). A run is
    described twice: as a function from the world before to the world after
    (`CreateProjectRun`), which the properties below are stated about, and as
    the class `Scaffolder`, whose methods change the process state step by
    step in the order the source does and are proved to end in the state the
    function describes.

    The world is the filesystem, the working directory, the subprocesses
    started so far, the calls made into the logger, and whether the process
    has exited. What a subprocess does is not visible here; the environment
    `Env` says how each one ends. */
module Scaffold {
  import opened Prelude
  import opened FileSystem
  import Templates
  import Logger
  import ProcessManager

  /** What a file holds: text written as is, one of the generated sources
      (recorded by the template and its argument; `Rendered` gives the text),
      or the manifest record that `fs.writeJson` serialises. */
  datatype Content =
    | Text(text: string)
    | AppSource(port: Option<string>)
    | RouteSource
    | ControllerSource
    | ManifestRecord(projectName: string)

  /** The text of a file, for every content but the JSON record. */
  function Rendered(c: Content): (r: Option<string>)
    ensures r.None? <==> c.ManifestRecord?
  {
    match c
    case Text(t) => Some(t)
    case AppSource(port) => Some(Templates.AppFileContent(port))
    case RouteSource => Some(Templates.RouteFileContent())
    case ControllerSource => Some(Templates.ControllerFileContent())
    case ManifestRecord(_) => None
  }

  /** The JSON document of the manifest record. */
  function Document(c: Content): (r: Option<Templates.Json>)
    ensures r.Some? <==> c.ManifestRecord?
  {
    if c.ManifestRecord? then Some(Templates.PackageJsonFileContent(c.projectName)) else None
  }

  /** A subprocess started by `runCommand`: program, arguments, and the
      working directory it inherits. */
  datatype Invocation = Invocation(program: string, args: seq<string>, cwd: Path)

  datatype Outcome = Running | Exited(code: int)

  /** The arguments of `createProject(projectName, options)`. */
  datatype Request = Request(
    projectName: string,
    force: bool,
    port: Option<string>,
    skipInstall: bool,
    install: Option<seq<string>>,
    packageManager: Option<string>)

  /** How the outside world answers: the exit codes of the init and install
      subprocesses, the manifest text the init subprocess writes into its
      working directory (if any), and whether the DNS probe succeeds. */
  datatype Env = Env(initExit: int, initWrites: Option<string>, online: bool, installExit: int)

  datatype World = World(
    fs: FileSystem<Content>,
    cwd: Path,
    commands: seq<Invocation>,
    logs: seq<Logger.LogCall>,
    outcome: Outcome)

  /** A world part-way through the try block, with the value it threw, if any. */
  datatype Step = Step(world: World, error: Option<ProcessManager.Thrown>)

  const Folders: seq<Path> := [
    ["src"],
    ["src", "controllers"],
    ["src", "models"],
    ["src", "routes"],
    ["src", "middlewares"],
    ["src", "utils"],
    ["src", "configs"]
  ]

  const AppFile: Path := ["app.js"]
  const ControllerFile: Path := ["src", "controllers", "main.controller.js"]
  const RouteFile: Path := ["src", "routes", "main.route.js"]
  const ManifestFile: Path := ["package.json"]

  const DefaultPackages: seq<string> := ["express", "cors", "helmet", "dotenv", "nodemon"]

  /** `path.join(process.cwd(), projectName)`: the name is split at `/` and
      resolved from the working directory, so `.` and the empty name are the
      working directory itself and `..` its parent. */
  function ProjectPath(cwd: Path, name: string): (r: Path)
    ensures '/' !in name && name != "" && name != "." && name != ".." ==> r == cwd + [name]
    ensures name == "" || name == "." ==> r == cwd
    ensures name == ".." ==> r == Parent(cwd)
  {
    ResolveOne(cwd, name);
    Resolve(cwd, Segments(name))
  }

  /** `packageManager = 'npm'`: the default applies when the option is absent. */
  function PackageManager(pm: Option<string>): string {
    if pm.Some? then pm.value else "npm"
  }

  /** `[...defaultPackages, ...extraPackages]` with `extraPackages = []`. */
  function Packages(extra: Option<seq<string>>): (r: seq<string>)
    ensures |r| >= |DefaultPackages| && r[..|DefaultPackages|] == DefaultPackages
    ensures extra.Some? ==> r[|DefaultPackages|..] == extra.value
    ensures extra.None? ==> r == DefaultPackages
  {
    DefaultPackages + (if extra.Some? then extra.value else [])
  }

  function Logged(w: World, call: Logger.LogCall): World {
    w.(logs := w.logs + [call])
  }

  /** `checkDir(dirName, skipCheck)`: whether the directory counts as taken. */
  function DirTaken(fs: FileSystem<Content>, dir: Path, skipCheck: bool): (r: bool)
    ensures r <==> !skipCheck && Exists(fs, dir)
  {
    if skipCheck then false else Exists(fs, dir)
  }

  /** `fs.ensureDir` on each folder below `base`, in order. */
  function EnsureDirs(fs: FileSystem<Content>, base: Path, folders: seq<Path>): (r: FileSystem<Content>)
    ensures r.files == fs.files
    ensures forall q :: q in r.dirs <==> q in fs.dirs || exists k :: 0 <= k < |folders| && q <= base + folders[k]
  {
    if folders == [] then fs
    else
      var init := folders[..|folders| - 1];
      var last := base + folders[|folders| - 1];
      var r := EnsureDir(EnsureDirs(fs, base, init), last);
      assert forall k :: 0 <= k < |init| ==> init[k] == folders[k];
      r
  }

  /** `createDirsJs(rootDir)`: change into the root, then create the folders
      relative to it. */
  function AfterCreateDirs(w: World, rootDir: Path): World {
    w.(cwd := rootDir, fs := EnsureDirs(w.fs, rootDir, Folders))
  }

  /** `createFilesJs()`: touch the three source files relative to the
      working directory. */
  function AfterCreateFiles(w: World): World {
    var f1 := EnsureFile(w.fs, w.cwd + AppFile, Text(""));
    var f2 := EnsureFile(f1, w.cwd + ControllerFile, Text(""));
    var f3 := EnsureFile(f2, w.cwd + RouteFile, Text(""));
    w.(fs := f3)
  }

  /** `writeToFilesJs(rootDir, port)`: write the three templates below the root. */
  function AfterWriteFiles(w: World, rootDir: Path, port: Option<string>): World {
    var f1 := OutputFile(w.fs, rootDir + AppFile, AppSource(port));
    var f2 := OutputFile(f1, rootDir + RouteFile, RouteSource);
    var f3 := OutputFile(f2, rootDir + ControllerFile, ControllerSource);
    w.(fs := f3)
  }

  /** The value `runCommand` rejects with when the subprocess exits non-zero. */
  function CommandFailure(program: string, code: int): string {
    program + " failed with exit code " + IntToString(code)
  }

  /** `runCommand(program, args)` that ends with `exit`. */
  function AfterCommand(w: World, program: string, args: seq<string>, exit: int): (r: Step)
    ensures r.world == w.(commands := w.commands + [Invocation(program, args, w.cwd)])
    ensures r.error.None? <==> exit == 0
    ensures r.error.Some? ==> r.error.value == ProcessManager.NonError(CommandFailure(program, exit))
  {
    var w1 := w.(commands := w.commands + [Invocation(program, args, w.cwd)]);
    if exit == 0 then Step(w1, None)
    else Step(w1, Some(ProcessManager.NonError(CommandFailure(program, exit))))
  }

  /** `initPackageManager(packageManager)`: `<pm> init -y` in the working
      directory, which may leave a manifest there. */
  function AfterInit(w: World, pm: Option<string>, env: Env): Step {
    var s := AfterCommand(w, PackageManager(pm), ["init", "-y"], env.initExit);
    if env.initWrites.Some? then
      Step(s.world.(fs := OutputFile(s.world.fs, w.cwd + ManifestFile, Text(env.initWrites.value))), s.error)
    else s
  }

  /** Replace the manifest with the template record when one exists. */
  function AfterPatch(w: World, rootDir: Path, projectName: string): World {
    if Exists(w.fs, rootDir + ManifestFile) then
      w.(fs := OutputFile(w.fs, rootDir + ManifestFile, ManifestRecord(projectName)))
    else w
  }

  /** `installPackages(packageManager, extraPackages)`. */
  function AfterInstallPackages(w: World, pm: Option<string>, extra: Option<seq<string>>, exit: int): Step {
    var packages := Packages(extra);
    var w1 := Logged(w, Logger.Info("Installing " + NatToString(|packages|) + " packages..."));
    AfterCommand(w1, PackageManager(pm), ["install"] + packages, exit)
  }

  /** The dependency stage: skipped, reported as offline, or installing. */
  function AfterDependencies(w: World, req: Request, env: Env): Step {
    if req.skipInstall then Step(w, None)
    else
      var w1 := Logged(w, Logger.Progress("Installing dependencies", 5, 5));
      if !env.online then
        Step(Logged(Logged(w1, Logger.Warn("No internet connection detected")),
                    Logger.Info("Install dependencies manually when connected")), None)
      else AfterInstallPackages(w1, req.packageManager, req.install, env.installExit)
  }

  /** `gracefulShutdown(message, code)`: its log lines, then the exit. */
  function AfterShutdown(w: World, message: ProcessManager.MessageArg, code: Option<int>): World {
    var e := ProcessManager.GracefulShutdown(message, code);
    w.(logs := w.logs + e.log, outcome := Exited(e.code))
  }

  /** The completion banner and next steps, then a clean exit. */
  function AfterCompletion(w: World, req: Request): World {
    var name := req.projectName;
    var w1 := Logged(Logged(Logged(w,
      Logger.Success("Project " + name + " created successfully! \U{1F389}")),
      Logger.Header("Next Steps")),
      Logger.Normal("  cd " + name));
    var w2 := if req.skipInstall then Logged(w1, Logger.Normal("  npm install")) else w1;
    var w3 := Logged(Logged(w2, Logger.Normal("  npm run dev")),
      Logger.Normal("  Open http://localhost:" + Templates.PortOrDefault(req.port)));
    AfterShutdown(w3, ProcessManager.Null, Some(0))
  }

  /** The catch block: a failure line, then the fatal-error report. */
  function AfterCatch(w: World, error: ProcessManager.Thrown): World {
    var e := ProcessManager.HandleFatalError(error, "createProject");
    w.(logs := w.logs + [Logger.Error("Project creation failed")] + e.log, outcome := Exited(e.code))
  }

  /** The check that refuses an existing directory, and the clearing and
      creation of the root. */
  function AfterPrepare(w: World, req: Request): (r: World) {
    var root := ProjectPath(w.cwd, req.projectName);
    var w1 := if req.force then Logged(w, Logger.Info("Removing existing directory...")).(fs := Remove(w.fs, root)) else w;
    Logged(w1, Logger.Info("Creating project directory...")).(fs := EnsureDir(w1.fs, root))
  }

  /** Everything from the project directory to the manifest. */
  function AfterBuild(w: World, req: Request, env: Env): Step {
    var root := ProjectPath(w.cwd, req.projectName);
    var w1 := AfterPrepare(w, req);
    var w2 := AfterCreateDirs(Logged(w1, Logger.Progress("Creating project structure", 1, 5)), root);
    var w3 := AfterCreateFiles(Logged(w2, Logger.Progress("Creating project files", 2, 5)));
    var w4 := AfterWriteFiles(Logged(w3, Logger.Progress("Writing template files", 3, 5)), root, req.port);
    var s5 := AfterInit(Logged(w4, Logger.Progress("Initializing package manager", 4, 5)), req.packageManager, env);
    if s5.error.Some? then s5 else Step(AfterPatch(s5.world, root, req.projectName), None)
  }

  function Announced(w: World, name: string): World {
    Logged(Logged(w, Logger.Header("Project Creation")), Logger.Info("Creating project: " + name))
  }

  /** The dependency stage and, when it does not throw, the completion. */
  function AfterFinish(w: World, req: Request, env: Env): Step {
    var d := AfterDependencies(w, req, env);
    if d.error.Some? then d else Step(AfterCompletion(d.world, req), None)
  }

  /** The existing directory is reported and the process exits with 1. */
  function AfterRefusal(w: World, name: string): World {
    var w1 := Logged(Logged(w, Logger.Warn("Directory " + name + " already exists")),
                     Logger.Info("Use --force to override existing directory"));
    AfterShutdown(w1, ProcessManager.Null, Some(1))
  }

  /** Everything the try block does past the directory check. */
  function Proceeded(w: World, req: Request, env: Env): Step {
    var s := AfterBuild(w, req, env);
    if s.error.Some? then s else AfterFinish(s.world, req, env)
  }

  /** The try block of `createProject`. */
  function Attempt(w: World, req: Request, env: Env): Step {
    var w1 := Announced(w, req.projectName);
    var root := ProjectPath(w1.cwd, req.projectName);
    if DirTaken(w1.fs, root, req.force) && !req.force then
      Step(AfterRefusal(w1, req.projectName), None)
    else Proceeded(w1, req, env)
  }

  /** `createProject(projectName, options)` from start to exit. */
  function CreateProjectRun(w: World, req: Request, env: Env): World {
    var s := Attempt(w, req, env);
    if s.error.Some? then AfterCatch(s.world, s.error.value) else s.world
  }

  /** The process running the scaffolder: its filesystem view, working
      directory, subprocesses, logger calls and exit status. */
  class Scaffolder {
    var fs: FileSystem<Content>
    var cwd: Path
    var commands: seq<Invocation>
    var logs: seq<Logger.LogCall>
    var outcome: Outcome

    function State(): World
      reads this
    {
      World(fs, cwd, commands, logs, outcome)
    }

    constructor (fs0: FileSystem<Content>, cwd0: Path)
      ensures State() == World(fs0, cwd0, [], [], Running)
    {
      fs, cwd, commands, logs, outcome := fs0, cwd0, [], [], Running;
    }

    method Log(call: Logger.LogCall)
      modifies this
      ensures State() == Logged(old(State()), call)
    {
      logs := logs + [call];
    }

    /** `checkDir(dirName, skipCheck)`. */
    method CheckDir(dirName: Path, skipCheck: bool) returns (taken: bool)
      ensures taken == DirTaken(fs, dirName, skipCheck)
    {
      if skipCheck {
        return false;
      }
      taken := dirName in fs.dirs || dirName in fs.files;
    }

    method Shutdown(message: ProcessManager.MessageArg, code: Option<int>)
      modifies this
      ensures State() == AfterShutdown(old(State()), message, code)
    {
      var e := ProcessManager.GracefulShutdown(message, code);
      logs := logs + e.log;
      outcome := Exited(e.code);
    }

    /** `createDirsJs(rootDir)`. */
    method CreateDirs(rootDir: Path)
      modifies this
      ensures State() == AfterCreateDirs(old(State()), rootDir)
    {
      cwd := rootDir;
      ghost var fs0 := fs;
      for i := 0 to |Folders|
        invariant fs == EnsureDirs(fs0, rootDir, Folders[..i])
        invariant cwd == rootDir && commands == old(commands) && logs == old(logs) && outcome == old(outcome)
      {
        assert Folders[..i + 1][..i] == Folders[..i];
        fs := EnsureDir(fs, cwd + Folders[i]);
      }
      assert Folders[..|Folders|] == Folders;
    }

    /** `createFilesJs()`. */
    method CreateFiles()
      modifies this
      ensures State() == AfterCreateFiles(old(State()))
    {
      fs := EnsureFile(fs, cwd + AppFile, Text(""));
      fs := EnsureFile(fs, cwd + ControllerFile, Text(""));
      fs := EnsureFile(fs, cwd + RouteFile, Text(""));
    }

    /** `writeToFilesJs(rootDir, port)`. */
    method WriteToFiles(rootDir: Path, port: Option<string>)
      modifies this
      ensures State() == AfterWriteFiles(old(State()), rootDir, port)
    {
      fs := OutputFile(fs, rootDir + AppFile, AppSource(port));
      fs := OutputFile(fs, rootDir + RouteFile, RouteSource);
      fs := OutputFile(fs, rootDir + ControllerFile, ControllerSource);
    }

    /** `runCommand(program, args)`, the subprocess ending with `exit`. */
    method RunCommand(program: string, args: seq<string>, exit: int) returns (error: Option<ProcessManager.Thrown>)
      modifies this
      ensures Step(State(), error) == AfterCommand(old(State()), program, args, exit)
    {
      commands := commands + [Invocation(program, args, cwd)];
      if exit != 0 {
        return Some(ProcessManager.NonError(CommandFailure(program, exit)));
      }
      return None;
    }

    /** `initPackageManager(packageManager)`. */
    method InitPackageManager(pm: Option<string>, env: Env) returns (error: Option<ProcessManager.Thrown>)
      modifies this
      ensures Step(State(), error) == AfterInit(old(State()), pm, env)
    {
      var dir := cwd;
      error := RunCommand(PackageManager(pm), ["init", "-y"], env.initExit);
      if env.initWrites.Some? {
        fs := OutputFile(fs, dir + ManifestFile, Text(env.initWrites.value));
      }
    }

    /** `installPackages(packageManager, extraPackages)`. */
    method InstallPackages(pm: Option<string>, extra: Option<seq<string>>, exit: int)
      returns (error: Option<ProcessManager.Thrown>)
      modifies this
      ensures Step(State(), error) == AfterInstallPackages(old(State()), pm, extra, exit)
    {
      var packages := Packages(extra);
      Log(Logger.Info("Installing " + NatToString(|packages|) + " packages..."));
      error := RunCommand(PackageManager(pm), ["install"] + packages, exit);
    }

    /** Clear the root when forced, then create it. */
    method Prepare(req: Request)
      modifies this
      ensures State() == AfterPrepare(old(State()), req)
    {
      var projectPath := ProjectPath(cwd, req.projectName);
      if req.force {
        Log(Logger.Info("Removing existing directory..."));
        fs := Remove(fs, projectPath);
      }
      Log(Logger.Info("Creating project directory..."));
      fs := EnsureDir(fs, projectPath);
    }

    method PatchManifest(rootDir: Path, projectName: string)
      modifies this
      ensures State() == AfterPatch(old(State()), rootDir, projectName)
    {
      if rootDir + ManifestFile in fs.dirs || rootDir + ManifestFile in fs.files {
        fs := OutputFile(fs, rootDir + ManifestFile, ManifestRecord(projectName));
      }
    }

    /** From the project directory to the manifest. */
    method Build(req: Request, env: Env) returns (error: Option<ProcessManager.Thrown>)
      modifies this
      ensures Step(State(), error) == AfterBuild(old(State()), req, env)
    {
      var projectPath := ProjectPath(cwd, req.projectName);
      Prepare(req);
      Log(Logger.Progress("Creating project structure", 1, 5));
      CreateDirs(projectPath);
      Log(Logger.Progress("Creating project files", 2, 5));
      CreateFiles();
      Log(Logger.Progress("Writing template files", 3, 5));
      WriteToFiles(projectPath, req.port);
      Log(Logger.Progress("Initializing package manager", 4, 5));
      error := InitPackageManager(req.packageManager, env);
      if error.Some? {
        return;
      }
      PatchManifest(projectPath, req.projectName);
    }

    method Dependencies(req: Request, env: Env) returns (error: Option<ProcessManager.Thrown>)
      modifies this
      ensures Step(State(), error) == AfterDependencies(old(State()), req, env)
    {
      error := None;
      if !req.skipInstall {
        Log(Logger.Progress("Installing dependencies", 5, 5));
        if !env.online {
          Log(Logger.Warn("No internet connection detected"));
          Log(Logger.Info("Install dependencies manually when connected"));
        } else {
          error := InstallPackages(req.packageManager, req.install, env.installExit);
        }
      }
    }

    method Completion(req: Request)
      modifies this
      ensures State() == AfterCompletion(old(State()), req)
    {
      Log(Logger.Success("Project " + req.projectName + " created successfully! \U{1F389}"));
      Log(Logger.Header("Next Steps"));
      Log(Logger.Normal("  cd " + req.projectName));
      if req.skipInstall {
        Log(Logger.Normal("  npm install"));
      }
      Log(Logger.Normal("  npm run dev"));
      Log(Logger.Normal("  Open http://localhost:" + Templates.PortOrDefault(req.port)));
      Shutdown(ProcessManager.Null, Some(0));
    }

    method Refuse(name: string)
      modifies this
      ensures State() == AfterRefusal(old(State()), name)
    {
      Log(Logger.Warn("Directory " + name + " already exists"));
      Log(Logger.Info("Use --force to override existing directory"));
      Shutdown(ProcessManager.Null, Some(1));
    }

    /** The try block; `error` is what it threw. */
    method Finish(req: Request, env: Env) returns (error: Option<ProcessManager.Thrown>)
      modifies this
      ensures Step(State(), error) == AfterFinish(old(State()), req, env)
    {
      error := Dependencies(req, env);
      if error.Some? {
        return;
      }
      Completion(req);
    }

    method TryBlock(req: Request, env: Env) returns (error: Option<ProcessManager.Thrown>)
      modifies this
      ensures Step(State(), error) == Attempt(old(State()), req, env)
    {
      Log(Logger.Header("Project Creation"));
      Log(Logger.Info("Creating project: " + req.projectName));
      var projectPath := ProjectPath(cwd, req.projectName);
      var override := req.force;
      var pathExists := CheckDir(projectPath, override);
      if pathExists && !override {
        Refuse(req.projectName);
        return None;
      }
      error := Proceed(req, env);
    }

    method Proceed(req: Request, env: Env) returns (error: Option<ProcessManager.Thrown>)
      modifies this
      ensures Step(State(), error) == Proceeded(old(State()), req, env)
    {
      error := Build(req, env);
      if error.Some? {
        return;
      }
      error := Finish(req, env);
    }

    /** `createProject(projectName, options)`. */
    method CreateProject(req: Request, env: Env)
      modifies this
      ensures State() == CreateProjectRun(old(State()), req, env)
    {
      var error := TryBlock(req, env);
      if error.Some? {
        Catch(error.value);
      }
    }

    /** The catch block of `createProject`. */
    method Catch(error: ProcessManager.Thrown)
      modifies this
      ensures State() == AfterCatch(old(State()), error)
    {
      Log(Logger.Error("Project creation failed"));
      var e := ProcessManager.HandleFatalError(error, "createProject");
      logs := logs + e.log;
      outcome := Exited(e.code);
    }
  }

  /** The project directory of a request. */
  function RootOf(w: World, req: Request): Path {
    ProjectPath(w.cwd, req.projectName)
  }

  /** The run stops at the directory check: no force, and the path exists. */
  predicate Refused(w: World, req: Request) {
    !req.force && Exists(w.fs, RootOf(w, req))
  }

  /** The filesystem stages of a run that is not refused. */
  function Cleared(fs: FileSystem<Content>, root: Path, force: bool): FileSystem<Content> {
    if force then Remove(fs, root) else fs
  }

  function Skeleton(fs: FileSystem<Content>, root: Path, force: bool): FileSystem<Content> {
    EnsureDirs(EnsureDir(Cleared(fs, root, force), root), root, Folders)
  }

  function Sources(fs: FileSystem<Content>, root: Path, port: Option<string>): FileSystem<Content> {
    var f1 := EnsureFile(EnsureFile(EnsureFile(fs, root + AppFile, Text("")), root + ControllerFile, Text("")), root + RouteFile, Text(""));
    OutputFile(OutputFile(OutputFile(f1, root + AppFile, AppSource(port)), root + RouteFile, RouteSource), root + ControllerFile, ControllerSource)
  }

  function Initialised(fs: FileSystem<Content>, root: Path, env: Env, name: string): FileSystem<Content> {
    var f := if env.initWrites.Some? then OutputFile(fs, root + ManifestFile, Text(env.initWrites.value)) else fs;
    if env.initExit == 0 && Exists(f, root + ManifestFile) then OutputFile(f, root + ManifestFile, ManifestRecord(name)) else f
  }

  /** The dependency stage and the completion touch neither the filesystem
      nor the working directory. */
  lemma FinishKeepsFiles(w: World, req: Request, env: Env)
    ensures AfterFinish(w, req, env).world.fs == w.fs
    ensures AfterFinish(w, req, env).world.cwd == w.cwd
  {
  }

  lemma SkeletonStage(w: World, req: Request)
    ensures var root := ProjectPath(w.cwd, req.projectName);
      var w2 := AfterCreateDirs(Logged(AfterPrepare(w, req), Logger.Progress("Creating project structure", 1, 5)), root);
      w2.fs == Skeleton(w.fs, root, req.force) && w2.cwd == root
  {
  }

  lemma SourcesStage(w: World, root: Path, port: Option<string>)
    requires w.cwd == root
    ensures var w4 := AfterWriteFiles(Logged(AfterCreateFiles(Logged(w, Logger.Progress("Creating project files", 2, 5))),
                                              Logger.Progress("Writing template files", 3, 5)), root, port);
      w4.fs == Sources(w.fs, root, port) && w4.cwd == root
  {
  }

  lemma InitStage(w: World, root: Path, req: Request, env: Env)
    requires w.cwd == root
    ensures var s5 := AfterInit(Logged(w, Logger.Progress("Initializing package manager", 4, 5)), req.packageManager, env);
      var s := if s5.error.Some? then s5 else Step(AfterPatch(s5.world, root, req.projectName), None);
      && s.world.fs == Initialised(w.fs, root, env, req.projectName)
      && s.world.cwd == root
      && (s.error.None? <==> env.initExit == 0)
  {
  }

  lemma BuildStages(w: World, req: Request, env: Env)
    ensures var s := AfterBuild(w, req, env);
      var root := ProjectPath(w.cwd, req.projectName);
      && s.world.cwd == root
      && s.world.fs == Initialised(Sources(Skeleton(w.fs, root, req.force), root, req.port), root, env, req.projectName)
      && (s.error.None? <==> env.initExit == 0)
  {
    var root := ProjectPath(w.cwd, req.projectName);
    SkeletonStage(w, req);
    var w2 := AfterCreateDirs(Logged(AfterPrepare(w, req), Logger.Progress("Creating project structure", 1, 5)), root);
    SourcesStage(w2, root, req.port);
    var w4 := AfterWriteFiles(Logged(AfterCreateFiles(Logged(w2, Logger.Progress("Creating project files", 2, 5))),
                                      Logger.Progress("Writing template files", 3, 5)), root, req.port);
    InitStage(w4, root, req, env);
  }

  /** A run that passes the directory check ends in the project directory,
      and its filesystem is the composition of the stages above. */
  lemma RunStages(w: World, req: Request, env: Env)
    requires !Refused(w, req)
    ensures var r := CreateProjectRun(w, req, env);
      var root := RootOf(w, req);
      && r.cwd == root
      && r.fs == Initialised(Sources(Skeleton(w.fs, root, req.force), root, req.port), root, env, req.projectName)
  {
    var w1 := Announced(w, req.projectName);
    assert w1.fs == w.fs && w1.cwd == w.cwd;
    BuildStages(w1, req, env);
    AttemptKeepsBuild(w, req, env);
    RunKeepsAttempt(w, req, env);
  }

  /** The catch block touches neither the filesystem nor the working directory. */
  lemma RunKeepsAttempt(w: World, req: Request, env: Env)
    ensures CreateProjectRun(w, req, env).fs == Attempt(w, req, env).world.fs
    ensures CreateProjectRun(w, req, env).cwd == Attempt(w, req, env).world.cwd
  {
  }

  /** Past the directory check, the filesystem and working directory the try
      block leaves are those of the build. */
  lemma AttemptKeepsBuild(w: World, req: Request, env: Env)
    requires !Refused(w, req)
    ensures var s := AfterBuild(Announced(w, req.projectName), req, env);
      Attempt(w, req, env).world.fs == s.world.fs && Attempt(w, req, env).world.cwd == s.world.cwd
  {
    var s := AfterBuild(Announced(w, req.projectName), req, env);
    if s.error.None? {
      FinishKeepsFiles(s.world, req, env);
    }
  }

  /** `q` is one of the scaffold's folders below `root`, or a directory above one. */
  predicate InScaffold(root: Path, q: Path) {
    exists k :: 0 <= k < |Folders| && q <= root + Folders[k]
  }

  /** `a` and `b` hold the same directories and files, with the same contents,
      everywhere outside `root`. */
  ghost predicate AgreeOutside(a: FileSystem<Content>, b: FileSystem<Content>, root: Path) {
    && (forall q :: !(root <= q) ==> (q in a.dirs <==> q in b.dirs))
    && (forall q :: !(root <= q) ==> (q in a.files <==> q in b.files))
    && (forall q :: !(root <= q) && q in a.files && q in b.files ==> a.files[q] == b.files[q])
  }

  /** The files a run leaves in the project directory. */
  function ProjectFiles(root: Path, env: Env): set<Path> {
    {root + AppFile, root + RouteFile, root + ControllerFile}
    + (if env.initWrites.Some? then {root + ManifestFile} else {})
  }

  lemma FolderFacts()
    ensures forall k :: 0 <= k < |Folders| ==> 1 <= |Folders[k]| <= 2 && Folders[k][0] == "src"
    ensures Folders[1] == ["src", "controllers"] && Folders[3] == ["src", "routes"]
  {
  }

  /** A path whose first segment below the root is not `src`, or that lies
      more than two levels below it, is not a scaffold folder. */
  lemma NotInScaffold(root: Path, rel: Path)
    requires rel != [] && (rel[0] != "src" || |rel| > 2)
    ensures !InScaffold(root, root + rel)
  {
    FolderFacts();
    forall k | 0 <= k < |Folders|
      ensures !(root + rel <= root + Folders[k])
    {
      if |rel| <= |Folders[k]| {
        assert (root + Folders[k])[|root|] == Folders[k][0];
        assert (root + rel)[|root|] == rel[0];
      }
    }
  }

  lemma Below(root: Path, rel: Path)
    ensures root <= root + rel
  {
  }

  lemma {:induction false} PrefixOfAppend(root: Path, rel: Path, n: nat)
    requires n <= |rel|
    ensures (root + rel)[..|root| + n] == root + rel[..n]
    ensures root + rel[..n] <= root + rel
  {
    assert (root + rel)[..|root| + n] == root + rel[..n];
  }

  /** A prefix of a path that is not below the path is a prefix of its parent. */
  lemma StrictPrefixOfRoot(root: Path, q: Path)
    requires !(root <= q) && (q <= root || exists k :: 0 <= k < |Folders| && q <= root + Folders[k])
    ensures q <= Parent(root)
  {
  }

  lemma SkeletonShape(fs: FileSystem<Content>, root: Path, force: bool)
    requires WellFormed(fs) && Parent(root) in fs.dirs && (force || !Exists(fs, root))
    ensures Shaped(Skeleton(fs, root, force), fs, root)
  {
    var f0 := Cleared(fs, root, force);
    forall q | root <= q
      ensures q !in f0.dirs && q !in f0.files
    {
      if !force {
        NothingBelowMissing(fs, root, q);
      }
    }
    DirPrefixesAreDirs(fs, Parent(root));
    var s := Skeleton(fs, root, force);
    assert InScaffold(root, root) by {
      assert root <= root + Folders[0];
    }
    forall q | q <= root
      ensures q in s.dirs
    {
    }
    forall q | !(root <= q)
      ensures q in s.dirs <==> q in fs.dirs
    {
      if q in s.dirs && q !in fs.dirs {
        StrictPrefixOfRoot(root, q);
        assert false;
      }
    }
    forall q | root <= q
      ensures q in s.dirs <==> InScaffold(root, q)
    {
      if q in s.dirs && q !in f0.dirs && q <= root {
        assert q == root;
      }
    }
  }

  /** The paths below the root that the run writes to are distinct. */
  lemma TargetsDistinct(root: Path)
    ensures root + AppFile != root + RouteFile && root + AppFile != root + ControllerFile
    ensures root + RouteFile != root + ControllerFile
    ensures root + ManifestFile !in {root + AppFile, root + RouteFile, root + ControllerFile}
  {
    assert (root + RouteFile)[|root| + 1] != (root + ControllerFile)[|root| + 1];
    assert (root + ManifestFile)[|root|] != (root + AppFile)[|root|];
  }

  lemma SourcesShape(s: FileSystem<Content>, root: Path, port: Option<string>)
    requires forall q :: root <= q ==> (q in s.dirs <==> InScaffold(root, q))
    requires forall q :: root <= q ==> q !in s.files
    requires forall q :: q <= root ==> q in s.dirs
    ensures Sources(s, root, port) ==
      FileSystem(s.dirs, s.files[root + AppFile := AppSource(port)][root + RouteFile := RouteSource][root + ControllerFile := ControllerSource])
  {
    TargetsDistinct(root);
    FolderFacts();
    var app, route, controller := root + AppFile, root + RouteFile, root + ControllerFile;
    PrefixOfAppend(root, RouteFile, 2);
    PrefixOfAppend(root, ControllerFile, 2);
    Below(root, AppFile);
    Below(root, RouteFile);
    Below(root, ControllerFile);
    assert Parent(route) == root + Folders[3];
    assert Parent(controller) == root + Folders[1];
    assert Parent(app) == root;
    forall q, k | 0 <= k < |Folders| && q <= root + Folders[k]
      ensures q in s.dirs
    {
      if !(root <= q) {
        assert q <= root;
      }
    }
    var f1 := EnsureFile(s, app, Text(""));
    EnsureFileInDir(s, app, Text(""));
    var f2 := EnsureFile(f1, controller, Text(""));
    EnsureFileInDir(f1, controller, Text(""));
    var f3 := EnsureFile(f2, route, Text(""));
    EnsureFileInDir(f2, route, Text(""));
    assert f3.dirs == s.dirs;
    OutputFileInDir(f3, app, AppSource(port));
    var g1 := OutputFile(f3, app, AppSource(port));
    OutputFileInDir(g1, route, RouteSource);
    var g2 := OutputFile(g1, route, RouteSource);
    OutputFileInDir(g2, controller, ControllerSource);
    assert g2.files[controller := ControllerSource]
        == s.files[app := AppSource(port)][route := RouteSource][controller := ControllerSource];
  }

  lemma InitialisedShape(t: FileSystem<Content>, root: Path, env: Env, name: string)
    requires root + ManifestFile !in t.files && root + ManifestFile !in t.dirs
    requires forall q :: q <= root ==> q in t.dirs
    ensures Initialised(t, root, env, name) == FileSystem(t.dirs,
      if env.initWrites.Some?
      then t.files[root + ManifestFile := if env.initExit == 0 then ManifestRecord(name) else Text(env.initWrites.value)]
      else t.files)
  {
    Below(root, ManifestFile);
    assert Parent(root + ManifestFile) == root;
    if env.initWrites.Some? {
      var f := OutputFile(t, root + ManifestFile, Text(env.initWrites.value));
      OutputFileInDir(t, root + ManifestFile, Text(env.initWrites.value));
      if env.initExit == 0 {
        OutputFileInDir(f, root + ManifestFile, ManifestRecord(name));
      }
    }
  }

  /** The files a run writes, over those of the skeleton. */
  function Written(files: map<Path, Content>, root: Path, req: Request, env: Env): map<Path, Content> {
    var sources := files[root + AppFile := AppSource(req.port)][root + RouteFile := RouteSource][root + ControllerFile := ControllerSource];
    if env.initWrites.Some?
    then sources[root + ManifestFile := if env.initExit == 0 then ManifestRecord(req.projectName) else Text(env.initWrites.value)]
    else sources
  }

  lemma StagesFilesystem(fs: FileSystem<Content>, root: Path, req: Request, env: Env)
    requires WellFormed(fs) && Parent(root) in fs.dirs && (req.force || !Exists(fs, root))
    ensures var s := Skeleton(fs, root, req.force);
      Initialised(Sources(s, root, req.port), root, env, req.projectName) == FileSystem(s.dirs, Written(s.files, root, req, env))
  {
    SkeletonShape(fs, root, req.force);
    FileStages(Skeleton(fs, root, req.force), fs, root, req, env);
  }

  /** On a skeleton, the source files and the manifest are written in place. */
  lemma FileStages(s: FileSystem<Content>, fs: FileSystem<Content>, root: Path, req: Request, env: Env)
    requires Shaped(s, fs, root)
    ensures Initialised(Sources(s, root, req.port), root, env, req.projectName) == FileSystem(s.dirs, Written(s.files, root, req, env))
  {
    SourcesShape(s, root, req.port);
    var t := Sources(s, root, req.port);
    TargetsDistinct(root);
    NotInScaffold(root, ManifestFile);
    Below(root, ManifestFile);
    assert root + ManifestFile !in s.files;
    InitialisedShape(t, root, env, req.projectName);
  }

  lemma RunFilesystem(w: World, req: Request, env: Env)
    requires WellFormed(w.fs) && Parent(RootOf(w, req)) in w.fs.dirs && !Refused(w, req)
    ensures CreateProjectRun(w, req, env).fs == Built(w.fs, RootOf(w, req), req, env)
  {
    RunStages(w, req, env);
    StagesFilesystem(w.fs, RootOf(w, req), req, env);
  }

  /** The filesystem a run builds from `fs` when it passes the directory check. */
  function Built(fs: FileSystem<Content>, root: Path, req: Request, env: Env): FileSystem<Content> {
    var s := Skeleton(fs, root, req.force);
    FileSystem(s.dirs, Written(s.files, root, req, env))
  }

  lemma WrittenKeys(files: map<Path, Content>, root: Path, req: Request, env: Env)
    ensures forall q :: q in Written(files, root, req, env) <==> q in files || q in ProjectFiles(root, env)
    ensures forall q :: q in files && q !in ProjectFiles(root, env) ==> Written(files, root, req, env)[q] == files[q]
  {
  }

  /** What the skeleton stage leaves: nothing changed outside the root,
      exactly the scaffold's folders and no file below it, and the root and
      every directory above it present. */
  ghost predicate Shaped(s: FileSystem<Content>, fs: FileSystem<Content>, root: Path) {
    && AgreeOutside(s, fs, root)
    && (forall q :: root <= q ==> (q in s.dirs <==> InScaffold(root, q)))
    && (forall q :: root <= q ==> q !in s.files)
    && (forall q :: q <= root ==> q in s.dirs)
  }

  lemma WrittenLaid(s: FileSystem<Content>, fs: FileSystem<Content>, root: Path, req: Request, env: Env)
    requires Shaped(s, fs, root)
    ensures Laid(FileSystem(s.dirs, Written(s.files, root, req, env)), fs, root, env)
  {
    WrittenKeys(s.files, root, req, env);
    Below(root, AppFile);
    Below(root, RouteFile);
    Below(root, ControllerFile);
    Below(root, ManifestFile);
  }

  lemma BuiltLaid(fs: FileSystem<Content>, root: Path, req: Request, env: Env)
    requires WellFormed(fs) && Parent(root) in fs.dirs && (req.force || !Exists(fs, root))
    ensures Laid(Built(fs, root, req, env), fs, root, env)
  {
    SkeletonShape(fs, root, req.force);
    WrittenLaid(Skeleton(fs, root, req.force), fs, root, req, env);
  }

  lemma BuiltContents(fs: FileSystem<Content>, root: Path, req: Request, env: Env)
    ensures var files := Built(fs, root, req, env).files;
      && root + AppFile in files && files[root + AppFile] == AppSource(req.port)
      && root + RouteFile in files && files[root + RouteFile] == RouteSource
      && root + ControllerFile in files && files[root + ControllerFile] == ControllerSource
      && (env.initWrites.Some? ==> root + ManifestFile in files)
      && (env.initWrites.Some? && env.initExit == 0 ==> files[root + ManifestFile] == ManifestRecord(req.projectName))
      && (env.initWrites.Some? && env.initExit != 0 ==> files[root + ManifestFile] == Text(env.initWrites.value))
  {
    TargetsDistinct(root);
  }

  /** After a run that passes the directory check, the project directory
      holds exactly the scaffold's folders and the generated files, and
      nothing outside it has changed. */
  lemma ProjectLayout(w: World, req: Request, env: Env)
    requires WellFormed(w.fs) && Parent(RootOf(w, req)) in w.fs.dirs && !Refused(w, req)
    ensures var root := RootOf(w, req);
      var fs := CreateProjectRun(w, req, env).fs;
      && AgreeOutside(fs, w.fs, root)
      && (forall q :: root <= q ==> (q in fs.dirs <==> InScaffold(root, q)))
      && (forall q :: root <= q ==> (q in fs.files <==> q in ProjectFiles(root, env)))
  {
    RunFilesystem(w, req, env);
    BuiltLaid(w.fs, RootOf(w, req), req, env);
  }

  /** The generated files hold the three templates for the requested port;
      the manifest the init subprocess writes is replaced by the template
      record unless that subprocess failed. */
  lemma ProjectContents(w: World, req: Request, env: Env)
    requires WellFormed(w.fs) && Parent(RootOf(w, req)) in w.fs.dirs && !Refused(w, req)
    ensures var root := RootOf(w, req);
      var files := CreateProjectRun(w, req, env).fs.files;
      && root + AppFile in files && files[root + AppFile] == AppSource(req.port)
      && root + RouteFile in files && files[root + RouteFile] == RouteSource
      && root + ControllerFile in files && files[root + ControllerFile] == ControllerSource
      && Rendered(files[root + AppFile]) == Some(Templates.AppFileContent(req.port))
      && Rendered(files[root + RouteFile]) == Some(Templates.RouteFileContent())
      && Rendered(files[root + ControllerFile]) == Some(Templates.ControllerFileContent())
      && (env.initWrites.Some? ==> root + ManifestFile in files)
      && (env.initWrites.Some? && env.initExit == 0 ==> files[root + ManifestFile] == ManifestRecord(req.projectName))
      && (env.initWrites.Some? && env.initExit != 0 ==> files[root + ManifestFile] == Text(env.initWrites.value))
  {
    RunFilesystem(w, req, env);
    BuiltContents(w.fs, RootOf(w, req), req, env);
  }

  /** The layout facts of a built filesystem, as a predicate of any `b`. */
  ghost predicate Laid(b: FileSystem<Content>, fs: FileSystem<Content>, root: Path, env: Env) {
    && AgreeOutside(b, fs, root)
    && (forall q :: root <= q ==> (q in b.dirs <==> InScaffold(root, q)))
    && (forall q :: root <= q ==> (q in b.files <==> q in ProjectFiles(root, env)))
  }

  lemma LaidDirsClosed(b: FileSystem<Content>, fs: FileSystem<Content>, root: Path, env: Env)
    requires WellFormed(fs) && Parent(root) in fs.dirs && Laid(b, fs, root, env)
    ensures [] in b.dirs && root in b.dirs
    ensures forall d :: d in b.dirs ==> Parent(d) in b.dirs
  {
    assert InScaffold(root, root) by {
      assert root <= root + Folders[0];
    }
    forall d | d in b.dirs
      ensures Parent(d) in b.dirs
    {
      if root <= d && d != root {
        var k :| 0 <= k < |Folders| && d <= root + Folders[k];
        assert root <= Parent(d);
        assert Parent(d) <= root + Folders[k];
      } else if d == root && root != [] {
        assert !(root <= Parent(root));
      }
    }
  }

  /** A file the run writes sits in a scaffold directory and is not one. */
  lemma ProjectFilePlaced(root: Path, f: Path, env: Env)
    requires f in ProjectFiles(root, env)
    ensures root <= Parent(f) && InScaffold(root, Parent(f)) && !InScaffold(root, f)
  {
    FolderFacts();
    assert root <= root + Folders[0];
    if f == root + RouteFile {
      PrefixOfAppend(root, RouteFile, 2);
      assert Parent(f) == root + Folders[3];
      NotInScaffold(root, RouteFile);
    } else if f == root + ControllerFile {
      PrefixOfAppend(root, ControllerFile, 2);
      assert Parent(f) == root + Folders[1];
      NotInScaffold(root, ControllerFile);
    } else if f == root + AppFile {
      assert Parent(f) == root;
      NotInScaffold(root, AppFile);
    } else {
      assert f == root + ManifestFile;
      assert Parent(f) == root;
      NotInScaffold(root, ManifestFile);
    }
  }

  lemma LaidFilesPlaced(b: FileSystem<Content>, fs: FileSystem<Content>, root: Path, env: Env)
    requires WellFormed(fs) && Laid(b, fs, root, env)
    ensures forall f :: f in b.files ==> Parent(f) in b.dirs && f !in b.dirs
  {
    forall f | f in b.files
      ensures Parent(f) in b.dirs && f !in b.dirs
    {
      if root <= f {
        ProjectFilePlaced(root, f, env);
      } else {
        assert !(root <= Parent(f));
      }
    }
  }

  lemma BuiltWellFormed(fs: FileSystem<Content>, root: Path, req: Request, env: Env)
    requires WellFormed(fs) && Parent(root) in fs.dirs && (req.force || !Exists(fs, root))
    ensures WellFormed(Built(fs, root, req, env)) && root in Built(fs, root, req, env).dirs
  {
    BuiltLaid(fs, root, req, env);
    var b := Built(fs, root, req, env);
    LaidDirsClosed(b, fs, root, env);
    LaidFilesPlaced(b, fs, root, env);
  }

  /** A refused run changes neither the filesystem nor the working directory
      nor starts a subprocess; it logs the warning and the hint and exits 1. */
  lemma RefusalChangesNothing(w: World, req: Request, env: Env)
    requires Refused(w, req)
    ensures var r := CreateProjectRun(w, req, env);
      && r.fs == w.fs && r.cwd == w.cwd && r.commands == w.commands
      && r.outcome == Exited(1)
      && r.logs == w.logs + [
           Logger.Header("Project Creation"),
           Logger.Info("Creating project: " + req.projectName),
           Logger.Warn("Directory " + req.projectName + " already exists"),
           Logger.Info("Use --force to override existing directory")]
  {
  }

  /** From a well-formed filesystem whose working directory exists, a run
      leaves a well-formed filesystem whose working directory exists. */
  lemma RunKeepsWellFormed(w: World, req: Request, env: Env)
    requires WellFormed(w.fs) && w.cwd in w.fs.dirs && Parent(RootOf(w, req)) in w.fs.dirs
    ensures var r := CreateProjectRun(w, req, env);
      WellFormed(r.fs) && r.cwd in r.fs.dirs
  {
    if Refused(w, req) {
      RefusalChangesNothing(w, req, env);
    } else {
      RunStages(w, req, env);
      RunFilesystem(w, req, env);
      BuiltWellFormed(w.fs, RootOf(w, req), req, env);
    }
  }

  lemma FinishOutcome(w: World, req: Request, env: Env)
    ensures var d := AfterFinish(w, req, env);
      && (d.error.None? <==> req.skipInstall || !env.online || env.installExit == 0)
      && (d.error.None? ==> d.world.outcome == Exited(0))
      && (d.error.Some? ==> d.error.value == ProcessManager.NonError(CommandFailure(PackageManager(req.packageManager), env.installExit)))
      && d.world.commands == w.commands
           + (if !req.skipInstall && env.online
              then [Invocation(PackageManager(req.packageManager), ["install"] + Packages(req.install), w.cwd)]
              else [])
  {
  }

  lemma BuildCommands(w: World, req: Request, env: Env)
    ensures var s := AfterBuild(w, req, env);
      && s.world.commands == w.commands + [Invocation(PackageManager(req.packageManager), ["init", "-y"], ProjectPath(w.cwd, req.projectName))]
      && (s.error.Some? ==> s.error.value == ProcessManager.NonError(CommandFailure(PackageManager(req.packageManager), env.initExit)))
  {
    var root := ProjectPath(w.cwd, req.projectName);
    BuildStages(w, req, env);
    var w2 := AfterCreateDirs(Logged(AfterPrepare(w, req), Logger.Progress("Creating project structure", 1, 5)), root);
    var w4 := AfterWriteFiles(Logged(AfterCreateFiles(Logged(w2, Logger.Progress("Creating project files", 2, 5))),
                                      Logger.Progress("Writing template files", 3, 5)), root, req.port);
    assert w4.commands == w.commands && w4.cwd == root;
  }

  /** Every run ends the process. It exits 0 exactly when the directory
      check passes and no subprocess fails (a skipped or offline install
      starts none), and 1 otherwise. */
  lemma ExitStatus(w: World, req: Request, env: Env)
    ensures var r := CreateProjectRun(w, req, env);
      && r.outcome.Exited?
      && (r.outcome.code == 0 <==>
            !Refused(w, req) && env.initExit == 0 && (req.skipInstall || !env.online || env.installExit == 0))
      && (r.outcome.code != 0 ==> r.outcome.code == 1)
  {
    var a := Attempt(w, req, env);
    if Refused(w, req) {
      assert CreateProjectRun(w, req, env) == a.world == AfterRefusal(Announced(w, req.projectName), req.projectName);
    } else {
      AttemptError(w, req, env);
      if a.error.Some? {
        RunCatches(w, req, env);
      } else {
        RunCompletes(w, req, env);
        var v :| CreateProjectRun(w, req, env) == AfterCompletion(v, req);
        CompletionTail(v, req);
      }
    }
  }

  /** A run that passes the directory check starts `<pm> init -y` in the
      project directory, then `<pm> install` with the default and the extra
      packages there exactly when init succeeded, installing is not skipped
      and the network is reachable. `<pm>` is npm unless another is given. */
  lemma Subprocesses(w: World, req: Request, env: Env)
    requires !Refused(w, req)
    ensures var root := RootOf(w, req);
      var pm := PackageManager(req.packageManager);
      CreateProjectRun(w, req, env).commands == w.commands
        + [Invocation(pm, ["init", "-y"], root)]
        + (if env.initExit == 0 && !req.skipInstall && env.online
           then [Invocation(pm, ["install"] + Packages(req.install), root)]
           else [])
  {
    var w1 := Announced(w, req.projectName);
    BuildStages(w1, req, env);
    BuildCommands(w1, req, env);
    ProceededCommands(w1, req, env);
    RunCommandsOfAttempt(w, req, env);
  }

  lemma RunCommandsOfAttempt(w: World, req: Request, env: Env)
    requires !Refused(w, req)
    ensures CreateProjectRun(w, req, env).commands == Proceeded(Announced(w, req.projectName), req, env).world.commands
  {
  }

  lemma ProceededCommands(w: World, req: Request, env: Env)
    ensures var s := AfterBuild(w, req, env);
      Proceeded(w, req, env).world.commands == s.world.commands
        + (if s.error.None? && !req.skipInstall && env.online
           then [Invocation(PackageManager(req.packageManager), ["install"] + Packages(req.install), s.world.cwd)]
           else [])
  {
    var s := AfterBuild(w, req, env);
    if s.error.None? {
      FinishOutcome(s.world, req, env);
    }
  }

  /** What the try block throws once the directory check passes. */
  lemma AttemptError(w: World, req: Request, env: Env)
    requires !Refused(w, req)
    ensures var pm := PackageManager(req.packageManager);
      Attempt(w, req, env).error ==
        if env.initExit != 0 then Some(ProcessManager.NonError(CommandFailure(pm, env.initExit)))
        else if !req.skipInstall && env.online && env.installExit != 0 then Some(ProcessManager.NonError(CommandFailure(pm, env.installExit)))
        else None
  {
    var w1 := Announced(w, req.projectName);
    BuildStages(w1, req, env);
    BuildCommands(w1, req, env);
    var s := AfterBuild(w1, req, env);
    if s.error.None? {
      FinishOutcome(s.world, req, env);
    }
  }

  /** When the try block succeeds the run ends with the completion. */
  lemma RunCompletes(w: World, req: Request, env: Env)
    requires !Refused(w, req) && Attempt(w, req, env).error.None?
    ensures exists v :: CreateProjectRun(w, req, env) == AfterCompletion(v, req)
  {
    var w1 := Announced(w, req.projectName);
    BuildStages(w1, req, env);
    var s := AfterBuild(w1, req, env);
    var d := AfterDependencies(s.world, req, env);
    assert Attempt(w, req, env).world == AfterCompletion(d.world, req);
  }

  /** When the try block throws the run ends with the catch block. */
  lemma RunCatches(w: World, req: Request, env: Env)
    requires Attempt(w, req, env).error.Some?
    ensures CreateProjectRun(w, req, env) == AfterCatch(Attempt(w, req, env).world, Attempt(w, req, env).error.value)
  {
  }

  /** The logger calls end with the failure line and the fatal-error
      report of `error`. */
  predicate EndsWithFailure(logs: seq<Logger.LogCall>, error: ProcessManager.Thrown) {
    && |logs| >= 2
    && logs[|logs| - 2..] == [Logger.Error("Project creation failed"),
         Logger.Error("Fatal Error (createProject):" + " " + ProcessManager.Show(error))]
  }

  /** The logger calls end with the next steps: the URL with the requested
      port or 3000 last, `npm run dev` before it, and before that the
      `npm install` hint exactly when installing was skipped. */
  predicate EndsWithNextSteps(logs: seq<Logger.LogCall>, req: Request) {
    && |logs| >= 3
    && logs[|logs| - 1] == Logger.Normal("  Open http://localhost:" + Templates.PortOrDefault(req.port))
    && logs[|logs| - 2] == Logger.Normal("  npm run dev")
    && (logs[|logs| - 3] == Logger.Normal("  npm install") <==> req.skipInstall)
  }

  lemma CatchTail(w: World, error: ProcessManager.Thrown)
    ensures EndsWithFailure(AfterCatch(w, error).logs, error)
  {
    var e := ProcessManager.HandleFatalError(error, "createProject");
    assert "Fatal Error (" + "createProject" + "):" == "Fatal Error (createProject):";
    assert e.log == [Logger.Error("Fatal Error (createProject):" + " " + ProcessManager.Show(error))];
    var logs := AfterCatch(w, error).logs;
    assert logs == w.logs + [Logger.Error("Project creation failed")] + e.log;
    assert logs[|logs| - 2..] == [logs[|logs| - 2], logs[|logs| - 1]];
  }

  lemma CompletionTail(w: World, req: Request)
    ensures AfterCompletion(w, req).outcome == Exited(0)
    ensures EndsWithNextSteps(AfterCompletion(w, req).logs, req)
  {
    assert ("  cd " + req.projectName)[2] != "  npm install"[2];
  }

  /** When a subprocess fails, the run ends with the failure line and the
      fatal-error report naming the program and its exit code. */
  lemma FailureReport(w: World, req: Request, env: Env)
    requires !Refused(w, req)
    requires env.initExit != 0 || (!req.skipInstall && env.online && env.installExit != 0)
    ensures var code := if env.initExit != 0 then env.initExit else env.installExit;
      EndsWithFailure(CreateProjectRun(w, req, env).logs, ProcessManager.NonError(CommandFailure(PackageManager(req.packageManager), code)))
  {
    AttemptError(w, req, env);
    RunCatches(w, req, env);
    var s := Attempt(w, req, env);
    CatchTail(s.world, s.error.value);
  }

  lemma SucceededRunCompletes(w: World, req: Request, env: Env)
    requires CreateProjectRun(w, req, env).outcome == Exited(0)
    ensures exists v :: CreateProjectRun(w, req, env) == AfterCompletion(v, req)
  {
    ExitStatus(w, req, env);
    AttemptError(w, req, env);
    RunCompletes(w, req, env);
  }

  /** A successful run ends with the next steps: the `npm install` hint
      appears exactly when installing was skipped, and the URL carries the
      requested port or 3000. */
  lemma NextSteps(w: World, req: Request, env: Env)
    requires CreateProjectRun(w, req, env).outcome == Exited(0)
    ensures EndsWithNextSteps(CreateProjectRun(w, req, env).logs, req)
  {
    SucceededRunCompletes(w, req, env);
    var v :| CreateProjectRun(w, req, env) == AfterCompletion(v, req);
    CompletionTail(v, req);
  }

  lemma ModuleNames()
    ensures "main.route" + ".js" == RouteFile[2]
    ensures "main.controller" + ".js" == ControllerFile[2]
  {
  }

  /** The entry file's route specifier resolves, relative to the entry
      file, to the route file written. */
  lemma RouteImportResolves(root: Path)
    ensures ModuleFile(Parent(root + AppFile), Templates.RouteModule) == root + RouteFile
  {
    assert Parent(root + AppFile) == root;
    var p := Resolve(root, Templates.RouteModule);
    assert p == root + ["src", "routes", "main.route"];
    ModuleNames();
    assert Parent(p) + [p[|p| - 1] + ".js"] == root + ["src", "routes"] + [RouteFile[2]];
  }

  /** The route file's controller specifier resolves, relative to the route
      file, to the controller file written. */
  lemma ControllerImportResolves(root: Path)
    ensures ModuleFile(Parent(root + RouteFile), Templates.ControllerModule) == root + ControllerFile
  {
    assert Parent(root + RouteFile) == root + ["src", "routes"];
    var p := Resolve(root + ["src", "routes"], Templates.ControllerModule);
    assert p == root + ["src", "controllers", "main.controller"];
    ModuleNames();
    assert Parent(p) + [p[|p| - 1] + ".js"] == root + ["src", "controllers"] + [ControllerFile[2]];
  }

  /** In the project a run leaves, the module the entry file imports is the
      route source written, and the module that route source imports is the
      controller source written. */
  lemma ImportsResolve(w: World, req: Request, env: Env)
    requires WellFormed(w.fs) && Parent(RootOf(w, req)) in w.fs.dirs && !Refused(w, req)
    ensures var files := CreateProjectRun(w, req, env).fs.files;
      var route := ModuleFile(Parent(RootOf(w, req) + AppFile), Templates.RouteModule);
      var controller := ModuleFile(Parent(route), Templates.ControllerModule);
      && route in files && files[route] == RouteSource
      && controller in files && files[controller] == ControllerSource
  {
    var root := RootOf(w, req);
    ProjectContents(w, req, env);
    RouteImportResolves(root);
    ControllerImportResolves(root);
  }

  lemma CompletionKeepsLogs(w: World, req: Request)
    ensures w.logs <= AfterCompletion(w, req).logs
  {
  }

  /** Without a network connection the run warns, gives the manual-install
      hint, starts no install and still exits 0. */
  lemma OfflineWarns(w: World, req: Request, env: Env)
    requires !Refused(w, req) && env.initExit == 0 && !req.skipInstall && !env.online
    ensures var r := CreateProjectRun(w, req, env);
      && Logger.Warn("No internet connection detected") in r.logs
      && Logger.Info("Install dependencies manually when connected") in r.logs
      && r.outcome == Exited(0)
      && |r.commands| == |w.commands| + 1
  {
    ExitStatus(w, req, env);
    Subprocesses(w, req, env);
    var w1 := Announced(w, req.projectName);
    BuildStages(w1, req, env);
    var s := AfterBuild(w1, req, env);
    var d := AfterDependencies(s.world, req, env);
    assert Logger.Warn("No internet connection detected") in d.world.logs;
    assert Logger.Info("Install dependencies manually when connected") in d.world.logs;
    assert CreateProjectRun(w, req, env) == AfterCompletion(d.world, req);
    CompletionKeepsLogs(d.world, req);
  }

  /** For a name without `/` (a plain name, `.`, `..` or the empty name) the
      directory that will hold the project exists whenever the working
      directory does. */
  lemma ParentOfRootExists(w: World, req: Request)
    requires WellFormed(w.fs) && w.cwd in w.fs.dirs && '/' !in req.projectName
    ensures Parent(RootOf(w, req)) in w.fs.dirs
  {
    if req.projectName == ".." {
      assert Parent(w.cwd) in w.fs.dirs;
    }
  }

  /** The name `.` is the working directory itself: without force the run is
      refused and exits 1; with force everything below the working directory
      is removed, and afterwards it holds only the generated files. */
  lemma DotNamesWorkingDirectory(w: World, req: Request, env: Env)
    requires WellFormed(w.fs) && w.cwd in w.fs.dirs && req.projectName == "."
    ensures RootOf(w, req) == w.cwd
    ensures !req.force ==> Refused(w, req) && CreateProjectRun(w, req, env).outcome == Exited(1)
    ensures req.force ==> forall q :: w.cwd <= q ==>
      (q in CreateProjectRun(w, req, env).fs.files <==> q in ProjectFiles(w.cwd, env))
  {
    ExitStatus(w, req, env);
    if req.force {
      ParentOfRootExists(w, req);
      ProjectLayout(w, req, env);
    }
  }
}
