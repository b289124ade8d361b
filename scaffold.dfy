/**
 * The `ui-plugin` scaffolding command: the configured plugins directory,
 * and the creation protocol that makes `<Dir>/<snake name>/plugin.go` and
 * `<Dir>/<snake name>/dist/index.html`.
 *
 * The host filesystem is a set of directory paths plus a map from file
 * path to contents. Which steps the operating system refuses, with what
 * error text and, for a write, with what left in the file, is an input
 * (`faults`); so is the user's answer to the confirmation prompt and the
 * name normaliser `snakecase`.
 */
module PluginScaffold {
  import opened Wrappers
  import PluginTemplates
  import UiPlugins

  /** The directory used when the configuration leaves `Dir` empty. */
  const DefaultDir := "ui-plugins"

  datatype Config = Config(dir: string)

  /** The directory `Register` settles on for a configured `Dir`. */
  function EffectiveDir(dir: string): (r: string)
    ensures r != ""
    ensures dir != "" ==> r == dir
    ensures dir == "" ==> r == DefaultDir
  {
    if dir == "" then DefaultDir else dir
  }

  /**
   * An abstract path join: the separator is inserted only between two
   * non-empty parts. No cleaning of `.`, `..` or doubled separators.
   */
  function Join(a: string, b: string): (r: string)
    ensures a == "" ==> r == b
    ensures a != "" && b == "" ==> r == a
    ensures a != "" && b != "" ==> |r| == |a| + 1 + |b| && r[..|a|] == a && r[|a|..] == "/" + b
  {
    if a == "" then b else if b == "" then a else a + "/" + b
  }

  // ---------------------------------------------------------------------
  // The filesystem and the five creation steps
  // ---------------------------------------------------------------------

  datatype FileSystem = FileSystem(dirs: set<string>, files: map<string, string>)

  /** `os.MkdirAll` on one path: the directory exists afterwards. */
  function AddDir(fs: FileSystem, path: string): (r: FileSystem)
    ensures r.dirs == fs.dirs + {path} && r.files == fs.files
  {
    fs.(dirs := fs.dirs + {path})
  }

  /** `os.WriteFile`: the file holds exactly `content` afterwards. */
  function PutFile(fs: FileSystem, path: string, content: string): (r: FileSystem)
    ensures r.dirs == fs.dirs
    ensures r.files.Keys == fs.files.Keys + {path} && r.files[path] == content
    ensures forall p :: p in fs.files && p != path ==> r.files[p] == fs.files[p]
  {
    fs.(files := fs.files[path := content])
  }

  /** The steps of the creation protocol, each with its own error context. */
  datatype Step = CreateUiPluginsDir | CreatePluginDir | CreateDistDir | SavePluginGo | SaveIndexHtml

  /** The order in which the protocol performs its steps. */
  const StepOrder: seq<Step> := [CreateUiPluginsDir, CreatePluginDir, CreateDistDir, SavePluginGo, SaveIndexHtml]

  datatype Action =
    | Mkdir(step: Step, path: string)
    | Write(step: Step, path: string, content: string)

  /**
   * How the host refuses a step: the error text, and for a write what the
   * file holds afterwards when the refused write had already created or
   * truncated it (`os.WriteFile` opens the file with create and truncate
   * before it writes), or `None` when the file was not touched.
   */
  datatype Fault = Fault(cause: string, residue: Option<string>)

  /** A refused write leaves its path holding the residue, if there is one. */
  function Residue(fs: FileSystem, path: string, f: Fault): (r: FileSystem)
    ensures r.dirs == fs.dirs
    ensures f.residue.None? ==> r == fs
    ensures f.residue.Some? ==> path in r.files && r.files[path] == f.residue.value
    ensures forall p :: p in fs.files && p != path ==> p in r.files && r.files[p] == fs.files[p]
    ensures r.files.Keys <= fs.files.Keys + {path}
  {
    if f.residue.Some? then PutFile(fs, path, f.residue.value) else fs
  }

  /** What a refused action leaves behind: nothing for a directory, the residue for a file. */
  function Leftover(fs: FileSystem, a: Action, f: Fault): FileSystem
  {
    match a
    case Mkdir(_, _) => fs
    case Write(_, p, _) => Residue(fs, p, f)
  }

  function Apply(fs: FileSystem, a: Action): FileSystem
  {
    match a
    case Mkdir(_, p) => AddDir(fs, p)
    case Write(_, p, c) => PutFile(fs, p, c)
  }

  /** Performs every action of `plan`, first to last. */
  function ApplyAll(fs: FileSystem, plan: seq<Action>): FileSystem
    decreases |plan|
  {
    if plan == [] then fs else ApplyAll(Apply(fs, plan[0]), plan[1..])
  }

  datatype RunResult = RunResult(fs: FileSystem, failed: Option<Step>)

  /**
   * Performs `plan` in order and stops at the first step the host refuses;
   * what the earlier steps did stays in place, and the refused step leaves
   * its residue.
   */
  function Run(fs: FileSystem, plan: seq<Action>, faults: map<Step, Fault>): (r: RunResult)
    ensures r.failed.Some? ==> r.failed.value in faults
    decreases |plan|
  {
    if plan == [] then RunResult(fs, None)
    else if plan[0].step in faults then RunResult(Leftover(fs, plan[0], faults[plan[0].step]), Some(plan[0].step))
    else Run(Apply(fs, plan[0]), plan[1..], faults)
  }

  /** The position of the first refused step of `plan`, or `|plan|` when none is. */
  function FirstFault(plan: seq<Action>, faults: map<Step, Fault>): (k: nat)
    ensures k <= |plan|
    ensures forall j :: 0 <= j < k ==> plan[j].step !in faults
    ensures k < |plan| ==> plan[k].step in faults
    decreases |plan|
  {
    if plan == [] then 0
    else if plan[0].step in faults then 0
    else 1 + FirstFault(plan[1..], faults)
  }

  /** The paths of the creation protocol, for the configured directory and the normalised name. */
  function PluginDir(dir: string, n: string): string
  {
    Join(dir, n)
  }

  function DistDir(dir: string, n: string): string
  {
    Join(PluginDir(dir, n), "dist")
  }

  function PluginGoPath(dir: string, n: string): string
  {
    Join(PluginDir(dir, n), "plugin.go")
  }

  function IndexHtmlPath(dir: string, n: string): string
  {
    Join(DistDir(dir, n), "index.html")
  }

  /** The five filesystem mutations of the creation protocol, in order, writing the given contents. */
  function Plan(dir: string, n: string, pluginGo: string, indexHtml: string): (plan: seq<Action>)
    ensures |plan| == |StepOrder|
    ensures forall i :: 0 <= i < |plan| ==> plan[i].step == StepOrder[i]
  {
    [ Mkdir(CreateUiPluginsDir, dir),
      Mkdir(CreatePluginDir, PluginDir(dir, n)),
      Mkdir(CreateDistDir, DistDir(dir, n)),
      Write(SavePluginGo, PluginGoPath(dir, n), pluginGo),
      Write(SaveIndexHtml, IndexHtmlPath(dir, n), indexHtml) ]
  }

  // ---------------------------------------------------------------------
  // Errors and the creation outcome
  // ---------------------------------------------------------------------

  datatype CreateError = MissingName | StepFailed(step: Step, cause: string)

  /** The context each step wraps around the host's error. */
  function StepContext(s: Step): string
  {
    match s
    case CreateUiPluginsDir => "failed to create ui-plugins directory"
    case CreatePluginDir => "failed to create plugin directory"
    case CreateDistDir => "failed to create dist directory"
    case SavePluginGo => "failed to save plugin.go file"
    case SaveIndexHtml => "failed to save index.html file"
  }

  /** The text of an error, as `Error()` would give it. */
  function ErrorText(e: CreateError): string
  {
    match e
    case MissingName => "missing plugin name"
    case StepFailed(s, cause) => StepContext(s) + ": " + cause
  }

  /** What the creation handler returns, and the filesystem it leaves. */
  datatype Outcome = Outcome(dir: string, err: Option<CreateError>, fs: FileSystem)

  /**
   * The filesystem part of the protocol: run the plan and report the first
   * refused step with the host's error, or return the plugin directory.
   */
  function Materialize(dir: string, n: string, pluginGo: string, indexHtml: string,
                       faults: map<Step, Fault>, fs: FileSystem): Outcome
  {
    var run := Run(fs, Plan(dir, n, pluginGo, indexHtml), faults);
    if run.failed.Some? then
      Outcome("", Some(StepFailed(run.failed.value, faults[run.failed.value].cause)), run.fs)
    else Outcome(PluginDir(dir, n), None, run.fs)
  }

  /** The error outcome of a refused step; `fs` is what the earlier steps and the refusal left. */
  function Refused(s: Step, faults: map<Step, Fault>, fs: FileSystem): Outcome
    requires s in faults
  {
    Outcome("", Some(StepFailed(s, faults[s].cause)), fs)
  }

  /**
   * The same filesystem part written step by step, as the handler performs
   * it: each step either is refused and ends the protocol, or changes the
   * filesystem and hands over to the next.
   */
  function Stepwise(dir: string, n: string, pluginGo: string, indexHtml: string,
                    faults: map<Step, Fault>, fs: FileSystem): Outcome
  {
    if CreateUiPluginsDir in faults then Refused(CreateUiPluginsDir, faults, fs)
    else
      var fs1 := AddDir(fs, dir);
      if CreatePluginDir in faults then Refused(CreatePluginDir, faults, fs1)
      else
        var fs2 := AddDir(fs1, PluginDir(dir, n));
        if CreateDistDir in faults then Refused(CreateDistDir, faults, fs2)
        else
          var fs3 := AddDir(fs2, DistDir(dir, n));
          if SavePluginGo in faults then Refused(SavePluginGo, faults, Residue(fs3, PluginGoPath(dir, n), faults[SavePluginGo]))
          else
            var fs4 := PutFile(fs3, PluginGoPath(dir, n), pluginGo);
            if SaveIndexHtml in faults then Refused(SaveIndexHtml, faults, Residue(fs4, IndexHtmlPath(dir, n), faults[SaveIndexHtml]))
            else Outcome(PluginDir(dir, n), None, PutFile(fs4, IndexHtmlPath(dir, n), indexHtml))
  }

  /**
   * The creation protocol: reject an empty name, stop when an interactive
   * user declines, then create the plugin with both generated files.
   */
  function Create(dir: string, name: string, interactive: bool, confirmed: bool,
                  snakecase: string -> string, faults: map<Step, Fault>, fs: FileSystem): Outcome
  {
    if name == "" then Outcome("", Some(MissingName), fs)
    else if interactive && !confirmed then Outcome("", None, fs)
    else
      var n := snakecase(name);
      Materialize(dir, n, PluginTemplates.GeneratePluginGo(name, n),
                  PluginTemplates.GenerateIndexHtml(name, snakecase), faults, fs)
  }

  /** How the host refuses `step`, if it does. */
  function FaultAt(faults: map<Step, Fault>, step: Step): Option<Fault>
  {
    if step in faults then Some(faults[step]) else None
  }

  /** The error the host reports for `step`, if it refuses it. */
  function CauseAt(faults: map<Step, Fault>, step: Step): Option<string>
  {
    if step in faults then Some(faults[step].cause) else None
  }

  // ---------------------------------------------------------------------
  // The host filesystem and the plugin object
  // ---------------------------------------------------------------------

  /** The host filesystem, changed in place by `MkdirAll` and `WriteFile`. */
  class Disk {
    var dirs: set<string>
    var files: map<string, string>

    function State(): FileSystem
      reads this
    {
      FileSystem(dirs, files)
    }

    constructor (fs: FileSystem)
      ensures State() == fs
    {
      dirs := fs.dirs;
      files := fs.files;
    }

    /** Creates `path` unless the host reports `fault`. */
    method MkdirAll(path: string, fault: Option<string>) returns (err: Option<string>)
      modifies this
      ensures err == fault
      ensures State() == if fault.Some? then old(State()) else AddDir(old(State()), path)
    {
      err := fault;
      if fault.None? {
        dirs := dirs + {path};
      }
    }

    /**
     * Writes `content` to `path` unless the host reports `fault`; a refused
     * write leaves the path holding the fault's residue, if it has one.
     */
    method WriteFile(path: string, content: string, fault: Option<Fault>) returns (err: Option<string>)
      modifies this
      ensures err == if fault.Some? then Some(fault.value.cause) else None
      ensures State() == if fault.Some? then Residue(old(State()), path, fault.value)
                         else PutFile(old(State()), path, content)
    {
      if fault.None? {
        err := None;
        files := files[path := content];
      } else {
        err := Some(fault.value.cause);
        if fault.value.residue.Some? {
          files := files[path := fault.value.residue.value];
        }
      }
    }
  }

  class Plugin {
    var config: Config

    constructor (config: Config)
      ensures this.config == config
    {
      this.config := config;
    }

    /** Builds the plugin and defaults an empty `Dir` in place. */
    static method Register(config: Config) returns (p: Plugin)
      ensures fresh(p)
      ensures p.config == Config(EffectiveDir(config.dir))
    {
      p := new Plugin(config);
      if p.config.dir == "" {
        p.config := p.config.(dir := DefaultDir);
      }
    }

    /**
     * The creation handler: returns the plugin directory and no error on
     * success, `""` and no error when the user declines, and `""` with the
     * first error otherwise; the disk ends as `Create` says.
     */
    method CreateHandler(name: string, interactive: bool, confirmed: bool,
                         snakecase: string -> string, faults: map<Step, Fault>, disk: Disk)
      returns (pluginDir: string, err: Option<CreateError>)
      modifies disk
      ensures Outcome(pluginDir, err, disk.State())
              == Create(config.dir, name, interactive, confirmed, snakecase, faults, old(disk.State()))
    {
      if name == "" {
        return "", Some(MissingName);
      }
      var normalizedName := snakecase(name);
      pluginDir := Join(config.dir, normalizedName);
      if interactive && !confirmed {
        return "", None;
      }
      var pluginGoContent := PluginTemplates.GeneratePluginGo(name, normalizedName);
      var indexHtmlContent := PluginTemplates.GenerateIndexHtml(name, snakecase);
      pluginDir, err := CreateFiles(normalizedName, pluginGoContent, indexHtmlContent, faults, disk);
    }

    /**
     * The filesystem steps of the handler, in order, each aborting on the
     * host's refusal; the disk ends as `Materialize` says.
     */
    method CreateFiles(normalizedName: string, pluginGoContent: string, indexHtmlContent: string,
                       faults: map<Step, Fault>, disk: Disk)
      returns (pluginDir: string, err: Option<CreateError>)
      modifies disk
      ensures Outcome(pluginDir, err, disk.State())
              == Materialize(config.dir, normalizedName, pluginGoContent, indexHtmlContent, faults, old(disk.State()))
    {
      MaterializeStepwise(config.dir, normalizedName, pluginGoContent, indexHtmlContent, faults, disk.State());
      pluginDir := Join(config.dir, normalizedName);

      var e := disk.MkdirAll(config.dir, CauseAt(faults, CreateUiPluginsDir));
      if e.Some? {
        return "", Some(StepFailed(CreateUiPluginsDir, e.value));
      }

      e := disk.MkdirAll(pluginDir, CauseAt(faults, CreatePluginDir));
      if e.Some? {
        return "", Some(StepFailed(CreatePluginDir, e.value));
      }

      var distDir := Join(pluginDir, "dist");
      e := disk.MkdirAll(distDir, CauseAt(faults, CreateDistDir));
      if e.Some? {
        return "", Some(StepFailed(CreateDistDir, e.value));
      }

      var pluginGoPath := Join(pluginDir, "plugin.go");
      e := disk.WriteFile(pluginGoPath, pluginGoContent, FaultAt(faults, SavePluginGo));
      if e.Some? {
        return "", Some(StepFailed(SavePluginGo, e.value));
      }

      var indexHtmlPath := Join(distDir, "index.html");
      e := disk.WriteFile(indexHtmlPath, indexHtmlContent, FaultAt(faults, SaveIndexHtml));
      if e.Some? {
        return "", Some(StepFailed(SaveIndexHtml, e.value));
      }
      err := None;
    }
  }

  // ---------------------------------------------------------------------
  // Running a plan
  // ---------------------------------------------------------------------

  /** A refused step, or the end of the plan, with no refused step before it is the first fault. */
  lemma FirstFaultAt(plan: seq<Action>, faults: map<Step, Fault>, i: nat)
    requires i <= |plan| && (i < |plan| ==> plan[i].step in faults)
    requires forall j :: 0 <= j < i ==> plan[j].step !in faults
    ensures FirstFault(plan, faults) == i
  {
  }

  /**
   * Running a plan performs exactly the steps before the first refused one,
   * then leaves that step's residue and reports it (or no failure when none
   * is refused).
   */
  lemma {:induction false} RunPrefix(fs: FileSystem, plan: seq<Action>, faults: map<Step, Fault>)
    ensures var k := FirstFault(plan, faults);
      var done := ApplyAll(fs, plan[..k]);
      Run(fs, plan, faults)
      == if k < |plan| then RunResult(Leftover(done, plan[k], faults[plan[k].step]), Some(plan[k].step))
         else RunResult(done, None)
    decreases |plan|
  {
    if plan == [] {
    } else if plan[0].step in faults {
      assert plan[..0] == [];
    } else {
      RunPrefix(Apply(fs, plan[0]), plan[1..], faults);
      var k := FirstFault(plan[1..], faults);
      assert plan[..k + 1][0] == plan[0];
      assert plan[..k + 1][1..] == plan[1..][..k];
    }
  }

  /** The plan-based and the step-by-step readings of the filesystem part agree. */
  lemma MaterializeStepwise(dir: string, n: string, pluginGo: string, indexHtml: string,
                            faults: map<Step, Fault>, fs: FileSystem)
    ensures Materialize(dir, n, pluginGo, indexHtml, faults, fs) == Stepwise(dir, n, pluginGo, indexHtml, faults, fs)
  {
    var p := Plan(dir, n, pluginGo, indexHtml);
    var q1 := p[1..];
    var q2 := q1[1..];
    var q3 := q2[1..];
    var q4 := q3[1..];
    assert q1[0] == p[1] && q2[0] == p[2] && q3[0] == p[3] && q4[0] == p[4];
    assert q4[1..] == [];
    if CreateUiPluginsDir !in faults {
      var fs1 := AddDir(fs, dir);
      assert Run(fs, p, faults) == Run(fs1, q1, faults);
      if CreatePluginDir !in faults {
        var fs2 := AddDir(fs1, PluginDir(dir, n));
        assert Run(fs1, q1, faults) == Run(fs2, q2, faults);
        if CreateDistDir !in faults {
          var fs3 := AddDir(fs2, DistDir(dir, n));
          assert Run(fs2, q2, faults) == Run(fs3, q3, faults);
          if SavePluginGo !in faults {
            var fs4 := PutFile(fs3, PluginGoPath(dir, n), pluginGo);
            assert Run(fs3, q3, faults) == Run(fs4, q4, faults);
            if SaveIndexHtml !in faults {
              var fs5 := PutFile(fs4, IndexHtmlPath(dir, n), indexHtml);
              assert Run(fs4, q4, faults) == Run(fs5, [], faults);
            }
          }
        }
      }
    }
  }

  /** Two written paths never coincide, so each file keeps its own contents. */
  lemma PathsDistinct(dir: string, n: string)
    ensures PluginGoPath(dir, n) != IndexHtmlPath(dir, n)
  {
    var pd := PluginDir(dir, n);
    assert |PluginGoPath(dir, n)| == |pd| + (if pd == "" then 9 else 10);
    assert |DistDir(dir, n)| == |pd| + (if pd == "" then 4 else 5);
    assert |IndexHtmlPath(dir, n)| == |pd| + (if pd == "" then 15 else 16);
  }

  // ---------------------------------------------------------------------
  // The filesystem part of the protocol
  // ---------------------------------------------------------------------

  /** The protocol succeeds exactly when the host refuses none of its steps. */
  lemma MaterializeSucceedsIffNoRefusal(dir: string, n: string, pluginGo: string, indexHtml: string,
                                        faults: map<Step, Fault>, fs: FileSystem)
    ensures Materialize(dir, n, pluginGo, indexHtml, faults, fs).err == None <==> forall s: Step :: s !in faults
  {
    MaterializeStepwise(dir, n, pluginGo, indexHtml, faults, fs);
    if Materialize(dir, n, pluginGo, indexHtml, faults, fs).err == None {
      forall s: Step ensures s !in faults {
        match s
        case CreateUiPluginsDir =>
        case CreatePluginDir =>
        case CreateDistDir =>
        case SavePluginGo =>
        case SaveIndexHtml =>
      }
    }
  }

  /**
   * On success the plugin directory is returned, the three directories
   * exist, the two files hold exactly the given contents, and nothing
   * else is added or changed.
   */
  lemma MaterializeCreatesExactly(dir: string, n: string, pluginGo: string, indexHtml: string,
                                  faults: map<Step, Fault>, fs: FileSystem)
    requires forall s: Step :: s !in faults
    ensures var o := Materialize(dir, n, pluginGo, indexHtml, faults, fs);
      && o.dir == PluginDir(dir, n) && o.err == None
      && o.fs.dirs == fs.dirs + {dir, PluginDir(dir, n), DistDir(dir, n)}
      && o.fs.files.Keys == fs.files.Keys + {PluginGoPath(dir, n), IndexHtmlPath(dir, n)}
      && o.fs.files[PluginGoPath(dir, n)] == pluginGo
      && o.fs.files[IndexHtmlPath(dir, n)] == indexHtml
      && forall p :: p in fs.files && p != PluginGoPath(dir, n) && p != IndexHtmlPath(dir, n)
           ==> o.fs.files[p] == fs.files[p]
  {
    MaterializeStepwise(dir, n, pluginGo, indexHtml, faults, fs);
    PathsDistinct(dir, n);
  }

  /**
   * The first refused step, in step order, ends the protocol with its own
   * error; the steps before it stay performed, a refused directory leaves
   * nothing, a refused write leaves its residue, and no later step happens.
   */
  lemma MaterializeStopsAtFirstRefusal(dir: string, n: string, pluginGo: string, indexHtml: string,
                                       faults: map<Step, Fault>, fs: FileSystem, k: nat)
    requires k < |StepOrder| && StepOrder[k] in faults
    requires forall j :: 0 <= j < k ==> StepOrder[j] !in faults
    ensures var o := Materialize(dir, n, pluginGo, indexHtml, faults, fs);
      && o.dir == ""
      && o.err == Some(StepFailed(StepOrder[k], faults[StepOrder[k]].cause))
      && o.fs == Leftover(ApplyAll(fs, Plan(dir, n, pluginGo, indexHtml)[..k]),
                          Plan(dir, n, pluginGo, indexHtml)[k], faults[StepOrder[k]])
  {
    var plan := Plan(dir, n, pluginGo, indexHtml);
    RunPrefix(fs, plan, faults);
    FirstFaultAt(plan, faults, k);
  }

  /** No outcome removes anything, and only the promised paths are ever added or overwritten. */
  lemma MaterializeOnlyTouchesPromisedPaths(dir: string, n: string, pluginGo: string, indexHtml: string,
                                            faults: map<Step, Fault>, fs: FileSystem)
    ensures var o := Materialize(dir, n, pluginGo, indexHtml, faults, fs);
      && fs.dirs <= o.fs.dirs <= fs.dirs + {dir, PluginDir(dir, n), DistDir(dir, n)}
      && fs.files.Keys <= o.fs.files.Keys <= fs.files.Keys + {PluginGoPath(dir, n), IndexHtmlPath(dir, n)}
      && forall p :: p in fs.files && p != PluginGoPath(dir, n) && p != IndexHtmlPath(dir, n)
           ==> o.fs.files[p] == fs.files[p]
  {
    MaterializeStepwise(dir, n, pluginGo, indexHtml, faults, fs);
  }

  // ---------------------------------------------------------------------
  // The whole creation protocol
  // ---------------------------------------------------------------------

  /** An empty name is rejected with "missing plugin name" and the filesystem is left alone. */
  lemma CreateRejectsEmptyName(dir: string, interactive: bool, confirmed: bool,
                               snakecase: string -> string, faults: map<Step, Fault>, fs: FileSystem)
    ensures var o := Create(dir, "", interactive, confirmed, snakecase, faults, fs);
      o.dir == "" && o.err.Some? && ErrorText(o.err.value) == "missing plugin name" && o.fs == fs
  {
  }

  /** A declined prompt returns no directory and no error, and the filesystem is left alone. */
  lemma CreateDeclined(dir: string, name: string, snakecase: string -> string,
                       faults: map<Step, Fault>, fs: FileSystem)
    requires name != ""
    ensures Create(dir, name, true, false, snakecase, faults, fs) == Outcome("", None, fs)
  {
  }

  /**
   * Once the name is accepted and the user has not declined, creation
   * succeeds exactly when no step is refused; it then returns
   * `Join(Dir, snakecase(name))` and leaves exactly the three directories
   * and the two generated files added.
   */
  lemma CreateSucceeds(dir: string, name: string, interactive: bool, confirmed: bool,
                       snakecase: string -> string, faults: map<Step, Fault>, fs: FileSystem)
    requires name != "" && (!interactive || confirmed)
    ensures Create(dir, name, interactive, confirmed, snakecase, faults, fs).err == None
            <==> forall s: Step :: s !in faults
    ensures (forall s: Step :: s !in faults) ==>
      var n := snakecase(name);
      var o := Create(dir, name, interactive, confirmed, snakecase, faults, fs);
      && o.dir == Join(dir, n)
      && o.fs.dirs == fs.dirs + {dir, Join(dir, n), Join(Join(dir, n), "dist")}
      && o.fs.files.Keys == fs.files.Keys + {PluginGoPath(dir, n), IndexHtmlPath(dir, n)}
      && o.fs.files[Join(Join(dir, n), "plugin.go")] == PluginTemplates.GeneratePluginGo(name, n)
      && o.fs.files[Join(Join(Join(dir, n), "dist"), "index.html")] == PluginTemplates.GenerateIndexHtml(name, snakecase)
  {
    var n := snakecase(name);
    var g := PluginTemplates.GeneratePluginGo(name, n);
    var h := PluginTemplates.GenerateIndexHtml(name, snakecase);
    MaterializeSucceedsIffNoRefusal(dir, n, g, h, faults, fs);
    if forall s: Step :: s !in faults {
      MaterializeCreatesExactly(dir, n, g, h, faults, fs);
    }
  }

  /**
   * The first refused step ends creation with its step-specific error,
   * keeping what the earlier steps did and the refused write's residue.
   */
  lemma CreateStopsAtFirstRefusal(dir: string, name: string, interactive: bool, confirmed: bool,
                                  snakecase: string -> string, faults: map<Step, Fault>, fs: FileSystem, k: nat)
    requires name != "" && (!interactive || confirmed)
    requires k < |StepOrder| && StepOrder[k] in faults
    requires forall j :: 0 <= j < k ==> StepOrder[j] !in faults
    ensures var n := snakecase(name);
      var o := Create(dir, name, interactive, confirmed, snakecase, faults, fs);
      && o.dir == ""
      && o.err.Some?
      && ErrorText(o.err.value) == StepContext(StepOrder[k]) + ": " + faults[StepOrder[k]].cause
      && var plan := Plan(dir, n, PluginTemplates.GeneratePluginGo(name, n),
                          PluginTemplates.GenerateIndexHtml(name, snakecase));
         o.fs == Leftover(ApplyAll(fs, plan[..k]), plan[k], faults[StepOrder[k]])
  {
    var n := snakecase(name);
    MaterializeStopsAtFirstRefusal(dir, n, PluginTemplates.GeneratePluginGo(name, n),
                                   PluginTemplates.GenerateIndexHtml(name, snakecase), faults, fs, k);
  }

  /** Whatever happens, creation removes nothing and only touches the promised paths. */
  lemma CreateOnlyTouchesPromisedPaths(dir: string, name: string, interactive: bool, confirmed: bool,
                                       snakecase: string -> string, faults: map<Step, Fault>, fs: FileSystem)
    ensures var n := snakecase(name);
      var o := Create(dir, name, interactive, confirmed, snakecase, faults, fs);
      && fs.dirs <= o.fs.dirs <= fs.dirs + {dir, PluginDir(dir, n), DistDir(dir, n)}
      && fs.files.Keys <= o.fs.files.Keys <= fs.files.Keys + {PluginGoPath(dir, n), IndexHtmlPath(dir, n)}
      && forall p :: p in fs.files && p != PluginGoPath(dir, n) && p != IndexHtmlPath(dir, n)
           ==> o.fs.files[p] == fs.files[p]
  {
    if name != "" && (!interactive || confirmed) {
      var n := snakecase(name);
      MaterializeOnlyTouchesPromisedPaths(dir, n, PluginTemplates.GeneratePluginGo(name, n),
                                          PluginTemplates.GenerateIndexHtml(name, snakecase), faults, fs);
    }
  }

  /** The steps have pairwise different error contexts, so an error names its step. */
  lemma StepContextsDistinct(s: Step, t: Step)
    requires s != t
    ensures StepContext(s) != StepContext(t)
  {
    assert |StepContext(s)| != |StepContext(t)|;
  }

  /** After a successful creation both files describe the plugin: its package, name, base and greeting. */
  lemma CreatedFilesDescribePlugin(dir: string, name: string, interactive: bool, confirmed: bool,
                                   snakecase: string -> string, faults: map<Step, Fault>, fs: FileSystem)
    requires name != "" && (!interactive || confirmed)
    requires forall s: Step :: s !in faults
    ensures var n := snakecase(name);
      var o := Create(dir, name, interactive, confirmed, snakecase, faults, fs);
      && PluginGoPath(dir, n) in o.fs.files && IndexHtmlPath(dir, n) in o.fs.files
      && Contains(o.fs.files[PluginGoPath(dir, n)], PluginTemplates.PackageKeyword + n + "\n")
      && Contains(o.fs.files[PluginGoPath(dir, n)], PluginTemplates.NameKey + name + PluginTemplates.Quote)
      && Contains(o.fs.files[PluginGoPath(dir, n)], PluginTemplates.BaseKey + n + PluginTemplates.Quote)
      && Contains(o.fs.files[IndexHtmlPath(dir, n)], name)
      && Contains(o.fs.files[IndexHtmlPath(dir, n)], PluginTemplates.WelcomeTo)
      && Contains(o.fs.files[IndexHtmlPath(dir, n)], PluginTemplates.SpanOpen + n + PluginTemplates.SpanClose)
  {
    var n := snakecase(name);
    CreateSucceeds(dir, name, interactive, confirmed, snakecase, faults, fs);
    PluginTemplates.PluginGoDeclaresPackage(name, n);
    PluginTemplates.PluginGoRegistersDescriptor(name, n);
    PluginTemplates.IndexHtmlShowsTitle(name, snakecase);
    PluginTemplates.IndexHtmlShowsGreeting(name, snakecase);
    PluginTemplates.IndexHtmlShowsBase(name, snakecase);
  }

  /**
   * The descriptor a generated plugin.go registers at start-up: the raw
   * name, the normalised name as base, the default icon and the embedded
   * `dist` tree, which is never nil.
   */
  function GeneratedDescriptor(name: string, n: string, dist: nat): UiPlugins.UiPlugin
  {
    UiPlugins.UiPlugin(name, n, PluginTemplates.DefaultIcon, UiPlugins.Tree(dist), false)
  }

  /**
   * Registering that descriptor panics only when the normalised name is
   * empty, with the empty-base panic.
   */
  lemma GeneratedDescriptorRegisters(name: string, n: string, dist: nat)
    requires name != ""
    ensures UiPlugins.Check(GeneratedDescriptor(name, n, dist)) == if n == "" then Some(UiPlugins.NoBase) else None
  {
  }
}
