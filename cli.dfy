/** The command-line entry point of `index.js`: the project identity derived
    from the options, the account-count check, the startup sequence that
    drives one `Archwayd`, and the latched Ctrl-C hotkey. */
module Cli {
  import opened Paths
  import opened Runtime
  import opened Lifecycle

  /** The parsed command-line options; `projectId` is `None` when
      `--project-id` was not given. */
  datatype Options = Options(projectId: Option<string>, chainId: string, numAccounts: int,
                             balance: string, updateImage: bool, resetState: bool)

  // ----- Project identity -----

  /** The characters `[0-9a-zA-Z-_]` a project id may keep. */
  predicate IsAllowed(c: char)
  {
    || ('0' <= c <= '9')
    || ('a' <= c <= 'z')
    || ('A' <= c <= 'Z')
    || c == '-' || c == '_'
  }

  predicate AllAllowed(s: string)
  {
    forall i :: 0 <= i < |s| ==> IsAllowed(s[i])
  }

  /** `s.replace(/[^0-9a-zA-Z-_]/g, '')`: every character outside the
      allowed set is dropped. */
  function Sanitize(s: string): (r: string)
    ensures |r| <= |s|
    ensures |r| == |s| ==> r == s
  {
    if s == [] then [] else (if IsAllowed(s[0]) then [s[0]] else []) + Sanitize(s[1..])
  }

  /** The result keeps only allowed characters. */
  lemma {:induction false} SanitizeAllowed(s: string)
    ensures AllAllowed(Sanitize(s))
    decreases |s|
  {
    if s != [] {
      SanitizeAllowed(s[1..]);
      var head := if IsAllowed(s[0]) then [s[0]] else [];
      assert Sanitize(s) == head + Sanitize(s[1..]);
      forall i | 0 <= i < |Sanitize(s)|
        ensures IsAllowed(Sanitize(s)[i])
      {
        if i >= |head| {
          assert Sanitize(s)[i] == Sanitize(s[1..])[i - |head|];
        }
      }
    }
  }

  /** Sanitising works character by character, keeping the order: the
      sanitised concatenation is the concatenation of the sanitised parts. */
  lemma {:induction false} SanitizeAppend(a: string, b: string)
    ensures Sanitize(a + b) == Sanitize(a) + Sanitize(b)
    decreases |a|
  {
    if a != [] {
      assert (a + b)[1..] == a[1..] + b;
      SanitizeAppend(a[1..], b);
    } else {
      assert a + b == b;
    }
  }

  /** One character is kept exactly when it is allowed. */
  lemma SanitizeChar(c: char)
    ensures Sanitize([c]) == if IsAllowed(c) then [c] else []
  {
    assert [c][1..] == [];
  }

  /** A string of allowed characters is left as it is, and only such a
      string is. */
  lemma {:induction false} SanitizeFixpoint(s: string)
    ensures Sanitize(s) == s <==> AllAllowed(s)
    decreases |s|
  {
    if s != [] {
      SanitizeFixpoint(s[1..]);
      if AllAllowed(s) {
        assert AllAllowed(s[1..]) by {
          forall i | 0 <= i < |s[1..]| ensures IsAllowed(s[1..][i]) {
            assert s[1..][i] == s[i + 1];
          }
        }
        assert s == [s[0]] + s[1..];
      }
    }
  }

  /** Sanitising twice is sanitising once. */
  lemma SanitizeIdempotent(s: string)
    ensures Sanitize(Sanitize(s)) == Sanitize(s)
  {
    SanitizeAllowed(s);
    SanitizeFixpoint(Sanitize(s));
  }

  /** `!!options.projectId`: the raw option decides, so an id that
      sanitises to nothing still makes the project persistent. */
  predicate IsPersistent(o: Options)
    ensures IsPersistent(o) <==> o.projectId.Some? && |o.projectId.value| > 0
  {
    o.projectId.Some? && o.projectId.value != ""
  }

  /** The project id: the sanitised option when it is given and not empty,
      otherwise the random container-style name. */
  function ProjectIdOf(o: Options, randomName: string): (id: string)
    ensures IsPersistent(o) ==> id == Sanitize(o.projectId.value) && AllAllowed(id)
    ensures !IsPersistent(o) ==> id == randomName
  {
    if IsPersistent(o) then
      SanitizeAllowed(o.projectId.value);
      Sanitize(o.projectId.value)
    else randomName
  }

  /** A string of refused characters only sanitises to nothing. */
  lemma {:induction false} SanitizeNone(s: string)
    requires forall i :: 0 <= i < |s| ==> !IsAllowed(s[i])
    ensures Sanitize(s) == ""
    decreases |s|
  {
    if s != [] {
      assert forall i :: 0 <= i < |s[1..]| ==> s[1..][i] == s[i + 1];
      SanitizeNone(s[1..]);
    }
  }

  /** Persistence follows the raw option, not the sanitised id: an id made
      only of refused characters is persistent with the empty project id,
      while an empty `--project-id ""` is temporary and takes the random
      name. */
  lemma PersistenceFromRawOption(o: Options, randomName: string)
    ensures IsPersistent(o) && (forall i :: 0 <= i < |o.projectId.value| ==> !IsAllowed(o.projectId.value[i])) ==>
      ProjectIdOf(o, randomName) == ""
    ensures o.projectId == Some("") ==> !IsPersistent(o) && ProjectIdOf(o, randomName) == randomName
  {
    if IsPersistent(o) && forall i :: 0 <= i < |o.projectId.value| ==> !IsAllowed(o.projectId.value[i]) {
      SanitizeNone(o.projectId.value);
    }
  }

  /** `path.resolve(os.homedir(), '.spinarch', project_id)`. */
  function ProjectDirOf(home: Path, id: string): (r: Path)
    ensures Normal(home) ==> Normal(r)
    ensures id != ".." ==> |r| >= |home| + 1 && r[..|home| + 1] == home + [".spinarch"]
  {
    assert [".spinarch", id][1..] == [id] && [id][1..] == [];
    assert Paths.Step(home, ".spinarch") == home + [".spinarch"];
    assert Resolve(home, [".spinarch", id]) == Resolve(home + [".spinarch"], [id]);
    assert Resolve(home + [".spinarch"], [id]) == Paths.Step(home + [".spinarch"], id);
    Resolve(home, [".spinarch", id])
  }

  /** A non-empty sanitised id names one directory entry: it holds no `/`
      and, holding no `.`, is neither `.` nor `..`. */
  lemma SanitizedIsPlain(s: string)
    requires Sanitize(s) != ""
    ensures Plain(Sanitize(s))
  {
    SanitizeAllowed(s);
    var id := Sanitize(s);
    assert IsAllowed(id[0]);
  }

  /** Where a project and its snapshots live: `~/.spinarch/<id>`, with the
      archives in `~/.spinarch/.snapshots`, a directory no sanitised id can
      name. */
  lemma ProjectLayout(home: Path, s: string)
    requires Normal(home) && Sanitize(s) != ""
    ensures ProjectDirOf(home, Sanitize(s)) == home + [".spinarch", Sanitize(s)]
    ensures SnapshotDir(ProjectDirOf(home, Sanitize(s))) == home + [".spinarch", ".snapshots"]
    ensures Sanitize(s) != ".snapshots"
  {
    var id := Sanitize(s);
    SanitizedIsPlain(s);
    ResolvePlain(home, [".spinarch", id]);
    SiblingOf(home + [".spinarch", id], ".snapshots");
    assert (home + [".spinarch", id])[..|home| + 1] == home + [".spinarch"];
    SanitizeAllowed(s);
    assert !IsAllowed(".snapshots"[0]);
  }

  /** An id that sanitises to nothing makes `~/.spinarch` itself the project
      directory, and the snapshots then go to `~/.snapshots`. */
  lemma EmptyIdLayout(home: Path)
    requires Normal(home)
    ensures ProjectDirOf(home, "") == home + [".spinarch"]
    ensures SnapshotDir(ProjectDirOf(home, "")) == home + [".snapshots"]
  {
    assert [".spinarch", ""][1..] == [""];
    assert [""][1..] == [];
    assert ProjectDirOf(home, "") == Resolve(home + [".spinarch"], [""]);
    assert Resolve(home + [".spinarch"], [""]) == Resolve(home + [".spinarch"], []);
    SiblingOf(home + [".spinarch"], ".snapshots");
    assert (home + [".spinarch"])[..|home|] == home;
  }

  // ----- Startup -----

  /** How a run of the entry point ends: the process exits with a status
      before anything is built, a step of the startup fails, or the node
      is up. */
  datatype Outcome = Exited(status: int) | Aborted | Running

  /** The worlds between the startup steps and whether each fallible step
      succeeded. */
  datatype Stages = Stages(prepared: World, pulled: World, loaded: World, initialised: World, generated: World,
                           prepareOk: bool, pullOk: bool, initOk: bool, generateOk: bool)

  /** The state directory before genesis: a temporary run removes the
      shared volume if it exists (a failed removal is only logged), a
      persistent run creates the project directory. */
  ghost predicate PrepareStep(persistent: bool, dir: Path, succeeds: nat -> bool, w0: World, w1: World, ok: bool)
  {
    if persistent then
      && ok == succeeds(|w0.trace|)
      && w1 == w0.(trace := w0.trace + [MakeDir(dir)])
    else
      var removes := w0.fs.volumeExists;
      && ok
      && w1 == w0.(trace := w0.trace + (if removes then [RemoveVolume(VolumeName)] else []),
                   fs := if removes && succeeds(|w0.trace|) then w0.fs.(volumeExists := false) else w0.fs)
  }

  /** The image is pulled when it is absent or an update was asked for. */
  ghost predicate PullStep(update: bool, succeeds: nat -> bool, w0: World, w1: World, ok: bool)
  {
    if w0.fs.imageExists && !update then ok && w1 == w0
    else
      && ok == succeeds(|w0.trace|)
      && w1 == w0.(trace := w0.trace + [Pull(Image)],
                   fs := if ok then w0.fs.(imageExists := true) else w0.fs)
  }

  /** The startup of `node` from `w0`: prepare, pull, then `load_config`,
      `init_genesis`, `generate_accounts` and `start_node` in that order,
      each awaited, the first failure ending the run in world `w`. */
  ghost predicate StartupRun(node: Archwayd, o: Options, w0: World, st: Stages, w: World, outcome: Outcome)
  {
    var succeeds := node.host.succeeds;
    && PrepareStep(node.isPersistent, node.projectDir, succeeds, w0, st.prepared, st.prepareOk)
    && (!st.prepareOk ==> outcome == Aborted && w == st.prepared)
    && (st.prepareOk ==>
         && PullStep(o.updateImage, succeeds, st.prepared, st.pulled, st.pullOk)
         && (!st.pullOk ==> outcome == Aborted && w == st.pulled)
         && (st.pullOk ==>
              && node.LoadStep(st.pulled, st.loaded)
              && node.InitStep(st.loaded, st.initialised, st.initOk)
              && (!st.initOk ==> outcome == Aborted && w == st.initialised)
              && (st.initOk ==>
                   && node.GenerateStep(o.numAccounts, o.balance, st.initialised, st.generated, st.generateOk)
                   && (!st.generateOk ==> outcome == Aborted && w == st.generated)
                   && (st.generateOk ==>
                        exists ok :: node.StartStep(st.generated, w, ok) && outcome == (if ok then Running else Aborted)))))
  }

  /** How `index.js` configures the devnet object from the options. */
  ghost predicate Configured(node: Archwayd, host: Host, o: Options, home: Path, randomName: string,
                             isAppleSilicon: bool, installDir: Path)
    reads node
  {
    var id := ProjectIdOf(o, randomName);
    && node.host == host
    && node.projectId == id && node.projectDir == ProjectDirOf(home, id)
    && node.chainId == o.chainId && node.isPersistent == IsPersistent(o)
    && node.resetState == o.resetState && node.isAppleSilicon == isAppleSilicon
    && node.binDir == Resolve(installDir, ["bin"])
  }

  /** A temporary run that reaches a running node has the shared volume
      again, whatever the preparation removed: `init` or the provisioning
      mounts it, and the runtime re-creates it. The node runs in a container
      and no pid is recorded. Nothing in this run removes the volume again:
      only the next temporary run's preparation does. */
  lemma TemporaryStartupRecreatesVolume(node: Archwayd, o: Options, w0: World, st: Stages, w: World)
    requires !node.isPersistent
    requires w0.accounts == [] && w0.pid == None && w0.opts == BaseOpts(false, node.projectDir)
    requires StartupRun(node, o, w0, st, w, Running)
    ensures w.fs.volumeExists
    ensures !PidSet(w.pid) && w.opts.hostConfig.mounts == [Mount(Volume(VolumeName), NodeHome)]
  {
    assert MountsVolume(w0.opts.hostConfig.mounts) by {
      assert w0.opts.hostConfig.mounts[0].source.Volume?;
    }
    assert st.initialised.opts == w0.opts && st.initialised.accounts == [];
    assert st.generated.fs.volumeExists;
    var ok :| node.StartStep(st.generated, w, ok) && Running == (if ok then Running else Aborted);
  }

  /** The entry point after option parsing: a count below one exits with
      status 1 before any object is built or any command is issued;
      otherwise the devnet object is built and the startup runs. */
  method Startup(host: Host, o: Options, home: Path, randomName: string, isAppleSilicon: bool, installDir: Path)
    returns (outcome: Outcome, node: Archwayd?, ghost st: Stages)
    modifies host`trace, host`fs, host`accountLog
    ensures o.numAccounts < 1 ==>
      && outcome == Exited(1) && node == null
      && host.trace == old(host.trace) && host.fs == old(host.fs) && host.accountLog == old(host.accountLog)
    ensures o.numAccounts >= 1 ==>
      && node != null && fresh(node) && node.Valid()
      && Configured(node, host, o, home, randomName, isAppleSilicon, installDir)
      && StartupRun(node, o, World(old(host.trace), old(host.fs), old(host.accountLog), [],
                                   BaseOpts(node.isPersistent, node.projectDir), None),
                    st, node.Now(), outcome)
  {
    if o.numAccounts < 1 {
      // console.error and process.exit(1)
      ghost var w := World(host.trace, host.fs, host.accountLog, [], BaseOpts(false, []), None);
      return Exited(1), null, Stages(w, w, w, w, w, false, false, false, false);
    }
    var id := ProjectIdOf(o, randomName);
    node := new Archwayd(host, id, ProjectDirOf(home, id), o.chainId, IsPersistent(o), o.resetState,
                         isAppleSilicon, installDir);
    assert node.dockerOpts == BaseOpts(node.isPersistent, node.projectDir);
    outcome, st := Launch(node, o);
  }

  /** Everything after the devnet object is built. */
  method Launch(node: Archwayd, o: Options) returns (outcome: Outcome, ghost st: Stages)
    requires node.Valid()
    modifies node`accounts, node`pid, node`dockerOpts, node.host`trace, node.host`fs, node.host`accountLog
    ensures node.Valid()
    ensures StartupRun(node, o, old(node.Now()), st, node.Now(), outcome)
  {
    ghost var w0 := node.Now();
    var ok := Prepare(node);
    ghost var prepared := node.Now();
    if !ok {
      return Aborted, Stages(prepared, prepared, prepared, prepared, prepared, false, false, false, false);
    }
    ok := PullImage(node, o.updateImage);
    ghost var pulled := node.Now();
    if !ok {
      return Aborted, Stages(prepared, pulled, pulled, pulled, pulled, true, false, false, false);
    }
    ghost var bst;
    outcome, bst := Boot(node, o.numAccounts, o.balance);
    st := bst.(prepared := prepared, pulled := pulled, prepareOk := true, pullOk := true);
  }

  /** `remove_volume` for a temporary run, `mkdirp(project_dir)` for a
      persistent one. */
  method Prepare(node: Archwayd) returns (ok: bool)
    modifies node.host`trace, node.host`fs
    ensures PrepareStep(node.isPersistent, node.projectDir, node.host.succeeds, old(node.Now()), node.Now(), ok)
  {
    var host := node.host;
    if !node.isPersistent {
      ok := true;
      if host.fs.volumeExists {
        var removed := host.Issue(RemoveVolume(VolumeName));
        if removed {
          host.fs := host.fs.(volumeExists := false);
        }
      }
    } else {
      ok := host.Issue(MakeDir(node.projectDir));
    }
  }

  /** Pulls the node image when it is missing or `--update-image` was set. */
  method PullImage(node: Archwayd, update: bool) returns (ok: bool)
    modifies node.host`trace, node.host`fs
    ensures PullStep(update, node.host.succeeds, old(node.Now()), node.Now(), ok)
  {
    var host := node.host;
    ok := true;
    if !host.fs.imageExists || update {
      ok := host.Issue(Pull(Image));
      if ok {
        host.fs := host.fs.(imageExists := true);
      }
    }
  }

  /** `load_config`, `init_genesis`, `generate_accounts` and `start_node`,
      each awaited, stopping at the first that fails. */
  method Boot(node: Archwayd, numAccounts: int, balance: string) returns (outcome: Outcome, ghost st: Stages)
    requires node.Valid()
    modifies node`accounts, node`pid, node`dockerOpts, node.host`trace, node.host`fs, node.host`accountLog
    ensures node.Valid()
    ensures node.LoadStep(old(node.Now()), st.loaded)
    ensures node.InitStep(st.loaded, st.initialised, st.initOk)
    ensures !st.initOk ==> outcome == Aborted && node.Now() == st.initialised
    ensures st.initOk ==> node.GenerateStep(numAccounts, balance, st.initialised, st.generated, st.generateOk)
    ensures st.initOk && !st.generateOk ==> outcome == Aborted && node.Now() == st.generated
    ensures st.initOk && st.generateOk ==>
      exists ok :: node.StartStep(st.generated, node.Now(), ok) && outcome == (if ok then Running else Aborted)
  {
    node.LoadConfig();
    ghost var loaded := node.Now();
    var ok := node.InitGenesis();
    ghost var initialised := node.Now();
    if !ok {
      return Aborted, Stages(loaded, loaded, loaded, initialised, initialised, true, true, false, false);
    }
    ok := node.GenerateAccounts(numAccounts, balance);
    ghost var generated := node.Now();
    st := Stages(loaded, loaded, loaded, initialised, generated, true, true, true, ok);
    if !ok {
      return Aborted, st;
    }
    ok := node.StartNode();
    outcome := if ok then Running else Aborted;
  }

  // ----- The Ctrl-C hotkey -----

  /** The terminate hotkey: its first press raises SIGINT in the process,
      every later press does nothing. */
  class Hotkeys {
    var isStopped: bool
    var raised: nat  // SIGINTs the hotkey has raised

    /** The latch is set exactly when the signal has been raised, once. */
    predicate Valid()
      reads this
    {
      raised == if isStopped then 1 else 0
    }

    constructor ()
      ensures Valid() && !isStopped
    {
      isStopped := false;
      raised := 0;
    }

    method PressCtrlC()
      requires Valid()
      modifies this
      ensures Valid() && isStopped && raised == 1
      ensures old(isStopped) ==> raised == old(raised)
    {
      if isStopped {
        return;
      }
      raised := raised + 1;  // process.kill(process.pid, 'SIGINT')
      isStopped := true;
    }
  }

}
