/** The devnet's environment, reduced to what the lifecycle logic observes:
    an ordered trace of every runtime, process and file command it issues,
    the few host facts it reads, and per-call oracles that stand for the
    container runtime, the node binary and the operating system. */
module Runtime {
  import opened Paths

  datatype Option<T> = None | Some(value: T)

  /** A test account as `keys add --output json` reports it. */
  datatype Account = Account(name: string, address: string, mnemonic: string)

  /** `spinarch_accounts.json` as `JSON.parse` sees it. */
  datatype AccountsFile = Missing | Malformed | Parsed(accounts: seq<Account>)

  /** What the lifecycle logic reads back from the project directory:
      whether `config/genesis.json` exists, and the accounts file. */
  datatype ProjectState = ProjectState(genesis: bool, accountsFile: AccountsFile)

  /** The source of a container mount: a named volume or a host directory. */
  datatype Source = Volume(name: string) | Bind(path: Path)

  datatype Mount = Mount(source: Source, target: string)

  datatype PortBinding = PortBinding(port: string, hostIp: string, hostPort: string)

  /** The `HostConfig` part of a container's create options. */
  datatype HostConfig = HostConfig(autoRemove: bool, mounts: seq<Mount>, portBindings: seq<PortBinding>)

  /** The create options handed to `docker.run`. */
  datatype RunOpts = RunOpts(name: Option<string>, networkDisabled: bool, hostConfig: HostConfig)

  /** What a container or the native binary is asked to do; the exact
      argument list of each step is `Lifecycle.Argv`. */
  datatype Step =
    | Init(moniker: string, chain: string)
    | KeysAdd(index: nat)
    | AddGenesisAccount(index: nat, balance: string)
    | Gentx(chain: string)
    | CollectGentxs
    | UnsafeResetAll
    | ContainerStart(moniker: string)
    | NativeStart(moniker: string, home: Path)
    | Tar(archive: string)     // in the helper container
    | Untar(archive: string)   // in the helper container

  /** One command issued to the outside world. */
  datatype Cmd =
    | Run(image: string, step: Step, opts: RunOpts)     // docker.run, awaited
    | Launch(image: string, step: Step, opts: RunOpts)  // docker.run, not awaited
    | Spawn(binary: Path, step: Step)                   // child_process.spawn
    | Kill(pid: int, signal: string)                           // process.kill
    | StopContainer(name: string)
    | RemoveVolume(name: string)
    | Pull(image: string)
    | MakeDir(path: Path)                                      // mkdirp
    | WriteAccounts(path: Path, accounts: seq<Account>)        // fs.writeFile of the JSON list

  /** The host state the devnet changes besides the trace. */
  datatype Fs = Fs(project: ProjectState, snapshots: map<string, ProjectState>,
                   volumeExists: bool, imageExists: bool)

  /** Whether one of the mounts is a named, runtime-managed volume. */
  predicate MountsVolume(mounts: seq<Mount>)
  {
    exists i :: 0 <= i < |mounts| && mounts[i].source.Volume?
  }

  /** The files after a container with these mounts is created: the runtime
      creates a named volume it mounts when the volume is missing. */
  function Created(fs: Fs, mounts: seq<Mount>): (r: Fs)
    ensures r.project == fs.project && r.snapshots == fs.snapshots && r.imageExists == fs.imageExists
    ensures r.volumeExists <==> fs.volumeExists || MountsVolume(mounts)
  {
    if MountsVolume(mounts) then fs.(volumeExists := true) else fs
  }

  /** The accounts file after a plain, non-atomic write of `written`: the
      new list when the write succeeds; when it fails, a file cut off in
      the middle (`torn`) or, for a write that failed before opening the
      file, the file as it was. */
  function AfterWrite(before: AccountsFile, written: seq<Account>, ok: bool, torn: bool): (r: AccountsFile)
    ensures r == Parsed(written) || r == Malformed || r == before
    ensures ok ==> r == Parsed(written)
  {
    if ok then Parsed(written) else if torn then Malformed else before
  }

  /** The machine the devnet runs on. Commands are numbered by their position
      in `trace`; the oracles say how the call at each position turns out. */
  class Host {
    var trace: seq<Cmd>
    var fs: Fs
    var accountLog: seq<string>  // the accounts pane of the terminal
    const succeeds: nat -> bool         // does the call at this position succeed?
    const keyRecord: nat -> Account     // the record a `keys add` at this position prints
    const spawnedPid: nat -> Option<int> // the pid a spawn at this position reports
    const tornWrite: nat -> bool        // does a failed write at this position leave a cut-off file?

    constructor (fs0: Fs, succeeds: nat -> bool, keyRecord: nat -> Account, spawnedPid: nat -> Option<int>,
                 tornWrite: nat -> bool)
      ensures trace == [] && fs == fs0 && accountLog == []
      ensures this.succeeds == succeeds && this.keyRecord == keyRecord && this.spawnedPid == spawnedPid
      ensures this.tornWrite == tornWrite
    {
      trace, fs, accountLog := [], fs0, [];
      this.succeeds, this.keyRecord, this.spawnedPid := succeeds, keyRecord, spawnedPid;
      this.tornWrite := tornWrite;
    }

    /** Issues one command: it is appended to the trace and the oracle
        decides its outcome. A container run creates the named volume it
        mounts, whether or not its command then succeeds. */
    method Issue(c: Cmd) returns (ok: bool)
      modifies this`trace, this`fs
      ensures trace == old(trace) + [c]
      ensures ok == succeeds(|old(trace)|)
      ensures fs == if c.Run? || c.Launch? then Created(old(fs), c.opts.hostConfig.mounts) else old(fs)
    {
      ok := succeeds(|trace|);
      trace := trace + [c];
      if c.Run? || c.Launch? {
        fs := Created(fs, c.opts.hostConfig.mounts);
      }
    }
  }

  /** The offset, within `len` consecutive calls starting at position `base`,
      of the first call that fails, or `len` when all of them succeed. */
  function FirstFailure(ok: nat -> bool, base: nat, len: nat): (k: nat)
    ensures k <= len
    decreases len
  {
    if len == 0 then 0
    else if !ok(base) then 0
    else 1 + FirstFailure(ok, base + 1, len - 1)
  }

  /** Every call before the first failure succeeds, and the one at the
      first failure fails. */
  lemma {:induction false} FirstFailureSpec(ok: nat -> bool, base: nat, len: nat)
    ensures var k := FirstFailure(ok, base, len);
      && (forall p :: base <= p < base + k ==> ok(p))
      && (k < len ==> !ok(base + k))
    decreases len
  {
    if len > 0 && ok(base) {
      FirstFailureSpec(ok, base + 1, len - 1);
    }
  }

  /** The offset of the first failure is determined by the outcomes. */
  lemma {:induction false} FirstFailureIs(ok: nat -> bool, base: nat, len: nat, k: nat)
    requires k <= len
    requires forall p :: base <= p < base + k ==> ok(p)
    requires k < len ==> !ok(base + k)
    ensures FirstFailure(ok, base, len) == k
    decreases k
  {
    if k > 0 {
      FirstFailureIs(ok, base + 1, len - 1, k - 1);
    }
  }

  /** Running two blocks of calls back to back: the first failure is in
      the first block, or it is the first block's length plus the first
      failure of the second. */
  lemma {:induction false} FirstFailureSplit(ok: nat -> bool, base: nat, a: nat, b: nat)
    ensures var k := FirstFailure(ok, base, a);
      FirstFailure(ok, base, a + b) == if k < a then k else a + FirstFailure(ok, base + a, b)
    decreases a
  {
    if a > 0 && ok(base) {
      FirstFailureSplit(ok, base + 1, a - 1, b);
    }
  }

  /** How many of a planned run of `len` calls are issued when a sequence
      stops at its first failure: the failing call is issued, the rest not. */
  function Issued(firstFailure: nat, len: nat): (r: nat)
  {
    if firstFailure < len then firstFailure + 1 else len
  }

  function Min(a: nat, b: nat): (m: nat)
    ensures m <= a && m <= b && (m == a || m == b)
  {
    if a < b then a else b
  }

  function Digit(d: nat): (c: char)
    requires d < 10
    ensures '0' <= c <= '9' && c as int - '0' as int == d
  {
    ('0' as int + d) as char
  }

  /** Decimal text of a natural number, as a JavaScript template literal
      renders it. */
  function NatText(n: nat): (s: string)
    ensures |s| >= 1
    ensures forall i :: 0 <= i < |s| ==> '0' <= s[i] <= '9'
  {
    if n < 10 then [Digit(n)] else NatText(n / 10) + [Digit(n % 10)]
  }

  /** The number a string of decimal digits denotes. */
  function DecimalValue(s: string): (r: nat)
  {
    if s == [] then 0
    else
      var d := s[|s| - 1] as int - '0' as int;
      DecimalValue(s[..|s| - 1]) * 10 + (if 0 <= d then d else 0)
  }

  /** The text of `n` denotes `n`. */
  lemma {:induction false} NatTextValue(n: nat)
    ensures DecimalValue(NatText(n)) == n
    decreases n
  {
    if n < 10 {
      assert NatText(n)[..0] == [];
    } else {
      NatTextValue(n / 10);
      var s := NatText(n);
      assert s[..|s| - 1] == NatText(n / 10);
    }
  }

  /** Distinct numbers have distinct texts, so distinct key indices give
      distinct command arguments. */
  lemma NatTextInjective(a: nat, b: nat)
    ensures NatText(a) == NatText(b) <==> a == b
  {
    NatTextValue(a);
    NatTextValue(b);
  }
}
