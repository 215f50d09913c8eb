/** The devnet lifecycle of `archwayd.js`: one `Archwayd` object per run,
    which initialises genesis, provisions accounts, starts and stops the
    node, and snapshots and restores the project directory, all by issuing
    commands to the `Host`. */
module Lifecycle {
  import opened Paths
  import opened Runtime

  const Image := "archwaynetwork/archwayd"
  const VolumeName := "vol_spinarch"
  const ContainerName := "spinarch_archwayd"
  const NodeHome := "/root/.archway"
  const HelperImage := "alpine:latest"
  const ValidatorMark := " (validator)"
  const Rule := "=================="
  const RpcBinding := PortBinding("26657/tcp", "127.0.0.1", "26657")

  /** The node's data directory: the shared named volume for a temporary
      project, the project directory bind-mounted for a persistent one. */
  function NodeMounts(persistent: bool, dir: Path): (r: seq<Mount>)
  {
    if persistent then [Mount(Bind(dir), NodeHome)] else [Mount(Volume(VolumeName), NodeHome)]
  }

  /** The one-shot run options the constructor sets up. */
  function BaseOpts(persistent: bool, dir: Path): (r: RunOpts)
  {
    RunOpts(None, true, HostConfig(true, NodeMounts(persistent, dir), []))
  }

  /** Options after the loopback RPC port binding has been written into
      their `HostConfig`. */
  function WithRpcBinding(o: RunOpts): (r: RunOpts)
  {
    o.(hostConfig := o.hostConfig.(portBindings := [RpcBinding]))
  }

  /** JavaScript truthiness of `this.pid`. */
  predicate PidSet(pid: Option<int>)
  {
    pid.Some? && pid.value != 0
  }

  function Count(n: int): (r: nat)
  {
    if n < 0 then 0 else n
  }

  // ----- The commands the lifecycle issues -----

  /** The argument list a step is run with. */
  function Argv(s: Step): (r: seq<string>)
    ensures |r| >= 1
    ensures s.KeysAdd? ==> |r| > 2 && DecimalValue(r[2]) == s.index
    ensures s.AddGenesisAccount? ==> |r| > 2 && DecimalValue(r[1]) == s.index && EndsWith(r[2], "stake")
  {
    match s
    case Init(moniker, chain) => ["init", moniker, "--chain-id", chain]
    case KeysAdd(i) =>
      NatTextValue(i);
      ["keys", "add", NatText(i), "--keyring-backend", "test", "--output", "json"]
    case AddGenesisAccount(i, balance) =>
      NatTextValue(i);
      assert (balance + "stake")[|balance|..] == "stake";
      ["add-genesis-account", NatText(i), balance + "stake", "--keyring-backend", "test", "--output", "json"]
    case Gentx(chain) =>
      ["gentx", "0", "100000000stake", "--chain-id", chain, "--keyring-backend", "test", "--output", "json"]
    case CollectGentxs => ["collect-gentxs"]
    case UnsafeResetAll => ["unsafe-reset-all"]
    case ContainerStart(moniker) =>
      ["start", "--moniker", moniker, "--minimum-gas-prices", "0stake", "--rpc.laddr", "tcp://0.0.0.0:26657"]
    case NativeStart(moniker, home) =>
      ["start", "--moniker", moniker, "--minimum-gas-prices", "0stake", "--rpc.laddr", "tcp://127.0.0.1:26657",
       "--home", Text(home)]
    case Tar(archive) => ["tar", "cvf", "/ss/" + archive, "/state"]
    case Untar(archive) => ["sh", "-c", "rm -r /state/* && cd / && tar xvf /ss/" + archive]
  }

  function InitCmd(id: string, chain: string, opts: RunOpts): (r: Cmd)
  {
    Run(Image, Init(id, chain), opts)
  }

  function KeysAddCmd(i: nat, opts: RunOpts): (r: Cmd)
  {
    Run(Image, KeysAdd(i), opts)
  }

  function AddGenesisAccountCmd(i: nat, balance: string, opts: RunOpts): (r: Cmd)
  {
    Run(Image, AddGenesisAccount(i, balance), opts)
  }

  /** The validator transaction: the one provisioning step with the network on. */
  function GentxCmd(chain: string, opts: RunOpts): (r: Cmd)
  {
    Run(Image, Gentx(chain), opts.(networkDisabled := false))
  }

  function CollectGentxsCmd(opts: RunOpts): (r: Cmd)
  {
    Run(Image, CollectGentxs, opts)
  }

  function ResetCmd(opts: RunOpts): (r: Cmd)
  {
    Run(Image, UnsafeResetAll, opts)
  }

  function NativeStartCmd(binDir: Path, id: string, dir: Path): (r: Cmd)
  {
    Spawn(binDir + ["archwayd-darwin-arm64"], NativeStart(id, dir))
  }

  /** The long-running node container, started with the shared options. */
  function ContainerStartCmd(id: string, opts: RunOpts): (r: Cmd)
  {
    Launch(Image, ContainerStart(id), WithRpcBinding(opts).(name := Some(ContainerName), networkDisabled := false))
  }

  /** The first thing `stop_node` does: signal the native process when a
      pid is recorded, otherwise stop the node container. */
  function StopCmd(pid: Option<int>): (r: Cmd)
  {
    if PidSet(pid) then Kill(pid.value, "SIGINT") else StopContainer(ContainerName)
  }

  function AccountsPath(dir: Path): (r: Path)
  {
    Resolve(dir, ["spinarch_accounts.json"])
  }

  function SnapshotDir(dir: Path): (r: Path)
  {
    Resolve(dir, ["..", ".snapshots"])
  }

  /** `<project_id>_<stamp>.tar`, the archive a snapshot writes. */
  function ArchiveName(id: string, stamp: string): (r: string)
  {
    id + "_" + stamp + ".tar"
  }

  /** Options of the helper container: network off, the snapshot directory
      on `/ss` and the project directory on `/state`. */
  function HelperOpts(snapDir: Path, dir: Path): (r: RunOpts)
  {
    RunOpts(None, true, HostConfig(true, [Mount(Bind(snapDir), "/ss"), Mount(Bind(dir), "/state")], []))
  }

  function TarCmd(dir: Path, archive: string): (r: Cmd)
  {
    Run(HelperImage, Tar(archive), HelperOpts(SnapshotDir(dir), dir))
  }

  function UntarCmd(dir: Path, name: string): (r: Cmd)
  {
    Run(HelperImage, Untar(name), HelperOpts(SnapshotDir(dir), dir))
  }

  // ----- Provisioning plan -----

  /** `keys add 0` .. `keys add n-1`, in that order. */
  function KeysAdds(n: nat, opts: RunOpts): (r: seq<Cmd>)
    ensures |r| == n
  {
    if n == 0 then [] else KeysAdds(n - 1, opts) + [KeysAddCmd(n - 1, opts)]
  }

  /** `add-genesis-account 0` .. `add-genesis-account n-1`, in that order. */
  function FundAccounts(n: nat, balance: string, opts: RunOpts): (r: seq<Cmd>)
    ensures |r| == n
  {
    if n == 0 then [] else FundAccounts(n - 1, balance, opts) + [AddGenesisAccountCmd(n - 1, balance, opts)]
  }

  /** The accounts that `n` successful `keys add` calls from position `base`
      print, in order. */
  function Records(rec: nat -> Account, base: nat, n: nat): (r: seq<Account>)
    ensures |r| == n
  {
    if n == 0 then [] else Records(rec, base, n - 1) + [rec(base + n - 1)]
  }

  /** The project files after a provisioning stage: its first container
      creates the volume it mounts, and the accounts file changes only when
      the stage reached the write. */
  function Provisioned(fs: Fs, mounts: seq<Mount>, reached: bool, written: seq<Account>, ok: bool, torn: bool): (r: Fs)
  {
    Created(fs, mounts).(project := fs.project.(accountsFile :=
      if reached then AfterWrite(fs.project.accountsFile, written, ok, torn) else fs.project.accountsFile))
  }

  lemma {:induction false} KeysAddsAt(n: nat, opts: RunOpts)
    ensures |KeysAdds(n, opts)| == n
    ensures forall i :: 0 <= i < n ==> KeysAdds(n, opts)[i] == KeysAddCmd(i, opts)
  {
    if n > 0 {
      KeysAddsAt(n - 1, opts);
    }
  }

  lemma {:induction false} FundAccountsAt(n: nat, balance: string, opts: RunOpts)
    ensures |FundAccounts(n, balance, opts)| == n
    ensures forall i :: 0 <= i < n ==> FundAccounts(n, balance, opts)[i] == AddGenesisAccountCmd(i, balance, opts)
  {
    if n > 0 {
      FundAccountsAt(n - 1, balance, opts);
    }
  }

  /** The i-th loaded account is the record printed by the i-th call. */
  lemma {:induction false} RecordsAt(rec: nat -> Account, base: nat, n: nat)
    ensures |Records(rec, base, n)| == n
    ensures forall i :: 0 <= i < n ==> Records(rec, base, n)[i] == rec(base + i)
  {
    if n > 0 {
      RecordsAt(rec, base, n - 1);
    }
  }

  /** Fewer `keys add` calls issue a prefix of the same commands. */
  lemma {:induction false} KeysAddsPrefix(n: nat, m: nat, opts: RunOpts)
    requires m <= n
    ensures KeysAdds(n, opts)[..m] == KeysAdds(m, opts)
    decreases n
  {
    KeysAddsAt(n, opts);
    KeysAddsAt(m, opts);
  }

  lemma {:induction false} FundAccountsPrefix(n: nat, m: nat, balance: string, opts: RunOpts)
    requires m <= n
    ensures FundAccounts(n, balance, opts)[..m] == FundAccounts(m, balance, opts)
  {
    FundAccountsAt(n, balance, opts);
    FundAccountsAt(m, balance, opts);
  }

  /** The closing steps of a fresh provisioning: `gentx`, `collect-gentxs`
      and, for a persistent project, writing the accounts file. */
  function Closing(chain: string, opts: RunOpts, persistent: bool, dir: Path, written: seq<Account>): (r: seq<Cmd>)
    ensures |r| == ClosingLength(persistent)
  {
    [GentxCmd(chain, opts), CollectGentxsCmd(opts)]
    + (if persistent then [WriteAccounts(AccountsPath(dir), written)] else [])
  }

  /** Everything a fresh provisioning of `n` accounts issues when every
      call succeeds; `written` is the list the accounts file receives. */
  function FreshPlan(n: nat, balance: string, chain: string, opts: RunOpts,
                     persistent: bool, dir: Path, written: seq<Account>): (r: seq<Cmd>)
    ensures |r| == FreshLength(n, persistent)
    ensures r[|r| - 1].WriteAccounts? <==> persistent
  {
    KeysAdds(n, opts) + (FundAccounts(n, balance, opts) + Closing(chain, opts, persistent, dir, written))
  }

  function ClosingLength(persistent: bool): (r: nat)
  {
    2 + (if persistent then 1 else 0)
  }

  function FundingLength(n: nat, persistent: bool): (r: nat)
  {
    n + ClosingLength(persistent)
  }

  function FreshLength(n: nat, persistent: bool): (r: nat)
  {
    n + FundingLength(n, persistent)
  }

  /** What a fresh provisioning issues when the call at offset `k` is the
      first to fail (`k == FreshLength(n, persistent)` when none fails):
      each stage up to the failing call, that call included. */
  function FreshIssued(n: nat, balance: string, chain: string, opts: RunOpts,
                       persistent: bool, dir: Path, written: seq<Account>, k: nat): (r: seq<Cmd>)
  {
    if k < n then KeysAdds(k + 1, opts)
    else KeysAdds(n, opts) + FundingIssued(n, balance, chain, opts, persistent, dir, written, k - n)
  }

  /** The same for the stages after `keys add`, with `k` counted from the
      first `add-genesis-account`. */
  function FundingIssued(n: nat, balance: string, chain: string, opts: RunOpts,
                         persistent: bool, dir: Path, written: seq<Account>, k: nat): (r: seq<Cmd>)
  {
    if k < n then FundAccounts(k + 1, balance, opts)
    else FundAccounts(n, balance, opts) + ClosingIssued(chain, opts, persistent, dir, written, k - n)
  }

  /** The closing steps issued when the one at offset `k` is the first to
      fail: `gentx` always, each later step only when all before it
      succeeded. */
  function ClosingIssued(chain: string, opts: RunOpts, persistent: bool, dir: Path, written: seq<Account>, k: nat): (r: seq<Cmd>)
  {
    [GentxCmd(chain, opts)]
    + (if k >= 1 then [CollectGentxsCmd(opts)] else [])
    + (if k >= 2 && persistent then [WriteAccounts(AccountsPath(dir), written)] else [])
  }

  /** A fresh provisioning in terms of its two stages: the `keys add`
      loop, and what follows it only when every key was added. */
  lemma FreshStages(ok: nat -> bool, base: nat, n: nat, balance: string, chain: string, opts: RunOpts,
                    persistent: bool, dir: Path, written: seq<Account>)
    ensures var k1 := FirstFailure(ok, base, n);
      var k2 := FirstFailure(ok, base + n, FundingLength(n, persistent));
      var k := FirstFailure(ok, base, FreshLength(n, persistent));
      && k == (if k1 < n then k1 else n + k2)
      && Min(k, n) == k1
      && FreshIssued(n, balance, chain, opts, persistent, dir, written, k)
         == KeysAdds(Issued(k1, n), opts)
            + (if k1 < n then [] else FundingIssued(n, balance, chain, opts, persistent, dir, written, k2))
  {
    FirstFailureSplit(ok, base, n, FundingLength(n, persistent));
    var keys := KeysAdds(Issued(FirstFailure(ok, base, n), n), opts);
    assert keys + [] == keys;
  }

  /** Cutting a concatenation cuts the part the cut falls in. */
  lemma PrefixOfAppend<T>(a: seq<T>, b: seq<T>, m: nat)
    requires m <= |a| + |b|
    ensures m <= |a| ==> (a + b)[..m] == a[..m]
    ensures m >= |a| ==> (a + b)[..m] == a + b[..m - |a|]
  {
  }

  /** Two stages issued one after the other issue their concatenation. */
  lemma StagesCompose(t0: seq<Cmd>, t1: seq<Cmd>, t2: seq<Cmd>, first: seq<Cmd>, second: seq<Cmd>)
    requires t1 == t0 + first && t2 == t1 + second
    ensures t2 == t0 + (first + second)
  {
  }

  /** Provisioning after a stage that may already have created the volume
      leaves the same files as provisioning without it. */
  lemma ProvisionedAfterCreated(fs: Fs, mounts: seq<Mount>, reached: bool, written: seq<Account>, ok: bool, torn: bool)
    ensures Provisioned(Created(fs, mounts), mounts, reached, written, ok, torn)
         == Provisioned(fs, mounts, reached, written, ok, torn)
    ensures !reached ==> Provisioned(fs, mounts, reached, written, ok, torn) == Created(fs, mounts)
  {
  }

  /** What a provisioning run issues is a prefix of the fresh plan: the
      commands before the first failure and the failing one. */
  lemma FreshIssuedIsPrefix(n: nat, balance: string, chain: string, opts: RunOpts,
                            persistent: bool, dir: Path, written: seq<Account>, k: nat)
    requires k <= FreshLength(n, persistent)
    ensures var plan := FreshPlan(n, balance, chain, opts, persistent, dir, written);
      |plan| == FreshLength(n, persistent)
      && FreshIssued(n, balance, chain, opts, persistent, dir, written, k) == plan[..Issued(k, |plan|)]
  {
    var keys := KeysAdds(n, opts);
    var rest := FundAccounts(n, balance, opts) + Closing(chain, opts, persistent, dir, written);
    var m := Issued(k, FreshLength(n, persistent));
    PrefixOfAppend(keys, rest, m);
    if k < n {
      KeysAddsPrefix(n, k + 1, opts);
    } else {
      FundingIssuedIsPrefix(n, balance, chain, opts, persistent, dir, written, k - n);
    }
  }

  lemma FundingIssuedIsPrefix(n: nat, balance: string, chain: string, opts: RunOpts,
                              persistent: bool, dir: Path, written: seq<Account>, k: nat)
    requires k <= FundingLength(n, persistent)
    ensures var rest := FundAccounts(n, balance, opts) + Closing(chain, opts, persistent, dir, written);
      FundingIssued(n, balance, chain, opts, persistent, dir, written, k) == rest[..Issued(k, |rest|)]
  {
    var funds := FundAccounts(n, balance, opts);
    var closing := Closing(chain, opts, persistent, dir, written);
    var m := Issued(k, |funds| + |closing|);
    PrefixOfAppend(funds, closing, m);
    if k < n {
      FundAccountsPrefix(n, k + 1, balance, opts);
    } else {
      assert funds[..n] == funds;
      ClosingIssuedIsPrefix(chain, opts, persistent, dir, written, k - n);
    }
  }

  lemma ClosingIssuedIsPrefix(chain: string, opts: RunOpts, persistent: bool, dir: Path, written: seq<Account>, k: nat)
    requires k <= ClosingLength(persistent)
    ensures var c := Closing(chain, opts, persistent, dir, written);
      ClosingIssued(chain, opts, persistent, dir, written, k) == c[..Issued(k, |c|)]
  {
    var c := Closing(chain, opts, persistent, dir, written);
    if k == 0 {
      assert c[..1] == [GentxCmd(chain, opts)];
    } else if k == 1 {
      assert c[..2] == [GentxCmd(chain, opts), CollectGentxsCmd(opts)];
    } else {
      assert c[..|c|] == c;
    }
  }

  /** The fresh plan, position by position: `keys add i` for ascending i,
      then `add-genesis-account i` for ascending i, then `gentx`, then
      `collect-gentxs`, then (persistent only) the accounts file. */
  lemma FreshPlanOrder(n: nat, balance: string, chain: string, opts: RunOpts,
                       persistent: bool, dir: Path, written: seq<Account>)
    ensures var plan := FreshPlan(n, balance, chain, opts, persistent, dir, written);
      && |plan| == FreshLength(n, persistent)
      && (forall j :: 0 <= j < n ==> plan[j] == KeysAddCmd(j, opts))
      && (forall j :: n <= j < 2 * n ==> plan[j] == AddGenesisAccountCmd(j - n, balance, opts))
      && plan[2 * n] == GentxCmd(chain, opts)
      && plan[2 * n + 1] == CollectGentxsCmd(opts)
      && (persistent ==> plan[2 * n + 2] == WriteAccounts(AccountsPath(dir), written))
  {
    var plan := FreshPlan(n, balance, chain, opts, persistent, dir, written);
    var keys := KeysAdds(n, opts);
    var funds := FundAccounts(n, balance, opts);
    var closing := Closing(chain, opts, persistent, dir, written);
    KeysAddsAt(n, opts);
    FundAccountsAt(n, balance, opts);
    forall j | 0 <= j < n
      ensures plan[j] == KeysAddCmd(j, opts)
    {
      assert plan[j] == keys[j];
    }
    forall j | n <= j < 2 * n
      ensures plan[j] == AddGenesisAccountCmd(j - n, balance, opts)
    {
      assert plan[j] == (funds + closing)[j - n] == funds[j - n];
    }
    assert plan[2 * n] == (funds + closing)[n] == closing[0];
    assert plan[2 * n + 1] == (funds + closing)[n + 1] == closing[1];
    if persistent {
      assert plan[2 * n + 2] == (funds + closing)[n + 2] == closing[2];
    }
  }

  /** With the shared options network-isolated, `gentx` is the only command
      of the plan that runs with the network enabled. */
  lemma OnlyGentxOnNetwork(n: nat, balance: string, chain: string, opts: RunOpts,
                           persistent: bool, dir: Path, written: seq<Account>)
    requires opts.networkDisabled
    ensures var plan := FreshPlan(n, balance, chain, opts, persistent, dir, written);
      forall j :: 0 <= j < |plan| && plan[j].Run? ==> (plan[j].opts.networkDisabled <==> j != 2 * n)
  {
    FreshPlanOrder(n, balance, chain, opts, persistent, dir, written);
  }

  /** A provisioning run that stops at its first failure writes the accounts
      file exactly when the project is persistent and every `keys add`,
      `add-genesis-account`, `gentx` and `collect-gentxs` call succeeded. */
  lemma WrittenOnlyAfterCollect(n: nat, balance: string, chain: string, opts: RunOpts,
                                persistent: bool, dir: Path, written: seq<Account>,
                                ok: nat -> bool, base: nat)
    ensures var plan := FreshPlan(n, balance, chain, opts, persistent, dir, written);
      var issued := plan[..Issued(FirstFailure(ok, base, |plan|), |plan|)];
      (exists j :: 0 <= j < |issued| && issued[j].WriteAccounts?)
        <==> persistent && forall p :: base <= p < base + 2 * n + 2 ==> ok(p)
  {
    var plan := FreshPlan(n, balance, chain, opts, persistent, dir, written);
    FreshPlanOrder(n, balance, chain, opts, persistent, dir, written);
    var k := FirstFailure(ok, base, |plan|);
    FirstFailureSpec(ok, base, |plan|);
    var issued := plan[..Issued(k, |plan|)];
    assert forall j :: 0 <= j < |plan| && plan[j].WriteAccounts? ==> persistent && j == 2 * n + 2 by {
      forall j | 0 <= j < |plan| && plan[j].WriteAccounts?
        ensures persistent && j == 2 * n + 2
      {
      }
    }
    if persistent && forall p :: base <= p < base + 2 * n + 2 ==> ok(p) {
      assert k >= 2 * n + 2;
      assert issued[2 * n + 2].WriteAccounts?;
    }
    if exists j :: 0 <= j < |issued| && issued[j].WriteAccounts? {
      var j :| 0 <= j < |issued| && issued[j].WriteAccounts?;
      assert plan[j] == issued[j];
      assert j == 2 * n + 2;
      assert k >= 2 * n + 2;
    }
  }

  // ----- What `display_accounts` prints -----

  function AddressLine(a: Account, validator: bool): (r: string)
  {
    "(" + a.name + ") " + a.address + " " + (if validator then ValidatorMark else "")
  }

  function MnemonicLine(a: Account): (r: string)
  {
    "(" + a.name + ") " + a.mnemonic
  }

  function AddressLines(accounts: seq<Account>): (r: seq<string>)
  {
    seq(|accounts|, i requires 0 <= i < |accounts| => AddressLine(accounts[i], i == 0))
  }

  function MnemonicLines(accounts: seq<Account>): (r: seq<string>)
  {
    seq(|accounts|, i requires 0 <= i < |accounts| => MnemonicLine(accounts[i]))
  }

  function DisplayLines(accounts: seq<Account>): (r: seq<string>)
    ensures |r| == 4 + 2 * |accounts|
    ensures r[0] == "Available Accounts" && r[2 + |accounts|] == "\nMnemonics"
  {
    ["Available Accounts", Rule] + AddressLines(accounts) + ["\nMnemonics", Rule] + MnemonicLines(accounts)
  }

  predicate EndsWith(s: string, suffix: string)
  {
    |suffix| <= |s| && s[|s| - |suffix|..] == suffix
  }

  /** The listing shows every account twice in index order, and only the
      line of account 0 carries the validator mark. */
  lemma DisplayLinesLayout(accounts: seq<Account>, i: nat)
    requires i < |accounts|
    ensures DisplayLines(accounts)[2 + i] == AddressLine(accounts[i], i == 0)
    ensures DisplayLines(accounts)[4 + |accounts| + i] == MnemonicLine(accounts[i])
    ensures EndsWith(DisplayLines(accounts)[2 + i], ValidatorMark) <==> i == 0
  {
    var line := AddressLine(accounts[i], i == 0);
    if i != 0 {
      assert line[|line| - 1] == ' ';
      assert ValidatorMark[|ValidatorMark| - 1] == ')';
    }
  }

  /** Everything a lifecycle step can change, at one moment: the host's
      trace, files and accounts pane, and the object's mutable fields. */
  datatype World = World(trace: seq<Cmd>, fs: Fs, log: seq<string>,
                         accounts: seq<Account>, opts: RunOpts, pid: Option<int>)

  /** The devnet object of one run. */
  class Archwayd {
    const host: Host
    const projectId: string
    const projectDir: Path
    const chainId: string
    const isPersistent: bool
    const resetState: bool
    const isAppleSilicon: bool
    const binDir: Path

    var accounts: seq<Account>
    var pid: Option<int>
    var dockerOpts: RunOpts

    /** The node's mount never changes; the only change the shared options
        ever see is the RPC port binding the container start writes. */
    predicate Valid()
      reads this
    {
      dockerOpts == BaseOpts(isPersistent, projectDir)
      || dockerOpts == WithRpcBinding(BaseOpts(isPersistent, projectDir))
    }

    /** The current world. */
    ghost function Now(): World
      reads this, host
    {
      World(host.trace, host.fs, host.accountLog, accounts, dockerOpts, pid)
    }

    /** `load_config` as a relation between the world before and after. */
    ghost predicate LoadStep(w0: World, w1: World)
    {
      var f := w0.fs.project.accountsFile;
      w1 == w0.(accounts := if isPersistent && f.Parsed? && |f.accounts| > 0 then f.accounts else w0.accounts)
    }

    /** `init_genesis` as a relation; `ok` is false when `init` failed. */
    ghost predicate InitStep(w0: World, w1: World, ok: bool)
    {
      if w0.fs.project.genesis then ok && w1 == w0
      else
        && ok == host.succeeds(|w0.trace|)
        && w1 == w0.(trace := w0.trace + [InitCmd(projectId, chainId, w0.opts)],
                     fs := var f := Created(w0.fs, w0.opts.hostConfig.mounts);
                           if ok && isPersistent then f.(project := f.project.(genesis := true)) else f)
    }

    /** `generate_accounts` as a relation; `ok` is false when one of its
        calls failed. */
    ghost predicate GenerateStep(numAccounts: int, balance: string, w0: World, w1: World, ok: bool)
    {
      if w0.accounts != [] then ok && w1 == w0.(log := w0.log + DisplayLines(w0.accounts))
      else
        var n := Count(numAccounts);
        var base := |w0.trace|;
        var k := FirstFailure(host.succeeds, base, FreshLength(n, isPersistent));
        var made := Records(host.keyRecord, base, Min(k, n));
        && ok == (k == FreshLength(n, isPersistent))
        && w1 == w0.(trace := w0.trace + FreshIssued(n, balance, chainId, w0.opts, isPersistent, projectDir,
                                                      Records(host.keyRecord, base, n), k),
                     fs := Provisioned(w0.fs, w0.opts.hostConfig.mounts, isPersistent && k >= 2 * n + 2,
                                       made, ok, host.tornWrite(base + 2 * n + 2)),
                     accounts := made,
                     log := w0.log + (if ok then DisplayLines(made) else []))
    }

    /** `start_node` as a relation; `ok` is false when the reset failed. */
    ghost predicate StartStep(w0: World, w1: World, ok: bool)
    {
      && StartEffect(w0.trace, w0.opts, w0.pid, w1.trace, w1.opts, w1.pid, ok)
      && w1.fs == (if StartRuns(ok) then Created(w0.fs, w0.opts.hostConfig.mounts) else w0.fs)
      && w1.log == w0.log && w1.accounts == w0.accounts
    }

    constructor (host: Host, projectId: string, projectDir: Path, chainId: string,
                 isPersistent: bool, resetState: bool, isAppleSilicon: bool, installDir: Path)
      ensures Valid()
      ensures this.host == host && this.projectId == projectId && this.projectDir == projectDir
      ensures this.chainId == chainId && this.isPersistent == isPersistent
      ensures this.resetState == resetState && this.isAppleSilicon == isAppleSilicon
      ensures binDir == Resolve(installDir, ["bin"])
      ensures accounts == [] && pid == None
      ensures dockerOpts.hostConfig.mounts == [Mount(if isPersistent then Bind(projectDir) else Volume(VolumeName), NodeHome)]
      ensures dockerOpts.networkDisabled && dockerOpts.hostConfig.autoRemove
      ensures dockerOpts.name == None && dockerOpts.hostConfig.portBindings == []
    {
      this.host := host;
      this.projectId, this.projectDir, this.chainId := projectId, projectDir, chainId;
      this.isPersistent, this.resetState := isPersistent, resetState;
      this.isAppleSilicon := isAppleSilicon;
      binDir := Resolve(installDir, ["bin"]);
      accounts := [];
      pid := None;
      new;
      dockerOpts := RunOpts(None, true, HostConfig(true, [Mount(Volume(VolumeName), NodeHome)], []));
      if isPersistent {
        dockerOpts := dockerOpts.(hostConfig := dockerOpts.hostConfig.(mounts := [Mount(Bind(projectDir), NodeHome)]));
      }
    }

    /** Reads the persisted account list of a persistent project. */
    method LoadConfig()
      modifies this`accounts
      ensures LoadStep(old(Now()), Now())
      ensures !isPersistent ==> accounts == old(accounts)
      ensures isPersistent ==>
        var f := host.fs.project.accountsFile;
        accounts == if f.Parsed? && |f.accounts| > 0 then f.accounts else old(accounts)
    {
      if !isPersistent {
        return;
      }
      var f := host.fs.project.accountsFile;
      if f.Parsed? {
        if |f.accounts| > 0 {
          accounts := f.accounts;
        }
      }
    }

    /** Runs `init` unless `<project_dir>/config/genesis.json` exists. */
    method InitGenesis() returns (ok: bool)
      modifies host`trace, host`fs
      ensures InitStep(old(Now()), Now(), ok)
      ensures old(host.fs.project.genesis) ==> ok && host.trace == old(host.trace) && host.fs == old(host.fs)
      ensures !old(host.fs.project.genesis) ==>
        && host.trace == old(host.trace) + [InitCmd(projectId, chainId, dockerOpts)]
        && ok == host.succeeds(|old(host.trace)|)
        && host.fs == var f := Created(old(host.fs), dockerOpts.hostConfig.mounts);
                      if ok && isPersistent then f.(project := f.project.(genesis := true)) else f
    {
      if host.fs.project.genesis {
        return true;
      }
      ok := host.Issue(InitCmd(projectId, chainId, dockerOpts));
      if ok && isPersistent {
        // `init` writes config/genesis.json under its home, the bind-mounted project directory
        host.fs := host.fs.(project := host.fs.project.(genesis := true));
      }
    }

    /** Prints the account listing to the accounts pane. */
    method DisplayAccounts(list: seq<Account>)
      modifies host`accountLog
      ensures host.accountLog == old(host.accountLog) + DisplayLines(list)
    {
      host.accountLog := host.accountLog + ["Available Accounts", Rule];
      var idx := 0;
      while idx < |list|
        invariant 0 <= idx <= |list|
        invariant host.accountLog == old(host.accountLog) + ["Available Accounts", Rule] + AddressLines(list)[..idx]
      {
        assert AddressLines(list)[..idx + 1] == AddressLines(list)[..idx] + [AddressLine(list[idx], idx == 0)];
        host.accountLog := host.accountLog + [AddressLine(list[idx], idx == 0)];
        idx := idx + 1;
      }
      assert AddressLines(list)[..idx] == AddressLines(list);
      host.accountLog := host.accountLog + ["\nMnemonics", Rule];
      ghost var before := host.accountLog;
      idx := 0;
      while idx < |list|
        invariant 0 <= idx <= |list|
        invariant host.accountLog == before + MnemonicLines(list)[..idx]
      {
        assert MnemonicLines(list)[..idx + 1] == MnemonicLines(list)[..idx] + [MnemonicLine(list[idx])];
        host.accountLog := host.accountLog + [MnemonicLine(list[idx])];
        idx := idx + 1;
      }
      assert MnemonicLines(list)[..idx] == MnemonicLines(list);
    }

    /** The first loop of provisioning: `keys add i` for ascending i, each
        printed account appended to `accounts`, until a call fails. */
    method AddKeys(n: nat) returns (ok: bool)
      modifies this`accounts, host`trace, host`fs
      ensures var base := |old(host.trace)|;
        var k := FirstFailure(host.succeeds, base, n);
        && host.trace == old(host.trace) + KeysAdds(Issued(k, n), dockerOpts)
        && host.fs == (if n > 0 then Created(old(host.fs), dockerOpts.hostConfig.mounts) else old(host.fs))
        && accounts == old(accounts) + Records(host.keyRecord, base, k)
        && ok == (k == n)
    {
      ghost var base := |host.trace|;
      var i := 0;
      while i < n
        invariant 0 <= i <= n
        invariant host.trace == old(host.trace) + KeysAdds(i, dockerOpts)
        invariant |host.trace| == base + i
        invariant accounts == old(accounts) + Records(host.keyRecord, base, i)
        invariant host.fs == if i > 0 then Created(old(host.fs), dockerOpts.hostConfig.mounts) else old(host.fs)
        invariant forall p :: base <= p < base + i ==> host.succeeds(p)
      {
        var at := |host.trace|;
        ok := host.Issue(KeysAddCmd(i, dockerOpts));
        assert KeysAdds(i + 1, dockerOpts) == KeysAdds(i, dockerOpts) + [KeysAddCmd(i, dockerOpts)];
        if !ok {
          FirstFailureIs(host.succeeds, base, n, i);
          return;
        }
        accounts := accounts + [host.keyRecord(at)];  // the record the call printed
        assert Records(host.keyRecord, base, i + 1) == Records(host.keyRecord, base, i) + [host.keyRecord(at)];
        i := i + 1;
      }
      FirstFailureIs(host.succeeds, base, n, n);
      ok := true;
    }

    /** The second loop of provisioning: `add-genesis-account i` for
        ascending i, until a call fails. */
    method AddGenesisAccounts(n: nat, balance: string) returns (ok: bool)
      modifies host`trace, host`fs
      ensures var k := FirstFailure(host.succeeds, |old(host.trace)|, n);
        && host.trace == old(host.trace) + FundAccounts(Issued(k, n), balance, dockerOpts)
        && host.fs == (if n > 0 then Created(old(host.fs), dockerOpts.hostConfig.mounts) else old(host.fs))
        && ok == (k == n)
    {
      ghost var base := |host.trace|;
      var i := 0;
      while i < n
        invariant 0 <= i <= n
        invariant host.trace == old(host.trace) + FundAccounts(i, balance, dockerOpts)
        invariant |host.trace| == base + i
        invariant host.fs == if i > 0 then Created(old(host.fs), dockerOpts.hostConfig.mounts) else old(host.fs)
        invariant forall p :: base <= p < base + i ==> host.succeeds(p)
      {
        ok := host.Issue(AddGenesisAccountCmd(i, balance, dockerOpts));
        assert FundAccounts(i + 1, balance, dockerOpts) == FundAccounts(i, balance, dockerOpts) + [AddGenesisAccountCmd(i, balance, dockerOpts)];
        if !ok {
          FirstFailureIs(host.succeeds, base, n, i);
          return;
        }
        i := i + 1;
      }
      FirstFailureIs(host.succeeds, base, n, n);
      ok := true;
    }

    /** Provisions `numAccounts` accounts unless some are already loaded. */
    method GenerateAccounts(numAccounts: int, balance: string) returns (ok: bool)
      modifies this`accounts, host`trace, host`fs, host`accountLog
      ensures GenerateStep(numAccounts, balance, old(Now()), Now(), ok)
    {
      if accounts != [] {
        DisplayAccounts(accounts);
        return true;
      }
      // the loops run while i < numAccounts: none for a negative count
      ok := Provision(Count(numAccounts), balance);
      if ok {
        DisplayAccounts(accounts);
      }
    }

    /** A fresh provisioning: `keys add`, `add-genesis-account`, then the
        closing steps, stopping at the first call that fails. */
    method Provision(n: nat, balance: string) returns (ok: bool)
      requires accounts == []
      modifies this`accounts, host`trace, host`fs
      ensures var base := |old(host.trace)|;
        var k := FirstFailure(host.succeeds, base, FreshLength(n, isPersistent));
        && host.trace == old(host.trace) + FreshIssued(n, balance, chainId, dockerOpts, isPersistent, projectDir,
                                                       Records(host.keyRecord, base, n), k)
        && ok == (k == FreshLength(n, isPersistent))
        && accounts == Records(host.keyRecord, base, Min(k, n))
        && host.fs == Provisioned(old(host.fs), dockerOpts.hostConfig.mounts, isPersistent && k >= 2 * n + 2,
                                  accounts, ok, host.tornWrite(base + 2 * n + 2))
    {
      ghost var base := |host.trace|;
      ok := KeysThenFunding(n, balance);
      FreshStages(host.succeeds, base, n, balance, chainId, dockerOpts, isPersistent, projectDir,
                  Records(host.keyRecord, base, n));
    }

    /** Provisioning stage by stage: the `keys add` loop, then, only when
        every key was added, the stages after it. */
    method KeysThenFunding(n: nat, balance: string) returns (ok: bool)
      requires accounts == []
      modifies this`accounts, host`trace, host`fs
      ensures var base := |old(host.trace)|;
        var k1 := FirstFailure(host.succeeds, base, n);
        var k2 := FirstFailure(host.succeeds, base + n, FundingLength(n, isPersistent));
        && host.trace == old(host.trace) + (KeysAdds(Issued(k1, n), dockerOpts)
             + (if k1 < n then [] else FundingIssued(n, balance, chainId, dockerOpts, isPersistent, projectDir,
                                                     Records(host.keyRecord, base, n), k2)))
        && ok == (k1 == n && k2 == FundingLength(n, isPersistent))
        && accounts == Records(host.keyRecord, base, k1)
        && host.fs == Provisioned(old(host.fs), dockerOpts.hostConfig.mounts, isPersistent && k1 == n && k2 >= n + 2,
                                  accounts, ok, host.tornWrite(base + 2 * n + 2))
    {
      ghost var base := |host.trace|;
      ghost var t0, f0 := host.trace, host.fs;
      ok := AddKeys(n);
      ghost var k1 := FirstFailure(host.succeeds, base, n);
      ghost var t1, f1 := host.trace, host.fs;
      assert [] + accounts == accounts;
      if ok {
        assert k1 == n && |t1| == base + n;
        ok := FundAndClose(n, balance);
        ghost var k2 := FirstFailure(host.succeeds, base + n, FundingLength(n, isPersistent));
        ghost var rest := FundingIssued(n, balance, chainId, dockerOpts, isPersistent, projectDir, accounts, k2);
        StagesCompose(t0, t1, host.trace, KeysAdds(n, dockerOpts), rest);
        assert accounts == Records(host.keyRecord, base, n);
        assert Issued(k1, n) == n;
        assert host.trace == t0 + (KeysAdds(Issued(k1, n), dockerOpts)
             + (if k1 < n then [] else FundingIssued(n, balance, chainId, dockerOpts, isPersistent, projectDir,
                                                     Records(host.keyRecord, base, n), k2)));
        assert |t1| + n + 2 == base + 2 * n + 2;
        ghost var reached := isPersistent && k1 == n && k2 >= n + 2;
        assert host.fs == Provisioned(f1, dockerOpts.hostConfig.mounts, reached, accounts, ok, host.tornWrite(base + 2 * n + 2));
        ProvisionedAfterCreated(f0, dockerOpts.hostConfig.mounts, reached, accounts, ok, host.tornWrite(base + 2 * n + 2));
      } else {
        ghost var keys := KeysAdds(Issued(k1, n), dockerOpts);
        assert keys + [] == keys;
        assert k1 < n;
        assert f1 == Created(f0, dockerOpts.hostConfig.mounts);
        assert host.trace == t0 + (keys + []);
        ProvisionedAfterCreated(f0, dockerOpts.hostConfig.mounts, false, accounts, ok, false);
      }
    }

    /** The stages after `keys add`: `add-genesis-account` for every
        account, then the closing steps. */
    method FundAndClose(n: nat, balance: string) returns (ok: bool)
      modifies host`trace, host`fs
      ensures var base := |old(host.trace)|;
        var k := FirstFailure(host.succeeds, base, FundingLength(n, isPersistent));
        && host.trace == old(host.trace) + FundingIssued(n, balance, chainId, dockerOpts, isPersistent, projectDir, accounts, k)
        && ok == (k == FundingLength(n, isPersistent))
        && host.fs == Provisioned(old(host.fs), dockerOpts.hostConfig.mounts, isPersistent && k >= n + 2,
                                  accounts, ok, host.tornWrite(base + n + 2))
    {
      ghost var base := |host.trace|;
      ghost var f0 := host.fs;
      FirstFailureSplit(host.succeeds, base, n, ClosingLength(isPersistent));
      ok := AddGenesisAccounts(n, balance);
      if ok {
        ghost var mid, f1 := host.trace, host.fs;
        ok := Conclude();
        ghost var k := FirstFailure(host.succeeds, base, FundingLength(n, isPersistent));
        ghost var funds := FundAccounts(n, balance, dockerOpts);
        ghost var closing := ClosingIssued(chainId, dockerOpts, isPersistent, projectDir, accounts,
                                           FirstFailure(host.succeeds, |mid|, ClosingLength(isPersistent)));
        StagesCompose(old(host.trace), mid, host.trace, funds, closing);
        ghost var reached := isPersistent && k >= n + 2;
        assert host.fs == Provisioned(f1, dockerOpts.hostConfig.mounts, reached, accounts, ok, host.tornWrite(base + n + 2));
        ProvisionedAfterCreated(f0, dockerOpts.hostConfig.mounts, reached, accounts, ok, host.tornWrite(base + n + 2));
      } else {
        ProvisionedAfterCreated(f0, dockerOpts.hostConfig.mounts, false, accounts, ok, false);
      }
    }

    /** The closing steps of provisioning: `gentx` (the one call with the
        network enabled), `collect-gentxs` and, for a persistent project,
        writing the loaded accounts to the accounts file. */
    method Conclude() returns (ok: bool)
      modifies host`trace, host`fs
      ensures var base := |old(host.trace)|;
        var k := FirstFailure(host.succeeds, base, ClosingLength(isPersistent));
        && host.trace == old(host.trace) + ClosingIssued(chainId, dockerOpts, isPersistent, projectDir, accounts, k)
        && ok == (k == ClosingLength(isPersistent))
        && host.fs == Provisioned(old(host.fs), dockerOpts.hostConfig.mounts, isPersistent && k >= 2,
                                  accounts, ok, host.tornWrite(base + 2))
    {
      ghost var base := |host.trace|;
      ghost var len := ClosingLength(isPersistent);
      ok := host.Issue(GentxCmd(chainId, dockerOpts));
      if !ok {
        FirstFailureIs(host.succeeds, base, len, 0);
        return;
      }
      ok := host.Issue(CollectGentxsCmd(dockerOpts));
      if !ok {
        FirstFailureIs(host.succeeds, base, len, 1);
        return;
      }
      if !isPersistent {
        FirstFailureIs(host.succeeds, base, len, 2);
        return;
      }
      // a plain write, not atomic: a failure can leave the file cut off
      var at := |host.trace|;
      ok := host.Issue(WriteAccounts(AccountsPath(projectDir), accounts));
      host.fs := host.fs.(project := host.fs.project.(accountsFile :=
        AfterWrite(host.fs.project.accountsFile, accounts, ok, host.tornWrite(at))));
      FirstFailureIs(host.succeeds, base, len, if ok then 3 else 2);
    }

    /** Whether the node runs natively rather than in a container. */
    predicate Native()
    {
      isAppleSilicon && isPersistent
    }

    /** Whether `start_node` creates a container: the reset one-shot, or the
        node container itself. */
    predicate StartRuns(ok: bool)
    {
      (isPersistent && resetState) || (ok && !Native())
    }

    /** The command that launches the node, given the shared options. */
    function LaunchCmd(o: RunOpts): (r: Cmd)
    {
      if Native() then NativeStartCmd(binDir, projectId, projectDir) else ContainerStartCmd(projectId, o)
    }

    /** What `start_node` issues: the reset (when asked for, on a persistent
        project), then the launch unless the reset failed. */
    function StartSteps(o: RunOpts, ok: bool): (r: seq<Cmd>)
    {
      (if isPersistent && resetState then [ResetCmd(o)] else []) + (if ok then [LaunchCmd(o)] else [])
    }

    /** What `start_node` does, as a relation between the trace, options and
        pid before (`t0`, `o0`, `p0`) and after (`t1`, `o1`, `p1`). */
    ghost predicate StartEffect(t0: seq<Cmd>, o0: RunOpts, p0: Option<int>,
                                t1: seq<Cmd>, o1: RunOpts, p1: Option<int>, ok: bool)
    {
      var resets := isPersistent && resetState;
      && ok == (!resets || host.succeeds(|t0|))
      && t1 == t0 + StartSteps(o0, ok)
      && o1 == (if ok && !Native() then WithRpcBinding(o0) else o0)
      && p1 == (if ok && Native() then host.spawnedPid(|t0| + (if resets then 1 else 0)) else p0)
    }

    /** Starts the node: the native binary on a persistent Apple-silicon
        host, the container otherwise. */
    method StartNode() returns (ok: bool)
      requires Valid()
      modifies this`pid, this`dockerOpts, host`trace, host`fs
      ensures Valid()
      ensures StartEffect(old(host.trace), old(dockerOpts), old(pid), host.trace, dockerOpts, pid, ok)
      ensures host.fs == if StartRuns(ok) then Created(old(host.fs), old(dockerOpts).hostConfig.mounts) else old(host.fs)
      ensures StartStep(old(Now()), Now(), ok)
    {
      if isPersistent && resetState {
        ok := host.Issue(ResetCmd(dockerOpts));
        if !ok {
          return;
        }
      }
      ok := true;
      if Native() {
        var at := |host.trace|;
        var _ := host.Issue(NativeStartCmd(binDir, projectId, projectDir));
        pid := host.spawnedPid(at);
        // the exit handler's `this` is not the object, so pid is never cleared
      } else {
        var opts := dockerOpts;
        // the shallow copy shares HostConfig: the binding lands in dockerOpts too
        dockerOpts := WithRpcBinding(dockerOpts);
        var _ := host.Issue(ContainerStartCmd(projectId, opts));
      }
    }

    /** Stops the node: a signal to the recorded pid, or stopping the
        container and, for a temporary project, removing its volume. */
    method StopNode() returns (ok: bool)
      modifies host`trace, host`fs
      ensures pid == old(pid)
      ensures ok == host.succeeds(|old(host.trace)|)
      ensures var removes := !PidSet(pid) && ok && !isPersistent && old(host.fs.volumeExists);
        && host.trace == old(host.trace) + [StopCmd(pid)] + (if removes then [RemoveVolume(VolumeName)] else [])
        && host.fs == if removes && host.succeeds(|old(host.trace)| + 1) then old(host.fs).(volumeExists := false)
                      else old(host.fs)
    {
      if PidSet(pid) {
        ok := host.Issue(Kill(pid.value, "SIGINT"));
        return;
      }
      ok := host.Issue(StopContainer(ContainerName));
      if !ok {
        return;
      }
      if !isPersistent && host.fs.volumeExists {
        // remove_volume logs a failed removal and carries on
        var removed := host.Issue(RemoveVolume(VolumeName));
        if removed {
          host.fs := host.fs.(volumeExists := false);
        }
      }
    }

    /** Archives the project directory of a persistent project, stopping
        the node first and starting it again whatever happened. */
    method Snapshot(stamp: string) returns (ok: bool)
      requires Valid()
      modifies this`pid, this`dockerOpts, host`trace, host`fs
      ensures Valid()
      ensures !isPersistent ==>
        ok && host.trace == old(host.trace) && host.fs == old(host.fs) && pid == old(pid) && dockerOpts == old(dockerOpts)
      ensures isPersistent ==>
        var base := |old(host.trace)|;
        var stopped := host.succeeds(base);
        var archived := stopped && host.succeeds(base + 1) && host.succeeds(base + 2);
        var steps := [StopCmd(old(pid))]
                     + (if stopped then ArchiveSteps(projectDir, ArchiveName(projectId, stamp), host.succeeds(base + 1)) else []);
        && StartEffect(old(host.trace) + steps, old(dockerOpts), old(pid), host.trace, dockerOpts, pid, ok)
        && host.fs == if archived then old(host.fs).(snapshots := old(host.fs.snapshots)[ArchiveName(projectId, stamp) := old(host.fs.project)])
                      else old(host.fs)
    {
      if !isPersistent {
        return true;
      }
      StopAndArchive(ArchiveName(projectId, stamp));
      ValidOpts(this);
      ok := StartNode();
    }

    /** The part of a snapshot before the restart: stop the node and, if
        that worked, archive the project directory. */
    method StopAndArchive(archive: string)
      requires isPersistent
      modifies host`trace, host`fs
      ensures var base := |old(host.trace)|;
        var stopped := host.succeeds(base);
        && host.trace == old(host.trace) + ([StopCmd(pid)]
             + (if stopped then ArchiveSteps(projectDir, archive, host.succeeds(base + 1)) else []))
        && host.fs == if stopped && host.succeeds(base + 1) && host.succeeds(base + 2)
                      then old(host.fs).(snapshots := old(host.fs.snapshots)[archive := old(host.fs.project)])
                      else old(host.fs)
    {
      var stopped := StopNode();
      if stopped {
        Archive(archive);
      }
    }

    /** The commands of an archive run: the snapshot directory is created,
        then (if that worked) the tar helper runs. */
    static function ArchiveSteps(dir: Path, archive: string, made: bool): (r: seq<Cmd>)
    {
      [MakeDir(SnapshotDir(dir))] + (if made then [TarCmd(dir, archive)] else [])
    }

    /** Creates the snapshot directory and archives the project directory
        into it; a successful archive records the current project state. */
    method Archive(archive: string)
      modifies host`trace, host`fs
      ensures var base := |old(host.trace)|;
        && host.trace == old(host.trace) + ArchiveSteps(projectDir, archive, host.succeeds(base))
        && host.fs == if host.succeeds(base) && host.succeeds(base + 1)
                      then old(host.fs).(snapshots := old(host.fs.snapshots)[archive := old(host.fs.project)])
                      else old(host.fs)
    {
      var made := host.Issue(MakeDir(SnapshotDir(projectDir)));
      if made {
        var archived := host.Issue(TarCmd(projectDir, archive));
        if archived {
          host.fs := host.fs.(snapshots := host.fs.snapshots[archive := host.fs.project]);
        }
      }
    }

    /** Replaces the project directory of a persistent project by the
        contents of the named archive; the node is not started. */
    method Restore(name: string)
      modifies host`trace, host`fs
      ensures !isPersistent ==> host.trace == old(host.trace) && host.fs == old(host.fs)
      ensures isPersistent ==>
        && host.trace == old(host.trace) + [UntarCmd(projectDir, name)]
        && host.fs == if host.succeeds(|old(host.trace)|) && name in old(host.fs.snapshots)
                      then old(host.fs).(project := old(host.fs.snapshots)[name])
                      else old(host.fs)
    {
      if !isPersistent {
        return;
      }
      var restored := host.Issue(UntarCmd(projectDir, name));
      // a failure the runtime reports is logged and swallowed
      if restored && name in host.fs.snapshots {
        host.fs := host.fs.(project := host.fs.snapshots[name]);
      }
    }
  }

  // ----- Properties of the lifecycle steps -----

  /** `init_genesis` twice on a persistent project: once `init` has
      succeeded the second call issues nothing, so over both calls `init`
      is issued at most once unless the first attempt failed. */
  lemma GenesisOnce(node: Archwayd, w0: World, w1: World, w2: World, ok1: bool, ok2: bool)
    requires node.isPersistent
    requires node.InitStep(w0, w1, ok1) && node.InitStep(w1, w2, ok2)
    ensures w0.fs.project.genesis ==> w2 == w0 && ok1 && ok2
    ensures ok1 ==> w2 == w1 && ok2
    ensures ok1 && !w0.fs.project.genesis ==>
      w2.trace == w0.trace + [InitCmd(node.projectId, node.chainId, w0.opts)]
    ensures !ok1 ==> w2.trace == w0.trace + [InitCmd(node.projectId, node.chainId, w0.opts)] + [InitCmd(node.projectId, node.chainId, w0.opts)]
  {
  }

  /** A `keys add` that fails at index `k` ends provisioning with the `k`
      accounts already printed held in memory, the `k + 1` key commands
      issued and nothing else: no funding, no file, no listing. */
  lemma KeyFailureLeavesPartial(node: Archwayd, numAccounts: int, balance: string, w0: World, w1: World, ok: bool, k: nat)
    requires w0.accounts == []
    requires node.GenerateStep(numAccounts, balance, w0, w1, ok)
    requires k < numAccounts
    requires forall p :: |w0.trace| <= p < |w0.trace| + k ==> node.host.succeeds(p)
    requires !node.host.succeeds(|w0.trace| + k)
    ensures !ok
    ensures w1.accounts == Records(node.host.keyRecord, |w0.trace|, k) && |w1.accounts| == k
    ensures w1.trace == w0.trace + KeysAdds(k + 1, w0.opts)
    ensures w1.fs == Created(w0.fs, w0.opts.hostConfig.mounts)
    ensures w1.log == w0.log && w1.opts == w0.opts && w1.pid == w0.pid
  {
    var n := Count(numAccounts);
    FirstFailureIs(node.host.succeeds, |w0.trace|, FreshLength(n, node.isPersistent), k);
  }

  /** A fresh provisioning, from the outcome of its calls: on success the
      trace gains exactly the fresh plan, the accounts are the `n` printed
      records in order and are listed; on failure nothing is listed; the
      accounts file changes only on a persistent project once every call up
      to `collect-gentxs` has succeeded, and then holds the full list
      exactly when the write succeeded. */
  lemma FreshGeneration(node: Archwayd, numAccounts: int, balance: string, w0: World, w1: World, ok: bool)
    requires w0.accounts == []
    requires node.GenerateStep(numAccounts, balance, w0, w1, ok)
    ensures var n := Count(numAccounts);
      var base := |w0.trace|;
      var plan := FreshPlan(n, balance, node.chainId, w0.opts, node.isPersistent, node.projectDir,
                            Records(node.host.keyRecord, base, n));
      && |w0.trace| <= |w1.trace| <= |w0.trace| + |plan|
      && w1.trace == w0.trace + plan[..|w1.trace| - |w0.trace|]
      && (ok <==> w1.trace == w0.trace + plan && forall p :: base <= p < base + |plan| ==> node.host.succeeds(p))
      && |w1.accounts| <= n
      && (ok ==> |w1.accounts| == n && forall i :: 0 <= i < n ==> w1.accounts[i] == node.host.keyRecord(base + i))
      && w1.log == w0.log + (if ok then DisplayLines(w1.accounts) else [])
      && (w1.fs.project.accountsFile != w0.fs.project.accountsFile ==>
            node.isPersistent && forall p :: base <= p < base + 2 * n + 2 ==> node.host.succeeds(p))
      && (node.isPersistent && ok ==> w1.fs.project.accountsFile == Parsed(w1.accounts))
      && (w1.fs.project.accountsFile == w0.fs.project.accountsFile || w1.fs.project.accountsFile == Malformed
          || w1.fs.project.accountsFile == Parsed(Records(node.host.keyRecord, base, n)))
      && w1.fs.project.genesis == w0.fs.project.genesis && w1.fs.snapshots == w0.fs.snapshots
      && (w1.fs.volumeExists <==> w0.fs.volumeExists || MountsVolume(w0.opts.hostConfig.mounts))
  {
    var n := Count(numAccounts);
    var base := |w0.trace|;
    var written := Records(node.host.keyRecord, base, n);
    var len := FreshLength(n, node.isPersistent);
    var k := FirstFailure(node.host.succeeds, base, len);
    FirstFailureSpec(node.host.succeeds, base, len);
    FreshIssuedIsPrefix(n, balance, node.chainId, w0.opts, node.isPersistent, node.projectDir, written, k);
    RecordsAt(node.host.keyRecord, base, Min(k, n));
    var plan := FreshPlan(n, balance, node.chainId, w0.opts, node.isPersistent, node.projectDir, written);
    if w1.trace == w0.trace + plan {
      assert Issued(k, |plan|) == |plan|;
    }
    if ok {
      assert plan[..|plan|] == plan;
    }
  }

  /** The container start writes the RPC binding into the shared options,
      so every later one-shot run of this object (`init`, `keys add`,
      `unsafe-reset-all`, ...) carries it; mounts, network flag and name
      are untouched. A native start leaves the options alone. */
  lemma BindingLeaks(node: Archwayd, w0: World, w1: World, ok: bool)
    requires node.StartStep(w0, w1, ok)
    ensures ok && !node.Native() ==>
      && w1.opts.hostConfig.portBindings == [RpcBinding]
      && w1.opts.hostConfig.mounts == w0.opts.hostConfig.mounts
      && w1.opts.networkDisabled == w0.opts.networkDisabled && w1.opts.name == w0.opts.name
    ensures !ok || node.Native() ==> w1.opts == w0.opts
  {
  }

  /** The object's shared options keep the node's mount and stay
      network-isolated; the port binding is the only thing that ever changes
      in them. So the plan lemmas, which assume isolated options, apply to
      the object, and its one-shot runs create the named volume exactly on a
      temporary project. */
  lemma ValidOpts(node: Archwayd)
    requires node.Valid()
    ensures node.dockerOpts.networkDisabled && node.dockerOpts.name == None && node.dockerOpts.hostConfig.autoRemove
    ensures node.dockerOpts.hostConfig.mounts == NodeMounts(node.isPersistent, node.projectDir)
    ensures MountsVolume(node.dockerOpts.hostConfig.mounts) <==> !node.isPersistent
  {
    var m := node.dockerOpts.hostConfig.mounts;
    if node.isPersistent {
      assert forall i :: 0 <= i < |m| ==> m[i] == Mount(Bind(node.projectDir), NodeHome);
    } else {
      assert m[0].source.Volume?;
    }
  }

  /** `pid` is never cleared: the exit handler's `this` is not the object,
      and `stop_node` only signals. So once a pid is recorded, every later
      stop signals that same process again, and none stops the container or
      removes the volume. */
  method PidNeverCleared(node: Archwayd) returns (ok1: bool, ok2: bool)
    requires PidSet(node.pid)
    modifies node.host`trace, node.host`fs
    ensures node.pid == old(node.pid)
    ensures node.host.trace == old(node.host.trace) + [Kill(old(node.pid).value, "SIGINT"), Kill(old(node.pid).value, "SIGINT")]
    ensures node.host.fs == old(node.host.fs)
  {
    ok1 := node.StopNode();
    ok2 := node.StopNode();
  }

  /** Distinct key indices give distinct `keys add` and
      `add-genesis-account` arguments. */
  lemma KeyArgsDistinct(i: nat, j: nat, balance: string)
    requires i != j
    ensures Argv(KeysAdd(i)) != Argv(KeysAdd(j))
    ensures Argv(AddGenesisAccount(i, balance)) != Argv(AddGenesisAccount(j, balance))
  {
    NatTextInjective(i, j);
    assert Argv(KeysAdd(i))[2] != Argv(KeysAdd(j))[2];
    assert Argv(AddGenesisAccount(i, balance))[1] != Argv(AddGenesisAccount(j, balance))[1];
  }

  /** The restart round trip of a persistent project: a provisioning of at
      least one account that succeeded leaves the file holding the list;
      the next run's fresh object loads exactly that list, and its
      `generate_accounts` then issues nothing, changes no file and keeps
      the list, only listing it. A provisioning of no accounts writes `[]`,
      which `load_config` ignores, so the next run provisions again. */
  lemma RestartKeepsAccounts(node: Archwayd, numAccounts: int, balance: string, w0: World, w1: World,
                             next: Archwayd, v0: World, v1: World, numAccounts2: int, balance2: string,
                             v2: World, ok2: bool)
    requires node.isPersistent && next.isPersistent
    requires w0.accounts == [] && node.GenerateStep(numAccounts, balance, w0, w1, true)
    requires v0.accounts == [] && v0.fs.project.accountsFile == w1.fs.project.accountsFile
    requires next.LoadStep(v0, v1) && next.GenerateStep(numAccounts2, balance2, v1, v2, ok2)
    ensures numAccounts >= 1 ==>
      && v1.accounts == w1.accounts && |v1.accounts| == numAccounts
      && ok2 && v2.trace == v1.trace && v2.fs == v1.fs && v2.accounts == w1.accounts
      && v2.log == v1.log + DisplayLines(w1.accounts)
    ensures numAccounts < 1 ==> w1.fs.project.accountsFile == Parsed([]) && v1.accounts == []
  {
    FreshGeneration(node, numAccounts, balance, w0, w1, true);
  }

  /** Where a snapshot goes: the helper container mounts the `.snapshots`
      sibling of the project directory on `/ss` and the project directory on
      `/state`, and `tar` writes `/ss/<project_id>_<stamp>.tar`. */
  lemma ArchiveLocation(dir: Path, id: string, stamp: string)
    requires dir != []
    ensures var c := TarCmd(dir, ArchiveName(id, stamp));
      && c.image == HelperImage && c.opts.networkDisabled
      && c.opts.hostConfig.mounts == [Mount(Bind(dir[..|dir| - 1] + [".snapshots"]), "/ss"), Mount(Bind(dir), "/state")]
      && Argv(c.step)[2] == "/ss/" + id + "_" + stamp + ".tar"
      && Argv(c.step)[3] == "/state"
  {
    SiblingOf(dir, ".snapshots");
  }
}
