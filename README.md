# spinarch devnet lifecycle, modelled in Dafny

spinarch brings up a single-node Archway development network. It starts a
validator node, either in a container or as a native process. It generates
funded test accounts and keeps or discards the chain state across runs.
The lifecycle object also defines stopping the node and taking and
restoring snapshots, but the entry point never calls them.

This project models the lifecycle object `Archwayd` (`archwayd.js`) and the
startup logic of the entry point (`index.js`) that drives it:

- `paths.dfy` (`Paths`): host paths as lists of segments, and the part of
  `path.resolve` the devnet uses.
- `runtime.dfy` (`Runtime`): the outside world. The container runtime, the
  node binary, the process table and the file system are a `Host` object.
  It holds an append-only trace of the commands issued (`seq<Cmd>`, each
  command with its arguments, network flag and mounts) and the few host
  facts the lifecycle reads: whether `config/genesis.json` exists, the
  contents of `spinarch_accounts.json`, the archived snapshots, and whether
  the volume and image exist. Every container run that mounts the named
  volume re-creates it, as the container runtime does. Per-call oracles,
  indexed by trace position, decide whether each call succeeds, which
  account record a `keys add` prints, which pid a spawn reports, and
  whether a failed accounts write left the file cut off.
- `lifecycle.dfy` (`Lifecycle`): `class Archwayd` with the mutable fields
  `accounts`, `pid` and `dockerOpts` (the shared run options), and its
  methods `LoadConfig`, `InitGenesis`, `DisplayAccounts`,
  `GenerateAccounts`, `StartNode`, `StopNode`, `Snapshot` and `Restore`.
  Each method's contract states the exact commands appended to the trace
  and the new fields. Beside the class, each step is also a relation
  between worlds (`LoadStep`, `InitStep`, `GenerateStep`, `StartStep`).
  The fresh-provisioning plan is a function of the inputs. Lemmas state
  what the source promises about each of them.
- `cli.dfy` (`Cli`): project-id sanitising, the persistence flag, the
  project directory, the account-count check, the startup sequence, and
  the latched Ctrl-C hotkey.

The model keeps these behaviours of the code as they are:

- The entry point never calls `stop_node`, `snapshot` or `restore`.
  The node announces "Ctrl-S to take snapshot, Ctrl-C to stop node", but
  only `s` and Ctrl-C are bound. Ctrl-C only raises SIGINT, whose handler
  only tears the screen down. So the node is never stopped, and a
  temporary run's volume is removed only by the next temporary run's
  preparation. `StopNode`, `Snapshot` and `Restore` model what the object
  defines.
- There is no busy or lifecycle guard. `snapshot`, `restore` and
  `stop_node` are not mutually exclusive.
- The genesis existence check also runs for temporary projects.
- A failed stop still restarts the node during a snapshot.
- The RPC port binding leaks. The container start writes
  `HostConfig.PortBindings` into the shared options through a shallow
  copy, so every later one-shot run carries it (`BindingLeaks`).
- `pid` is never cleared. The exit handler's `this` is not the object
  (`PidNeverCleared`).
- A `keys add` failure at index k leaves the k accounts already printed in
  `accounts` and writes no file (`KeyFailureLeavesPartial`).
- The accounts file is written with a plain write, not an atomic one. A
  failed write either leaves the file cut off and unreadable (`Malformed`)
  or leaves it as it was; an oracle decides which.
- Removing the volume before a temporary run does not keep it away: the
  first one-shot container of the run mounts it again, so the runtime
  re-creates it (`TemporaryStartupRecreatesVolume`).
- Provisioning zero accounts writes `[]` to the accounts file, which the
  next `load_config` ignores (`RestartKeepsAccounts`).
- An empty `--project-id ""` is not persistent, because `!!""` is false.
  An id that sanitises to nothing is persistent
  (`PersistenceFromRawOption`).

## Model

| member | source | states |
|---|---|---|
| `Paths.Step` | index.js:34 | one `path.resolve` segment keeps a normal path normal and changes its length by at most one; it grows by one exactly for a plain segment, and otherwise the result is a prefix of the path (`..` drops the last segment, `.` and `""` keep it) |
| `Paths.Resolve` | index.js:34 | `path.resolve` over segments keeps a normal base normal and changes the depth by at most one level per segment |
| `Paths.ResolvePlain` | index.js:34 | resolving plain segments against a base appends them in order |
| `Paths.ResolveNormal` | index.js:34 | resolving plain or empty segments keeps a path in normal form and adds at most one level per segment |
| `Paths.SiblingOf` | archwayd.js:260 | `path.resolve(dir, '..', name)` is the sibling `name` of `dir` |
| `Runtime.Host.Issue` | archwayd.js:67-70 | issuing a command appends exactly it to the trace, the call succeeds as the oracle for its position says, and a container run that mounts the volume re-creates it; no other host fact changes |
| `Runtime.NatText` | archwayd.js:107 | the decimal rendering of a key index is non-empty and made only of digits |
| `Runtime.NatTextValue` | archwayd.js:107 | reading the rendered digits back as a decimal number gives the index |
| `Runtime.NatTextInjective` | archwayd.js:107 | two indices have the same rendering if and only if they are equal |
| `Runtime.AfterWrite` | archwayd.js:160-162 | after `writeFile` the accounts file holds the written list, is cut off, or is unchanged, and a successful write always leaves the list |
| `Lifecycle.Argv` | archwayd.js:104-144 | every command has a non-empty argument vector; the index argument of `keys add` and of `add-genesis-account` reads back as the loop index, and the balance argument ends in `stake` |
| `Lifecycle.FreshPlan` | archwayd.js:104-162 | the fresh plan has n key calls, n funding calls and the closing steps, and ends with the accounts write exactly when the project is persistent |
| `Lifecycle.KeysAddsAt` | archwayd.js:104-123 | the key loop's commands are `keys add i` for i = 0..n-1, in ascending order |
| `Lifecycle.FundAccountsAt` | archwayd.js:126-144 | the funding loop's commands are `add-genesis-account i <balance>stake` for i = 0..n-1, in ascending order |
| `Lifecycle.RecordsAt` | archwayd.js:116-121 | the i-th account in memory is the record printed by the i-th `keys add` call |
| `Lifecycle.FreshIssuedIsPrefix` | archwayd.js:104-162 | a provisioning run that stops at its first failure issues exactly a prefix of the fresh plan: every call before the failure plus the failing one |
| `Lifecycle.FreshPlanOrder` | archwayd.js:104-162 | the fresh plan is `keys add 0..n-1`, then `add-genesis-account 0..n-1`, then `gentx`, then `collect-gentxs`, then (persistent only) the accounts-file write |
| `Lifecycle.OnlyGentxOnNetwork` | archwayd.js:147-158 | with network-isolated shared options, `gentx` is the only run of the plan with the network enabled |
| `Lifecycle.WrittenOnlyAfterCollect` | archwayd.js:157-162 | the accounts file is written if and only if the project is persistent and every call up to and including `collect-gentxs` succeeded |
| `Lifecycle.DisplayLines` | archwayd.js:74-89 | the listing is four header lines plus two lines per account, opening with "Available Accounts" and starting the mnemonics section after the address lines |
| `Lifecycle.DisplayLinesLayout` | archwayd.js:74-89 | the listing shows each account's address line then its mnemonic line, in index order; only account 0's address line ends with the validator mark |
| `Lifecycle.Archwayd.constructor` | archwayd.js:10-48 | no accounts, no pid, network-isolated auto-removing options; the node home is bind-mounted from the project directory when persistent, otherwise the named volume |
| `Lifecycle.Archwayd.LoadConfig` | archwayd.js:50-59 | a temporary project keeps `accounts`; a persistent one takes the file's list only if the list parsed and is non-empty; a missing or unreadable file leaves `accounts` as it was |
| `Lifecycle.Archwayd.InitGenesis` | archwayd.js:61-72 | if the genesis file exists, nothing is issued; otherwise exactly one `init <project_id> --chain-id <chain_id>` is issued with the shared options, which re-creates the volume they mount |
| `Lifecycle.Archwayd.DisplayAccounts` | archwayd.js:74-89 | the accounts pane gains exactly the listing of the given accounts |
| `Lifecycle.Archwayd.AddKeys` | archwayd.js:104-123 | issues `keys add i` in ascending order up to and including the first failing call; appends one printed record per successful call to `accounts`; the only file change is the volume its runs re-create |
| `Lifecycle.Archwayd.AddGenesisAccounts` | archwayd.js:125-144 | issues `add-genesis-account i` in ascending order up to and including the first failing call; the only file change is the volume its runs re-create |
| `Lifecycle.Archwayd.Conclude` | archwayd.js:146-162 | issues `gentx` (network on), then `collect-gentxs` if that succeeded, then, for a persistent project only, the accounts write; the file then holds the list on success and is cut off or unchanged on failure, and is untouched when the write is not reached |
| `Lifecycle.Archwayd.FundAndClose` | archwayd.js:125-162 | the funding loop, then the closing steps only if every funding call succeeded |
| `Lifecycle.Archwayd.KeysThenFunding` | archwayd.js:104-162 | the key loop, then the funding and closing stages only if every key was added; `accounts` holds the records of the successful key calls |
| `Lifecycle.Archwayd.Provision` | archwayd.js:97-162 | a fresh provisioning issues the fresh plan up to its first failure; `accounts` holds the records printed before it; the accounts file changes only after `collect-gentxs` succeeded, to the list or, on a failed write, to a cut-off or unchanged file |
| `Lifecycle.Archwayd.GenerateAccounts` | archwayd.js:91-165 | with accounts already loaded, only lists them (no command, no file, no change to `accounts`); otherwise a fresh provisioning, listed only on success |
| `Lifecycle.Archwayd.StartNode` | archwayd.js:167-239 | `unsafe-reset-all` if and only if persistent and reset requested; if the reset did not fail, the native binary is spawned and `pid` recorded (Apple silicon and persistent), otherwise the `spinarch_archwayd` container is launched with 26657/tcp on 127.0.0.1:26657 and the binding written into the shared options; the volume is re-created exactly when a container run with the shared options is issued |
| `Lifecycle.Archwayd.StopNode` | archwayd.js:241-250 | with a pid set, one SIGINT to that pid and nothing else; otherwise stops the `spinarch_archwayd` container and, if that worked and the project is temporary, removes the volume; `pid` is never changed |
| `Lifecycle.Archwayd.Snapshot` | archwayd.js:252-300 | no-op for a temporary project; otherwise stop, then (if stopped) create the snapshot directory and tar the project into `<project_id>_<stamp>.tar`, then always start the node |
| `Lifecycle.Archwayd.StopAndArchive` | archwayd.js:255-297 | the stop, then the archive only if the stop succeeded; a successful archive records the current project state under the archive name |
| `Lifecycle.Archwayd.Archive` | archwayd.js:260-293 | creates the snapshot directory, then runs the tar helper only if that worked; only a successful tar stores the project state |
| `Lifecycle.Archwayd.Restore` | archwayd.js:302-343 | no-op for a temporary project; otherwise one untar helper run; the project state becomes the archived one only if the run succeeded and the archive exists; the node is not started |
| `Lifecycle.GenesisOnce` | archwayd.js:61-72 | two `init_genesis` calls on a persistent project: after a successful `init`, the second issues nothing; with genesis present, neither issues anything |
| `Lifecycle.KeyFailureLeavesPartial` | archwayd.js:100-123 | a `keys add` failing at index k leaves exactly the k printed accounts in memory, issues `keys add 0..k` only, changes no listing and no file except re-creating the volume its runs mount |
| `Lifecycle.FreshGeneration` | archwayd.js:91-165 | a fresh `generate_accounts` issues a prefix of the fresh plan, the whole plan exactly when every call succeeds; on success it holds the n printed records in order, lists them and, when persistent, writes them; the file changes only when persistent and every call up to `collect-gentxs` succeeded |
| `Lifecycle.BindingLeaks` | archwayd.js:207-217 | after a container start, the shared options carry the RPC port binding, so later one-shot runs do too; mounts, network flag and name are unchanged |
| `Lifecycle.PidNeverCleared` | archwayd.js:241-245 | once a pid is recorded, two successive stops each send SIGINT to that same pid, keep it recorded, and touch no file |
| `Lifecycle.ArchiveLocation` | archwayd.js:260-283 | the tar helper is network-isolated, mounts `<project_dir>/../.snapshots` on `/ss` and the project on `/state`, and writes `/ss/<project_id>_<stamp>.tar` |
| `Lifecycle.ValidOpts` | archwayd.js:25-47 | the shared options stay network-isolated, unnamed and auto-removing and keep the node's mount; their runs mount the named volume exactly on a temporary project |
| `Lifecycle.KeyArgsDistinct` | archwayd.js:104-144 | distinct key indices give distinct `keys add` and `add-genesis-account` arguments |
| `Lifecycle.RestartKeepsAccounts` | archwayd.js:50-95 | after a successful persistent provisioning of at least one account, the next run loads exactly that list and its `generate_accounts` issues nothing, changes no file and only lists it; provisioning no accounts writes `[]` and the next run loads nothing |
| `Cli.Sanitize` | index.js:33 | the regex replace never lengthens the id, and an id it does not shorten is left unchanged |
| `Cli.SanitizeAllowed` | index.js:33 | the sanitised id contains only characters from `[0-9a-zA-Z-_]` |
| `Cli.SanitizeAppend` | index.js:33 | sanitising works character by character and keeps order: the sanitised concatenation is the concatenation of the sanitised parts |
| `Cli.SanitizeChar` | index.js:33 | a single character is kept if and only if it is allowed |
| `Cli.SanitizeFixpoint` | index.js:33 | a string is left unchanged if and only if all its characters are allowed |
| `Cli.SanitizeIdempotent` | index.js:33 | sanitising twice gives the same result as sanitising once |
| `Cli.SanitizeNone` | index.js:33 | a string of refused characters only sanitises to the empty string |
| `Cli.ProjectIdOf` | index.js:33 | the project id is the sanitised option when one is given, otherwise the random name |
| `Cli.PersistenceFromRawOption` | index.js:33-35 | characterises `IsPersistent` (`!!options.projectId` on the raw option): an id made only of refused characters still makes the project persistent, with the empty id; an empty `--project-id ""` is temporary and takes the random name |
| `Cli.ProjectDirOf` | index.js:34 | a home in normal form gives a project directory in normal form, and for any id other than `..` it lies inside `<home>/.spinarch` |
| `Cli.SanitizedIsPlain` | index.js:33-34 | a non-empty sanitised id is a single plain path segment |
| `Cli.ProjectLayout` | index.js:34 | the project directory is `<home>/.spinarch/<id>`, and its snapshots go to `<home>/.spinarch/.snapshots`, which no sanitised id can name |
| `Cli.EmptyIdLayout` | index.js:34 | an id that sanitises to nothing makes `<home>/.spinarch` the project directory, with snapshots in `<home>/.snapshots` |
| `Cli.Startup` | index.js:37-195 | an account count below 1 exits with status 1 before any object is built or command issued; otherwise the object is configured from the options and the startup runs |
| `Cli.TemporaryStartupRecreatesVolume` | index.js:181-195 | a temporary run that reaches a running node has the named volume again, runs in a container and records no pid |
| `Cli.Launch` | index.js:181-195 | prepare the state directory, pull the image if needed, then boot, each step stopping the run on failure |
| `Cli.Prepare` | index.js:181-187 | a temporary run removes the volume if it exists; a persistent run creates the project directory |
| `Cli.PullImage` | index.js:189-191 | the image is pulled if and only if it is absent or an update was requested |
| `Cli.Boot` | index.js:192-195 | `load_config`, `init_genesis`, `generate_accounts` and `start_node` run in that order, each after the previous one finished, stopping at the first failure |
| `Cli.Hotkeys.PressCtrlC` | index.js:145-150 | the first press raises SIGINT and sets the latch; every later press raises nothing |

## Left out

- The terminal UI and the logger. The application and container panes are
  no-ops. The accounts pane is an append-only list of lines
  (`Host.accountLog`). The text-selection toggle is UI only.
- Option parsing and the random container-style name. Both are inputs.
  `numAccounts` is an integer; the string coercion in `<` is not modelled.
- `docker.js` as a whole. Volume and image existence are booleans in the
  host state. `index.js` calls `image_exists` and `pull_image`, which
  `docker.js` does not define, and `pull` uses an undefined `logger`. Only
  the intended rule, "pull if absent or update requested", is modelled.
- Cli.Prepare and Lifecycle.Archwayd.StopNode: a failing `listVolumes`
  inside `remove_volume` is not modelled. The existence check is read from
  the host state and cannot fail.
- Output streams. The `data` events and the `JSON.parse` of output chunks
  are left out: each successful `keys add` prints exactly one account
  record, given by an oracle. So are the native process's stdout, stderr,
  error and close handlers.
- The container start is not awaited. Its outcome is a `Launch` command
  whose result never reaches `start_node`. The callback's thrown error,
  which would crash the process, is not modelled.
- Signals, timers and process exit: `process.kill` of the own process, the
  SIGINT handler and its 2-second screen teardown. The Ctrl-C latch only
  counts the signals it raises.
- Shell semantics of the `tar` and `rm` helper commands. A snapshot stores
  a copy of the project state under the archive name. A restore replaces
  the project state with the stored copy, and a failed restore leaves it
  unchanged. Because `rm -r /state/*` skips dotfiles and fails on an empty
  directory, no snapshot/restore round trip is claimed, and a partial
  deletion by a failed restore is not modelled.
- Timestamp formatting. The snapshot stamp is an opaque input string.
- Path resolution is segment concatenation over plain segments. Only the
  effect of `..` on the last segment is modelled.
- The host file system beyond three facts: the genesis file's presence,
  the accounts file (missing, malformed or a parsed list) and the
  snapshot map. A successful `init` under the bind mount is assumed to
  create the genesis file.
- Exit statuses. The source never reads a command's exit status:
  `docker.run` resolves once the container exits, whatever its status,
  and only an error the runtime reports (create, attach, start, wait)
  counts as a failure. `Host.succeeds` means exactly "the runtime
  reported no error". So a resolved `init` counts as having written the
  genesis file even if it exited non-zero. The source would then run
  `init` again on the next start; the model (`InitStep`, `GenesisOnce`)
  would not.
- Volume creation is tied to issuing a container run that mounts the
  volume, whatever the run's outcome. A run rejected before the runtime
  creates its volume is not told apart from one rejected after.
- Whether a failed `writeFile` truncated the accounts file before failing
  is an oracle (`Host.tornWrite`); the bytes of a partial write are not
  modelled.
