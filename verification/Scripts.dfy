/** The database scripts as functions: each command interleaved with whatever clients and servers do
    meanwhile, each script able to die between any two commands. */
module Scripts {
  import opened Mysql
  import opened Replication

  /** Steps no script takes: clients, threads, expiry, connection loss, restarts. */
  predicate World(a: Step) {
    a.Commit? || a.WriteReplica? || a.ExpireBinlog? || a.Fetch? || a.ApplyNext? || a.IoBreaks? || a.RestartReplica?
  }

  /** `env[i]` is what happens before the i-th command. */
  predicate Worldly(env: seq<seq<Step>>) {
    forall i, j :: 0 <= i < |env| && 0 <= j < |env[i]| ==> World(env[i][j])
  }

  /** Clients write only to the primary. */
  predicate PrimaryOnly(env: seq<seq<Step>>) {
    forall i, j :: 0 <= i < |env| && 0 <= j < |env[i]| ==> !env[i][j].WriteReplica?
  }

  function At(env: seq<seq<Step>>, i: nat): seq<Step> { if i < |env| then env[i] else [] }

  datatype ScriptExit = Done | AlreadyRunning | Died

  const SETUP := [StopReplica, ResetReplicaAll, ChangeSource, StartReplica, PersistReadOnly(true), PersistSuperReadOnly(true)]
  const PROMOTE := [StopReplica, ResetReplicaAll, PersistSuperReadOnly(false), PersistReadOnly(false)]

  function RestorePrimary(d: Dump): seq<Step> { [ResetPrimary, LoadPrimary(d)] }

  function RestoreReplica(d: Dump): seq<Step> {
    [StopReplica, ResetReplicaAll, PersistSuperReadOnly(false), PersistReadOnly(false), ResetReplica, LoadReplica(d)]
  }

  // ---- the scripts as functions -------------------------------------------------------------------

  /** The first n commands, the i-th preceded by what happens in `env[from + i]`. */
  function AfterCommands(t: Tier, cmds: seq<Step>, env: seq<seq<Step>>, from: nat, n: nat): Tier
    requires n <= |cmds|
  {
    if n == 0 then t
    else Do(Run(AfterCommands(t, cmds, env, from, n - 1), At(env, from + n - 1)), cmds[n - 1])
  }

  function Min(a: nat, b: nat): nat { if a <= b then a else b }

  /** The poll for a running SQL thread. */
  function AwaitSql(t: Tier, env: seq<seq<Step>>, from: nat, polls: nat): Tier
    decreases polls
  {
    if polls == 0 || t.replica.sql then t else AwaitSql(Run(t, At(env, from)), env, from + 1, polls - 1)
  }

  /** The poll for "Replica has read all relay log", which a stopped SQL thread never shows. */
  function AwaitDrain(t: Tier, env: seq<seq<Step>>, from: nat, polls: nat): (Tier, bool)
    decreases polls
  {
    if polls == 0 then (t, false)
    else if t.replica.sql && t.replica.relay == [] then (t, true)
    else AwaitDrain(Run(t, At(env, from)), env, from + 1, polls - 1)
  }

  /** scripts/db/setup_replication.sh: `env[0]` precedes the status check, the rest the commands and polls;
      the script dies before command `cut`. */
  function Setup(t: Tier, force: bool, env: seq<seq<Step>>, cut: nat): (Tier, ScriptExit) {
    var t0 := Run(t, At(env, 0));
    if !force && t0.replica.io then (t0, AlreadyRunning)
    else
      var t1 := AfterCommands(t0, SETUP, env, 1, Min(cut, |SETUP|));
      if cut < |SETUP| then (t1, Died)
      else
        var t2 := AwaitSql(t1, env, 7, 30);
        (t2, if t2.replica.sql then Done else Died)
  }

  /** Commands the server answers with an error, which ends the script: the GTID_PURGED in a dump needs an
      empty executed set, and a super-read-only server takes no dump. */
  predicate Rejected(t: Tier, a: Step) {
    || (a.LoadPrimary? && t.primary.executed != {})
    || (a.LoadReplica? && (t.replica.executed != {} || t.replica.superReadOnly))
  }

  /** One command, after what happens before it: false when the server rejects it. */
  function Once(t: Tier, before: seq<Step>, a: Step): (Tier, bool) {
    var u := Run(t, before);
    if Rejected(u, a) then (u, false) else (Do(u, a), true)
  }

  /** The first n commands up to one that the server rejects: the state, and how many it accepted. */
  function RunCommands(t: Tier, cmds: seq<Step>, env: seq<seq<Step>>, from: nat, n: nat): (r: (Tier, nat))
    requires n <= |cmds|
    ensures r.1 <= n
  {
    if n == 0 then (t, 0)
    else
      var (u, k) := RunCommands(t, cmds, env, from, n - 1);
      if k < n - 1 then (u, k)
      else
        var (v, accepted) := Once(u, At(env, from + n - 1), cmds[n - 1]);
        (v, if accepted then n else k)
  }

  /** scripts/db/restore_db.sh --confirm with an intact dump; it dies before command `cut`, or at a command
      the server rejects. */
  function Restore(t: Tier, d: Dump, replicaUp: bool, env: seq<seq<Step>>, cut: nat): (Tier, ScriptExit) {
    var (t1, k) := RunCommands(t, RestorePrimary(d), env, 0, Min(cut, |RestorePrimary(d)|));
    if k < |RestorePrimary(d)| then (t1, Died)
    else if !replicaUp then (t1, Done)
    else
      var (t2, j) := RunCommands(t1, RestoreReplica(d), env, 2, Min(cut - 2, |RestoreReplica(d)|));
      (t2, if j < |RestoreReplica(d)| then Died else Done)
  }

  /** promote_replica.sh up to the relay log poll; `ioStopFails`: the best-effort STOP REPLICA IO_THREAD has
      no effect. */
  function PromoteDrained(t: Tier, ioStopFails: bool, env: seq<seq<Step>>): (Tier, bool) {
    AwaitDrain(IoStopped(t, ioStopFails, env), env, 1, 30)
  }

  function IoStopped(t: Tier, ioStopFails: bool, env: seq<seq<Step>>): Tier {
    var t0 := Run(t, At(env, 0));
    if ioStopFails then t0 else Do(t0, StopIo)
  }

  /** scripts/db/promote_replica.sh --confirm, after n of its four final commands. */
  function Promoting(t: Tier, ioStopFails: bool, env: seq<seq<Step>>, n: nat): Tier
    requires n <= |PROMOTE|
  {
    AfterCommands(PromoteDrained(t, ioStopFails, env).0, PROMOTE, env, 31, n)
  }

  /** After all four. */
  function Promoted(t: Tier, ioStopFails: bool, env: seq<seq<Step>>): Tier { Promoting(t, ioStopFails, env, |PROMOTE|) }

  // ---- what other steps leave alone ---------------------------------------------------------------

  ghost predicate AllWorld(steps: seq<Step>) { forall i :: 0 <= i < |steps| ==> World(steps[i]) }
  ghost predicate NoReplicaWrites(steps: seq<Step>) { forall i :: 0 <= i < |steps| ==> !steps[i].WriteReplica? }

  /** The replica's replication settings, threads and protection. */
  datatype Flags = Flags(source: bool, io: bool, sql: bool, readOnly: bool, superReadOnly: bool,
                         keptReadOnly: bool, keptSuperReadOnly: bool)

  function FlagsOf(t: Tier): Flags {
    var r := t.replica;
    Flags(r.source, r.io, r.sql, r.readOnly, r.superReadOnly, r.keptReadOnly, r.keptSuperReadOnly)
  }

  /** What steps of the world may do to them: stop threads, or put the persisted protection in force. */
  predicate Drift(f: Flags, g: Flags) {
    && g.source == f.source && (g.io ==> f.io) && (g.sql ==> f.sql)
    && g.keptReadOnly == f.keptReadOnly && g.keptSuperReadOnly == f.keptSuperReadOnly
    && (g.readOnly == f.readOnly || g.readOnly == f.keptReadOnly)
    && (g.superReadOnly == f.superReadOnly || g.superReadOnly == f.keptSuperReadOnly)
  }

  lemma DriftStep(t: Tier, a: Step)
    requires World(a)
    ensures Drift(FlagsOf(t), FlagsOf(Do(t, a)))
  {
    if a.WriteReplica? || a.ApplyNext? { SettingsStay(t, a); }
  }

  lemma SettingsStay(t: Tier, a: Step)
    requires a.WriteReplica? || a.ApplyNext?
    ensures FlagsOf(Do(t, a)) == FlagsOf(t)
  {}

  lemma {:induction false} WorldDrifts(t: Tier, steps: seq<Step>)
    requires AllWorld(steps)
    ensures Drift(FlagsOf(t), FlagsOf(Run(t, steps)))
  {
    if steps != [] {
      WorldDrifts(t, steps[..|steps| - 1]);
      DriftStep(Run(t, steps[..|steps| - 1]), steps[|steps| - 1]);
    }
  }

  predicate IsArmed(f: Flags) { f.readOnly && f.superReadOnly && f.keptReadOnly && f.keptSuperReadOnly }

  /** Writable only without a source, now and after any steps of the world. */
  predicate IsGuarded(f: Flags) { IsArmed(f) || !f.source }

  /** Open for writes, now and after every restart. */
  predicate IsOpen(f: Flags) {
    !f.source && !f.readOnly && !f.superReadOnly && !f.keptReadOnly && !f.keptSuperReadOnly
  }

  /** The role survives restarts: a promoted replica stays writable, an armed one stays read-only, and one
      that is never writable with a source stays so. */
  lemma RestartsKeepTheRole(t: Tier, steps: seq<Step>)
    requires AllWorld(steps)
    ensures var u := Run(t, steps);
            && (IsOpen(FlagsOf(t)) ==> !u.replica.readOnly && !u.replica.superReadOnly)
            && (IsArmed(FlagsOf(t)) ==> u.replica.readOnly && u.replica.superReadOnly)
            && (IsGuarded(FlagsOf(t)) ==> (u.replica.source ==> u.replica.readOnly))
  {
    WorldDrifts(t, steps);
  }

  /** Why the scripts persist the protection: after a restart a replica takes a client's write exactly when
      read_only was not persisted, whatever is in force before. */
  lemma RestartOpensIff(t: Tier, n: nat, body: int)
    requires Gtid(FromReplica, n) !in t.replica.executed
    ensures var u := Run(t, [RestartReplica, WriteReplica(n, body)]);
      u.replica.data == (if t.replica.keptReadOnly then t.replica.data else t.replica.data + [Txn(Gtid(FromReplica, n), body)])
  {
    var steps := [RestartReplica, WriteReplica(n, body)];
    assert steps[..1] == [RestartReplica] && [RestartReplica][..0] == [];
    var u := Run(t, [RestartReplica]);
    assert u == Do(Run(t, []), RestartReplica);
    assert Run(t, steps) == Do(Run(t, steps[..1]), steps[1]);
  }

  /** The flags just before the n-th command of a script, and what that command makes of them. */
  lemma NextCommand(t: Tier, cmds: seq<Step>, env: seq<seq<Step>>, from: nat, n: nat)
    requires n < |cmds| && Worldly(env)
    ensures var before := Run(AfterCommands(t, cmds, env, from, n), At(env, from + n));
            && Drift(FlagsOf(AfterCommands(t, cmds, env, from, n)), FlagsOf(before))
            && AfterCommands(t, cmds, env, from, n + 1) == Do(before, cmds[n])
  {
    WorldDrifts(AfterCommands(t, cmds, env, from, n), At(env, from + n));
  }

  function FlagsAfter(f: Flags, a: Step): Flags {
    match a
    case StopReplica => f.(io := false, sql := false)
    case ResetReplicaAll => if f.io || f.sql then f else f.(source := false)
    case ChangeSource => if f.io || f.sql then f else f.(source := true)
    case StartReplica => if f.source then f.(io := true, sql := true) else f
    case PersistReadOnly(on) =>
      if on then f.(readOnly := true, keptReadOnly := true)
      else f.(readOnly := false, keptReadOnly := false, superReadOnly := false)
    case PersistSuperReadOnly(on) =>
      if on then f.(superReadOnly := true, keptSuperReadOnly := true, readOnly := true)
      else f.(superReadOnly := false, keptSuperReadOnly := false)
    case _ => f
  }

  /** Commands of setup and promotion. */
  predicate Scripted(a: Step) { Routine(a) && !World(a) && !a.StopIo? }

  lemma CommandFlags(t: Tier, a: Step)
    requires Scripted(a)
    ensures FlagsOf(Do(t, a)) == FlagsAfter(FlagsOf(t), a)
  {
    match a
    case StopReplica => case ResetReplicaAll => case ChangeSource => case StartReplica =>
    case PersistReadOnly(_) => case PersistSuperReadOnly(_) => case _ =>
  }

  /** One more command of a script, seen through the flags. */
  lemma NextFlags(t: Tier, cmds: seq<Step>, env: seq<seq<Step>>, from: nat, n: nat) returns (g: Flags)
    requires n < |cmds| && Worldly(env) && Scripted(cmds[n])
    ensures Drift(FlagsOf(AfterCommands(t, cmds, env, from, n)), g)
    ensures FlagsOf(AfterCommands(t, cmds, env, from, n + 1)) == FlagsAfter(g, cmds[n])
  {
    NextCommand(t, cmds, env, from, n);
    var before := Run(AfterCommands(t, cmds, env, from, n), At(env, from + n));
    CommandFlags(before, cmds[n]);
    g := FlagsOf(before);
  }

  // ---- running commands ---------------------------------------------------------------------------

  /** An accepted command. */
  lemma NextAccepted(t: Tier, cmds: seq<Step>, env: seq<seq<Step>>, from: nat, n: nat)
    requires 0 < n <= |cmds| && RunCommands(t, cmds, env, from, n).1 == n
    ensures var u := RunCommands(t, cmds, env, from, n - 1).0;
      && RunCommands(t, cmds, env, from, n - 1).1 == n - 1
      && !Rejected(Run(u, At(env, from + n - 1)), cmds[n - 1])
      && RunCommands(t, cmds, env, from, n).0 == Do(Run(u, At(env, from + n - 1)), cmds[n - 1])
  {}

  lemma RunNext(t: Tier, cmds: seq<Step>, env: seq<seq<Step>>, from: nat, k: nat, u: Tier, next: (Tier, bool))
    requires k < |cmds| && RunCommands(t, cmds, env, from, k) == (u, k) && next == Once(u, At(env, from + k), cmds[k])
    ensures RunCommands(t, cmds, env, from, k + 1) == (next.0, if next.1 then k + 1 else k)
  {}

  /** Command `k` is accepted once all before it were. */
  predicate Taken(t: Tier, cmds: seq<Step>, env: seq<seq<Step>>, from: nat, k: nat)
    requires k < |cmds|
  {
    !Rejected(Run(RunCommands(t, cmds, env, from, k).0, At(env, from + k)), cmds[k])
  }

  lemma {:induction false} AllTaken(t: Tier, cmds: seq<Step>, env: seq<seq<Step>>, from: nat, n: nat)
    requires n <= |cmds|
    requires forall k: nat :: k < n && RunCommands(t, cmds, env, from, k).1 == k ==> Taken(t, cmds, env, from, k)
    ensures RunCommands(t, cmds, env, from, n).1 == n
  {
    if n > 0 { AllTaken(t, cmds, env, from, n - 1); }
  }

  /** Nothing runs after a rejection. */
  lemma {:induction false} RejectionEnds(t: Tier, cmds: seq<Step>, env: seq<seq<Step>>, from: nat, m: nat, n: nat)
    requires m <= n <= |cmds| && RunCommands(t, cmds, env, from, m).1 < m
    ensures RunCommands(t, cmds, env, from, n) == RunCommands(t, cmds, env, from, m)
    decreases n
  {
    if m < n { RejectionEnds(t, cmds, env, from, m, n - 1); }
  }

  /** Commands of setup and promotion are never rejected. */
  lemma {:induction false} NeverRejected(t: Tier, cmds: seq<Step>, env: seq<seq<Step>>, from: nat, n: nat)
    requires n <= |cmds| && forall i :: 0 <= i < |cmds| ==> Routine(cmds[i])
    ensures RunCommands(t, cmds, env, from, n) == (AfterCommands(t, cmds, env, from, n), n)
  {
    if n > 0 {
      NeverRejected(t, cmds, env, from, n - 1);
      RoutineAccepted(AfterCommands(t, cmds, env, from, n - 1), At(env, from + n - 1), cmds[n - 1]);
    }
  }

  lemma RoutineAccepted(t: Tier, before: seq<Step>, a: Step)
    requires Routine(a)
    ensures Once(t, before, a) == (Do(Run(t, before), a), true)
  {}

  lemma SyncWorld(t: Tier, env: seq<seq<Step>>, i: nat)
    requires Sync(t) && Worldly(env) && PrimaryOnly(env)
    ensures Sync(Run(t, At(env, i)))
  {
    RunsKeepSync(t, At(env, i));
  }

  lemma ArmedWorld(t: Tier, steps: seq<Step>)
    requires Sync(t) && Armed(t.replica) && AllWorld(steps)
    ensures Sync(Run(t, steps)) && Armed(Run(t, steps).replica)
  {
    ArmedRunsKeepSync(t, steps);
  }

  /** After RESET REPLICA ALL nothing but the flags changes any more while clients stay away. */
  ghost predicate Detached(r: Server) { !r.source && !r.io && !r.sql && r.relay == [] }

  lemma {:induction false} WorldKeepsDetached(t: Tier, steps: seq<Step>)
    requires Detached(t.replica) && AllWorld(steps) && NoReplicaWrites(steps)
    ensures Detached(Run(t, steps).replica)
    ensures Run(t, steps).replica.data == t.replica.data && Run(t, steps).replica.executed == t.replica.executed
  {
    if steps != [] { WorldKeepsDetached(t, steps[..|steps| - 1]); }
  }
}
