/** scripts/db/restore_db.sh on both servers, alone and followed by setup_replication.sh --force. */
module Recovery {
  import opened Mysql
  import opened Replication
  import opened Scripts
  import opened ReplicaSetup

  // ---- restore: the two servers one after the other -----------------------------------------------

  ghost predicate PrimaryRestored(t: Tier, d: Dump) { t.origin == d && PrimaryFrom(t.primary, d) }

  lemma LoadedPrimary(t: Tier, d: Dump)
    requires t.primary.executed == {} && t.primary.binlog == []
    ensures PrimaryRestored(Do(t, LoadPrimary(d)), d)
  {
    assert d.data[|d.data|..] == [];
  }

  lemma StepKeepsPrimary(t: Tier, d: Dump, a: Step)
    requires PrimaryRestored(t, d) && Routine(a)
    ensures PrimaryRestored(Do(t, a), d)
  {
    if a.Commit? && Gtid(FromPrimary, a.n) !in t.primary.executed {
      PrimaryCommits(t.primary, d, Txn(Gtid(FromPrimary, a.n), a.body));
    }
  }

  lemma {:induction false} RunKeepsPrimary(t: Tier, d: Dump, steps: seq<Step>)
    requires PrimaryRestored(t, d) && forall i :: 0 <= i < |steps| ==> Routine(steps[i])
    ensures PrimaryRestored(Run(t, steps), d)
  {
    if steps != [] {
      RunKeepsPrimary(t, d, steps[..|steps| - 1]);
      StepKeepsPrimary(Run(t, steps[..|steps| - 1]), d, steps[|steps| - 1]);
    }
  }

  lemma {:induction false} WorldKeepsUncommitted(t: Tier, steps: seq<Step>)
    requires t.primary.executed != {} || t.primary.binlog == []
    requires AllWorld(steps)
    ensures Run(t, steps).primary.executed != {} || Run(t, steps).primary.binlog == []
  {
    if steps != [] {
      WorldKeepsUncommitted(t, steps[..|steps| - 1]);
      StepKeepsUncommitted(Run(t, steps[..|steps| - 1]), steps[|steps| - 1]);
    }
  }

  lemma StepKeepsUncommitted(t: Tier, a: Step)
    requires World(a) && (t.primary.executed != {} || t.primary.binlog == [])
    ensures Do(t, a).primary.executed != {} || Do(t, a).primary.binlog == []
  {
    if a.Commit? && Gtid(FromPrimary, a.n) !in t.primary.executed {
      assert Gtid(FromPrimary, a.n) in Do(t, a).primary.executed;
    }
  }

  /** What holds after n commands of the primary's half of a restore: nothing in the binlog but what was
      executed since the reset, then the dump and what was committed on it. */
  ghost predicate PrimaryStage(n: nat, t: Tier, d: Dump) {
    && (n == 1 ==> t.primary.executed != {} || t.primary.binlog == [])
    && (n == 2 ==> PrimaryRestored(t, d))
  }

  lemma PrimaryNext(n: nat, t: Tier, d: Dump)
    requires n < 2 && PrimaryStage(n, t, d) && !Rejected(t, RestorePrimary(d)[n])
    ensures PrimaryStage(n + 1, Do(t, RestorePrimary(d)[n]), d)
  {
    if n == 1 { LoadedPrimary(t, d); }
  }

  lemma WorldKeepsPrimaryStage(n: nat, t: Tier, d: Dump, steps: seq<Step>)
    requires PrimaryStage(n, t, d) && AllWorld(steps)
    ensures PrimaryStage(n, Run(t, steps), d)
  {
    if n == 1 { WorldKeepsUncommitted(t, steps); }
    if n == 2 { RunKeepsPrimary(t, d, steps); }
  }

  lemma {:induction false} PrimaryStages(t: Tier, d: Dump, env: seq<seq<Step>>, from: nat, n: nat)
    requires Worldly(env) && n <= 2 && RunCommands(t, RestorePrimary(d), env, from, n).1 == n
    ensures PrimaryStage(n, RunCommands(t, RestorePrimary(d), env, from, n).0, d)
  {
    if n > 0 {
      var u := RunCommands(t, RestorePrimary(d), env, from, n - 1).0;
      NextAccepted(t, RestorePrimary(d), env, from, n);
      PrimaryStages(t, d, env, from, n - 1);
      WorldKeepsPrimaryStage(n - 1, u, d, At(env, from + n - 1));
      PrimaryNext(n - 1, Run(u, At(env, from + n - 1)), d);
    }
  }

  /** What holds after n commands of the replica's half of a restore, whatever was there before. */
  ghost predicate RestoreStage(n: nat, t: Tier, d: Dump) {
    && PrimaryRestored(t, d)
    && (n >= 1 ==> !t.replica.io && !t.replica.sql)
    && (n >= 2 ==> Detached(t.replica))
    && (n >= 3 ==> !t.replica.superReadOnly && !t.replica.keptSuperReadOnly)
    && (n >= 4 ==> !t.replica.readOnly && !t.replica.keptReadOnly)
    && (n == 5 ==> t.replica.executed == {})
    && (n >= 6 ==> t.replica.data == d.data && t.replica.executed == d.gtids)
  }

  lemma WorldKeepsStage(n: nat, t: Tier, d: Dump, steps: seq<Step>)
    requires RestoreStage(n, t, d) && AllWorld(steps) && NoReplicaWrites(steps)
    ensures RestoreStage(n, Run(t, steps), d)
  {
    RunKeepsPrimary(t, d, steps);
    WorldDrifts(t, steps);
    if n >= 2 { WorldKeepsDetached(t, steps); }
  }

  lemma RestoreNext(n: nat, t: Tier, d: Dump)
    requires n < 6 && RestoreStage(n, t, d) && !Rejected(t, RestoreReplica(d)[n])
    ensures RestoreStage(n + 1, Do(t, RestoreReplica(d)[n]), d)
  {
    var a := RestoreReplica(d)[n];
    match a
    case StopReplica => case ResetReplicaAll => case PersistSuperReadOnly(_) => case PersistReadOnly(_) =>
    case ResetReplica => case LoadReplica(_) => case _ =>
  }

  lemma {:induction false} RestoreStages(t: Tier, d: Dump, env: seq<seq<Step>>, from: nat, n: nat)
    requires Worldly(env) && PrimaryOnly(env) && n <= 6 && PrimaryRestored(t, d)
    requires RunCommands(t, RestoreReplica(d), env, from, n).1 == n
    ensures RestoreStage(n, RunCommands(t, RestoreReplica(d), env, from, n).0, d)
  {
    if n > 0 {
      var u := RunCommands(t, RestoreReplica(d), env, from, n - 1).0;
      NextAccepted(t, RestoreReplica(d), env, from, n);
      RestoreStages(t, d, env, from, n - 1);
      WorldKeepsStage(n - 1, u, d, At(env, from + n - 1));
      RestoreNext(n - 1, Run(u, At(env, from + n - 1)), d);
    }
  }

  lemma BothRestored(t: Tier, d: Dump)
    requires RestoreStage(6, t, d)
    ensures Sync(t)
  {
    assert ReplicaAt(t.replica, t.origin, Tail(t), 0);
  }

  /** A restore that ran to its end on both servers puts them in sync on the dump, whatever state they were
      in and whatever the clients of the primary committed in between; so by RunsKeepSync every later run,
      a forced setup included, keeps the replica a prefix of the primary although the primary issues GTIDs
      again that the replica once had. */
  lemma RestoreSyncs(t: Tier, d: Dump, replicaUp: bool, env: seq<seq<Step>>, cut: nat)
    requires Worldly(env)
    ensures var (u, exit) := Restore(t, d, replicaUp, env, cut);
            && (exit == Done && (!replicaUp || PrimaryOnly(env)) ==> PrimaryRestored(u, d) && d.data <= u.primary.data)
            && (exit == Done && replicaUp && PrimaryOnly(env) ==> Sync(u) && Snapshot(u.replica) == d && IsOpen(FlagsOf(u)))
  {
    var (t1, k) := RunCommands(t, RestorePrimary(d), env, 0, Min(cut, |RestorePrimary(d)|));
    if k == |RestorePrimary(d)| {
      PrimaryStages(t, d, env, 0, k);
      if replicaUp && cut >= 8 && PrimaryOnly(env) { ReplicaSyncs(t1, d, env, 2); }
    }
  }

  lemma ReplicaSyncs(t1: Tier, d: Dump, env: seq<seq<Step>>, from: nat)
    requires Worldly(env) && PrimaryOnly(env) && PrimaryRestored(t1, d)
    ensures var (u, j) := RunCommands(t1, RestoreReplica(d), env, from, |RestoreReplica(d)|);
      j == |RestoreReplica(d)| ==>
        Sync(u) && Snapshot(u.replica) == d && IsOpen(FlagsOf(u)) && PrimaryRestored(u, d)
  {
    var (u, j) := RunCommands(t1, RestoreReplica(d), env, from, |RestoreReplica(d)|);
    if j == |RestoreReplica(d)| {
      RestoreStages(t1, d, env, from, j);
      BothRestored(u, d);
    }
  }

  // ---- when a restore completes ---------------------------------------------------------------------

  ghost predicate NoCommits(steps: seq<Step>) { forall i :: 0 <= i < |steps| ==> !steps[i].Commit? }

  lemma {:induction false} ExecutedIffCommits(t: Tier, steps: seq<Step>)
    requires t.primary.executed == {} && AllWorld(steps)
    ensures Run(t, steps).primary.executed == {} <==> NoCommits(steps)
  {
    if steps != [] {
      var front, last := steps[..|steps| - 1], steps[|steps| - 1];
      ExecutedIffCommits(t, front);
      ExecutedStep(Run(t, front), last);
      assert NoCommits(steps) <==> NoCommits(front) && !last.Commit? by { assert steps == front + [last]; }
    }
  }

  lemma ExecutedStep(t: Tier, a: Step)
    requires World(a)
    ensures Do(t, a).primary.executed == {} <==> t.primary.executed == {} && !a.Commit?
  {
    if a.Commit? { assert Gtid(FromPrimary, a.n) in Do(t, a).primary.executed; }
  }

  /** The primary takes the dump unless a client commits between RESET MASTER and the load. */
  lemma PrimaryHalfCompletesIff(t: Tier, d: Dump, env: seq<seq<Step>>, from: nat)
    requires Worldly(env)
    ensures RunCommands(t, RestorePrimary(d), env, from, |RestorePrimary(d)|).1 == |RestorePrimary(d)| <==> NoCommits(At(env, from + 1))
  {
    var (u, k) := RunCommands(t, RestorePrimary(d), env, from, 1);
    ResetAccepted(t, d, env, from);
    ExecutedIffCommits(u, At(env, from + 1));
    RunNext(t, RestorePrimary(d), env, from, 1, u, Once(u, At(env, from + 1), RestorePrimary(d)[1]));
  }

  lemma ResetAccepted(t: Tier, d: Dump, env: seq<seq<Step>>, from: nat)
    ensures var (u, k) := RunCommands(t, RestorePrimary(d), env, from, 1); k == 1 && u.primary.executed == {}
  {
    RunNext(t, RestorePrimary(d), env, from, 0, t, Once(t, At(env, from), RestorePrimary(d)[0]));
  }

  /** The replica takes every command of its half. */
  lemma ReplicaHalfCompletes(t: Tier, d: Dump, env: seq<seq<Step>>, from: nat)
    requires Worldly(env) && PrimaryOnly(env) && PrimaryRestored(t, d)
    ensures RunCommands(t, RestoreReplica(d), env, from, |RestoreReplica(d)|).1 == |RestoreReplica(d)|
  {
    var cmds := RestoreReplica(d);
    forall k: nat | k < |cmds| && RunCommands(t, cmds, env, from, k).1 == k ensures Taken(t, cmds, env, from, k) {
      NextIsTaken(t, d, env, from, k);
    }
    AllTaken(t, cmds, env, from, |cmds|);
  }

  lemma NextIsTaken(t: Tier, d: Dump, env: seq<seq<Step>>, from: nat, n: nat)
    requires Worldly(env) && PrimaryOnly(env) && n < |RestoreReplica(d)| && PrimaryRestored(t, d)
    requires RunCommands(t, RestoreReplica(d), env, from, n).1 == n
    ensures Taken(t, RestoreReplica(d), env, from, n)
  {
    var u := RunCommands(t, RestoreReplica(d), env, from, n).0;
    RestoreStages(t, d, env, from, n);
    WorldKeepsStage(n, u, d, At(env, from + n));
    StageAccepts(Run(u, At(env, from + n)), d, n);
  }

  lemma StageAccepts(t: Tier, d: Dump, n: nat)
    requires n < 6 && RestoreStage(n, t, d)
    ensures !Rejected(t, RestoreReplica(d)[n])
  {}

  /** A restore that is not cut off completes exactly when no client commits between RESET MASTER and the load
      of the primary; the replica never stands in its way. */
  lemma RestoreCompletesIff(t: Tier, d: Dump, replicaUp: bool, env: seq<seq<Step>>, cut: nat)
    requires Worldly(env) && PrimaryOnly(env) && cut >= |RestorePrimary(d)| + |RestoreReplica(d)|
    ensures Restore(t, d, replicaUp, env, cut).1 == (if NoCommits(At(env, 1)) then Done else Died)
  {
    PrimaryHalfCompletesIff(t, d, env, 0);
    var (t1, k) := RunCommands(t, RestorePrimary(d), env, 0, |RestorePrimary(d)|);
    if k == |RestorePrimary(d)| {
      PrimaryStages(t, d, env, 0, k);
      ReplicaHalfCompletes(t1, d, env, 2);
    }
  }

  /** Cut off earlier, it dies. */
  lemma RestoreCutDies(t: Tier, d: Dump, replicaUp: bool, env: seq<seq<Step>>, cut: nat)
    requires cut < (if replicaUp then |RestorePrimary(d)| + |RestoreReplica(d)| else |RestorePrimary(d)|)
    ensures Restore(t, d, replicaUp, env, cut).1 == Died
  {}

  // ---- a restore that dies before it loads ------------------------------------------------------------

  lemma DataGrows(t: Tier, a: Step)
    ensures !a.LoadPrimary? ==> t.primary.data <= Do(t, a).primary.data
    ensures !a.LoadReplica? ==> t.replica.data <= Do(t, a).replica.data
  {}

  lemma {:induction false} WorldGrows(t: Tier, steps: seq<Step>)
    requires AllWorld(steps)
    ensures t.primary.data <= Run(t, steps).primary.data && t.replica.data <= Run(t, steps).replica.data
  {
    if steps != [] {
      WorldGrows(t, steps[..|steps| - 1]);
      DataGrows(Run(t, steps[..|steps| - 1]), steps[|steps| - 1]);
    }
  }

  lemma {:induction false} CommandsGrow(t: Tier, cmds: seq<Step>, env: seq<seq<Step>>, from: nat, n: nat)
    requires n <= |cmds| && Worldly(env)
    ensures (forall i :: 0 <= i < n ==> !cmds[i].LoadPrimary?) ==> t.primary.data <= RunCommands(t, cmds, env, from, n).0.primary.data
    ensures (forall i :: 0 <= i < n ==> !cmds[i].LoadReplica?) ==> t.replica.data <= RunCommands(t, cmds, env, from, n).0.replica.data
  {
    if n > 0 {
      var u := RunCommands(t, cmds, env, from, n - 1).0;
      CommandsGrow(t, cmds, env, from, n - 1);
      WorldGrows(u, At(env, from + n - 1));
      DataGrows(Run(u, At(env, from + n - 1)), cmds[n - 1]);
    }
  }

  /** RESET MASTER takes a server's GTIDs and not its data: a restore that dies before it loads a server, or
      never gets to the replica, has lost nothing that server held. */
  lemma DeathBeforeLoadKeepsData(t: Tier, d: Dump, replicaUp: bool, env: seq<seq<Step>>, cut: nat)
    requires Worldly(env)
    ensures var u := Restore(t, d, replicaUp, env, cut).0;
      && (cut < |RestorePrimary(d)| ==> t.primary.data <= u.primary.data)
      && (!replicaUp || cut < |RestorePrimary(d)| + |RestoreReplica(d)| ==> t.replica.data <= u.replica.data)
  {
    CommandsGrow(t, RestorePrimary(d), env, 0, Min(cut, |RestorePrimary(d)|));
    if cut >= 2 {
      var t1 := RunCommands(t, RestorePrimary(d), env, 0, |RestorePrimary(d)|).0;
      CommandsGrow(t1, RestoreReplica(d), env, 2, Min(cut - 2, |RestoreReplica(d)|));
    }
  }

  // ---- restoring the primary alone ------------------------------------------------------------------

  /** The replica has applied `x`. */
  ghost predicate Holds(r: Server, x: Txn) { x in r.data && x.gtid in r.executed }

  lemma StepKeepsHeld(t: Tier, x: Txn, a: Step)
    requires Holds(t.replica, x) && Routine(a)
    ensures Holds(Do(t, a).replica, x)
  {}

  lemma {:induction false} RunKeepsHeld(t: Tier, x: Txn, steps: seq<Step>)
    requires Holds(t.replica, x) && forall i :: 0 <= i < |steps| ==> Routine(steps[i])
    ensures Holds(Run(t, steps).replica, x)
  {
    if steps != [] {
      RunKeepsHeld(t, x, steps[..|steps| - 1]);
      StepKeepsHeld(Run(t, steps[..|steps| - 1]), x, steps[|steps| - 1]);
    }
  }

  /** The primary's half of a restore takes nothing from the replica. */
  lemma {:induction false} PrimaryHalfKeepsHeld(t: Tier, d: Dump, x: Txn, env: seq<seq<Step>>, from: nat, n: nat)
    requires Worldly(env) && Holds(t.replica, x) && n <= |RestorePrimary(d)|
    ensures Holds(RunCommands(t, RestorePrimary(d), env, from, n).0.replica, x)
  {
    if n > 0 {
      var u := RunCommands(t, RestorePrimary(d), env, from, n - 1).0;
      PrimaryHalfKeepsHeld(t, d, x, env, from, n - 1);
      RunKeepsHeld(u, x, At(env, from + n - 1));
      PrimaryOnlyCommand(u, At(env, from + n - 1), RestorePrimary(d)[n - 1]);
    }
  }

  lemma PrimaryOnlyCommand(t: Tier, before: seq<Step>, a: Step)
    requires a.ResetPrimary? || a.LoadPrimary?
    ensures Once(t, before, a).0.replica == Run(t, before).replica
  {}

  /** The restored primary has what the dump holds, and beyond it only what it executed since. */
  lemma MissingFromRestored(t: Tier, d: Dump, x: Txn)
    requires PrimaryRestored(t, d) && x !in d.data && x.gtid !in t.primary.executed
    ensures x !in t.primary.data
  {
    var tail := t.primary.data[|d.data|..];
    assert t.primary.data == d.data + tail;
    IdOfMember(tail, x);
  }

  lemma IdOfMember(s: seq<Txn>, x: Txn)
    ensures x in s ==> x.gtid in Ids(s)
  {}

  lemma ReissueDiverges(t: Tier, x: Txn, n: nat, body: int)
    requires Holds(t.replica, x) && x.gtid == Gtid(FromPrimary, n) && x.gtid !in t.primary.executed
    requires x !in t.primary.data && body != x.body
    ensures Diverged(Do(t, Commit(n, body)), x)
  {}

  /** Restoring only the primary, as the script does when the replica is down. Whatever happens during the
      restore and after it, restarts, setups and further commits included: once the primary issues the GTID
      of a transaction that the replica holds and the dump does not, with another body, the pair has diverged
      for good. */
  lemma PrimaryOnlyRestoreDiverges(t: Tier, d: Dump, env: seq<seq<Step>>, cut: nat, u: Tier, between: seq<Step>, v: Tier,
                                   x: Txn, n: nat, body: int, later: seq<Step>)
    requires Worldly(env) && (u, Done) == Restore(t, d, false, env, cut)
    requires v == Run(u, between) && forall i :: 0 <= i < |between| ==> Routine(between[i])
    requires x.gtid == Gtid(FromPrimary, n) && x !in d.data && body != x.body
    requires forall i :: 0 <= i < |later| ==> Routine(later[i])
    ensures Holds(v.replica, x) && x.gtid !in v.primary.executed ==>
      var w := Run(Do(v, Commit(n, body)), later); Diverged(w, x) && !(w.replica.data <= w.primary.data)
  {
    RestoreSyncs(t, d, false, env, cut);
    RunKeepsPrimary(u, d, between);
    RestoredPairDiverges(v, d, x, n, body, later);
  }

  lemma RestoredPairDiverges(v: Tier, d: Dump, x: Txn, n: nat, body: int, later: seq<Step>)
    requires PrimaryRestored(v, d) && x.gtid == Gtid(FromPrimary, n) && x !in d.data && body != x.body
    requires forall i :: 0 <= i < |later| ==> Routine(later[i])
    ensures Holds(v.replica, x) && x.gtid !in v.primary.executed ==>
      var w := Run(Do(v, Commit(n, body)), later); Diverged(w, x) && !(w.replica.data <= w.primary.data)
  {
    if Holds(v.replica, x) && x.gtid !in v.primary.executed {
      MissingFromRestored(v, d, x);
      ReissueDiverges(v, x, n, body);
      DivergencePersists(Do(v, Commit(n, body)), x, later);
    }
  }

  /** What the replica held before the restore it still holds then. */
  lemma PrimaryOnlyRestoreKeepsReplica(t: Tier, d: Dump, env: seq<seq<Step>>, cut: nat, between: seq<Step>, x: Txn)
    requires Worldly(env) && Holds(t.replica, x) && forall i :: 0 <= i < |between| ==> Routine(between[i])
    ensures Holds(Run(Restore(t, d, false, env, cut).0, between).replica, x)
  {
    PrimaryHalfKeepsHeld(t, d, x, env, 0, Min(cut, |RestorePrimary(d)|));
    RunKeepsHeld(Restore(t, d, false, env, cut).0, x, between);
  }

  // ---- backup and restore ---------------------------------------------------------------------------

  /** The snapshot a backup of the replica holds is a consistent cut: some commit prefix of the primary and
      exactly its GTIDs. Restored, it puts both servers back to that prefix. */
  lemma BackupRestoreRoundTrip(t: Tier, later: Tier, env: seq<seq<Step>>, cut: nat)
    requires Sync(t) && Worldly(env) && PrimaryOnly(env)
    ensures var d := Snapshot(t.replica);
            && d.data <= t.primary.data
            && d.gtids == t.origin.gtids + Ids(t.primary.data[|t.origin.data|..|d.data|])
            && var (u, exit) := Restore(later, d, true, env, cut);
               exit == Done ==> Sync(u) && Snapshot(u.replica) == d && d.data <= u.primary.data
  {
    var d := Snapshot(t.replica);
    SyncAt(t);
    SyncIsPrefix(t);
    assert t.primary.data[|t.origin.data|..|d.data|] == Tail(t)[..Applied(t)];
    RestoreSyncs(later, d, true, env, cut);
  }

  // ---- restore, then setup --------------------------------------------------------------------------

  /** The recovery procedure as a whole: restore both servers from one dump, then a forced setup. However
      clients and servers interleave, the pair ends armed and in sync on that dump, and in every later run,
      GTIDs issued again included, the replica holds a prefix of the primary. */
  lemma RestoreThenForcedSetup(t: Tier, d: Dump, env: seq<seq<Step>>, env': seq<seq<Step>>, cut: nat, cut': nat, later: seq<Step>)
    requires Worldly(env) && PrimaryOnly(env) && Worldly(env') && PrimaryOnly(env')
    requires forall i :: 0 <= i < |later| ==> Arming(later[i])
    ensures var (u, restored) := Restore(t, d, true, env, cut);
            var (v, exit) := Setup(u, true, env', cut');
            restored == Done && exit == Done ==>
              && Sync(v) && Armed(v.replica) && v.replica.source && d.data <= v.replica.data
              && Run(v, later).replica.data <= Run(v, later).primary.data
  {
    RestoreSyncs(t, d, true, env, cut);
    var (u, restored) := Restore(t, d, true, env, cut);
    var (v, exit) := Setup(u, true, env', cut');
    if restored == Done && exit == Done {
      SetupKeepsSync(u, true, env', cut', v);
      SetupArms(u, true, env', cut');
      OriginStays(u, true, env', cut');
      SyncAt(v);
      ArmedRunsKeepSync(v, later);
    }
  }

  lemma StepKeepsOrigin(t: Tier, a: Step)
    requires Routine(a)
    ensures Do(t, a).origin == t.origin
  {
  }

  lemma {:induction false} WorldKeepsOrigin(t: Tier, steps: seq<Step>)
    requires forall i :: 0 <= i < |steps| ==> Routine(steps[i])
    ensures Run(t, steps).origin == t.origin
  {
    if steps != [] {
      WorldKeepsOrigin(t, steps[..|steps| - 1]);
      StepKeepsOrigin(Run(t, steps[..|steps| - 1]), steps[|steps| - 1]);
    }
  }

  lemma {:induction false} CommandsKeepOrigin(t: Tier, cmds: seq<Step>, env: seq<seq<Step>>, from: nat, n: nat)
    requires n <= |cmds| && Worldly(env) && forall i :: 0 <= i < |cmds| ==> Routine(cmds[i])
    ensures AfterCommands(t, cmds, env, from, n).origin == t.origin
  {
    if n > 0 {
      var u := AfterCommands(t, cmds, env, from, n - 1);
      CommandsKeepOrigin(t, cmds, env, from, n - 1);
      WorldKeepsOrigin(u, At(env, from + n - 1));
      StepKeepsOrigin(Run(u, At(env, from + n - 1)), cmds[n - 1]);
    }
  }

  lemma {:induction false} AwaitKeepsOrigin(t: Tier, env: seq<seq<Step>>, from: nat, polls: nat)
    requires Worldly(env)
    ensures AwaitSql(t, env, from, polls).origin == t.origin
    decreases polls
  {
    if polls > 0 && !t.replica.sql {
      WorldKeepsOrigin(t, At(env, from));
      AwaitKeepsOrigin(Run(t, At(env, from)), env, from + 1, polls - 1);
    }
  }

  lemma OriginStays(t: Tier, force: bool, env: seq<seq<Step>>, cut: nat)
    requires Worldly(env)
    ensures Setup(t, force, env, cut).0.origin == t.origin
  {
    WorldKeepsOrigin(t, At(env, 0));
    var t0 := Run(t, At(env, 0));
    CommandsKeepOrigin(t0, SETUP, env, 1, Min(cut, |SETUP|));
    AwaitKeepsOrigin(AfterCommands(t0, SETUP, env, 1, Min(cut, |SETUP|)), env, 7, 30);
  }
}
