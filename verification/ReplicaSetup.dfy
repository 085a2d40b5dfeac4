/** scripts/db/setup_replication.sh: what it arms, and what it keeps. */
module ReplicaSetup {
  import opened Mysql
  import opened Replication
  import opened Scripts

  // ---- setup --------------------------------------------------------------------------------------

  /** What holds after n commands of setup: threads stopped, source set, protection on. */
  predicate SetupStage(n: nat, f: Flags) {
    && (1 <= n <= 3 ==> !f.io && !f.sql)
    && (n >= 3 ==> f.source)
    && (n >= 5 ==> f.readOnly && f.keptReadOnly)
    && (n >= 6 ==> f.superReadOnly && f.keptSuperReadOnly)
  }

  lemma {:induction false} SetupStages(t: Tier, env: seq<seq<Step>>, n: nat)
    requires Worldly(env) && n <= |SETUP|
    ensures SetupStage(n, FlagsOf(AfterCommands(t, SETUP, env, 1, n)))
  {
    if n > 0 {
      SetupStages(t, env, n - 1);
      var f := FlagsOf(AfterCommands(t, SETUP, env, 1, n - 1));
      SetupScripted(n - 1);
      var g := NextFlags(t, SETUP, env, 1, n - 1);
      SetupNext(n - 1, f, g);
    }
  }

  lemma SetupScripted(n: nat)
    requires n < |SETUP|
    ensures Scripted(SETUP[n])
  {}

  lemma SetupNext(n: nat, f: Flags, g: Flags)
    requires n < |SETUP| && SetupStage(n, f) && Drift(f, g)
    ensures SetupStage(n + 1, FlagsAfter(g, SETUP[n]))
  {}

  lemma {:induction false} AwaitSqlDrifts(t: Tier, env: seq<seq<Step>>, from: nat, polls: nat)
    requires Worldly(env)
    ensures Drift(FlagsOf(t), FlagsOf(AwaitSql(t, env, from, polls)))
    decreases polls
  {
    if polls > 0 && !t.replica.sql {
      WorldDrifts(t, At(env, from));
      AwaitSqlDrifts(Run(t, At(env, from)), env, from + 1, polls - 1);
    }
  }

  lemma {:induction false} AwaitSqlKeepsSync(t: Tier, env: seq<seq<Step>>, from: nat, polls: nat)
    requires Worldly(env) && PrimaryOnly(env) && Sync(t)
    ensures Sync(AwaitSql(t, env, from, polls))
    decreases polls
  {
    if polls > 0 && !t.replica.sql {
      SyncWorld(t, env, from);
      AwaitSqlKeepsSync(Run(t, At(env, from)), env, from + 1, polls - 1);
    }
  }

  /** A setup that runs to its end leaves an armed, following replica, and with --force it always runs.
      Without --force it leaves everything alone exactly when the IO thread is seen running. */
  lemma SetupArms(t: Tier, force: bool, env: seq<seq<Step>>, cut: nat)
    requires Worldly(env)
    ensures var (u, exit) := Setup(t, force, env, cut);
            && (exit == Done ==> IsArmed(FlagsOf(u)) && u.replica.source)
            && (exit == AlreadyRunning <==> !force && Run(t, At(env, 0)).replica.io)
            && (exit == AlreadyRunning ==> u == Run(t, At(env, 0)))
  {
    var t0 := Run(t, At(env, 0));
    if cut >= |SETUP| {
      SetupStages(t0, env, |SETUP|);
      AwaitSqlDrifts(AfterCommands(t0, SETUP, env, 1, |SETUP|), env, 7, 30);
    }
  }

  /** How setup ends: it leaves a running IO thread alone unless it is forced, it dies where it is cut off or
      when the SQL thread does not run in the end, and otherwise it succeeds. */
  lemma SetupDoneIff(t: Tier, force: bool, env: seq<seq<Step>>, cut: nat)
    ensures var (u, exit) := Setup(t, force, env, cut);
            var runs := force || !Run(t, At(env, 0)).replica.io;
            && (exit == AlreadyRunning <==> !runs)
            && (exit == Done <==> runs && cut >= |SETUP| && u.replica.sql)
            && (exit == Died <==> runs && !(cut >= |SETUP| && u.replica.sql))
  {}

  /** Undisturbed, a setup that is forced or does not see the IO thread running succeeds from every state, and
      leaves both threads running and the replica armed. */
  lemma QuietSetupSucceeds(t: Tier, force: bool, cut: nat)
    requires cut >= |SETUP| && (force || !t.replica.io)
    ensures var (u, exit) := Setup(t, force, [], cut);
            exit == Done && u.replica.io && u.replica.sql && u.replica.source && Armed(u.replica)
  {
    assert At([], 0) == [] && Run(t, []) == t;
    QuietStages(t, |SETUP|);
  }

  /** Between its second and fourth command the relay log is empty: whatever was received and not applied is
      discarded, and asked for again. */
  lemma SetupDiscardsRelay(t: Tier, env: seq<seq<Step>>, n: nat)
    requires Worldly(env) && 2 <= n <= 3
    ensures AfterCommands(t, SETUP, env, 1, n).replica.relay == []
  {
    var u := AfterCommands(t, SETUP, env, 1, n - 1);
    NextCommand(t, SETUP, env, 1, n - 1);
    SetupStages(t, env, n - 1);
    WorldKeepsStopped(u, At(env, n));
    if n == 3 { SetupDiscardsRelay(t, env, 2); }
    EmptiesRelay(Run(u, At(env, n)), n - 1);
  }

  lemma EmptiesRelay(t: Tier, n: nat)
    requires 1 <= n <= 2 && !t.replica.io && !t.replica.sql && (n == 2 ==> t.replica.relay == [])
    ensures Do(t, SETUP[n]).replica.relay == []
  {}

  /** With both threads stopped the relay log stays as it is. */
  lemma {:induction false} WorldKeepsStopped(t: Tier, steps: seq<Step>)
    requires !t.replica.io && !t.replica.sql && AllWorld(steps)
    ensures !Run(t, steps).replica.io && !Run(t, steps).replica.sql && Run(t, steps).replica.relay == t.replica.relay
  {
    if steps != [] {
      WorldKeepsStopped(t, steps[..|steps| - 1]);
      StoppedStep(Run(t, steps[..|steps| - 1]), steps[|steps| - 1]);
    }
  }

  lemma StoppedStep(t: Tier, a: Step)
    requires World(a) && !t.replica.io && !t.replica.sql
    ensures !Do(t, a).replica.io && !Do(t, a).replica.sql && Do(t, a).replica.relay == t.replica.relay
  {}

  /** A setup that exits 0 leaves an armed replica exactly when it was forced, or did not see the IO thread
      running, or the replica was armed already when it looked: "safe to re-run" does not cover the
      protection. */
  lemma ExitZeroArmsIff(t: Tier, force: bool, env: seq<seq<Step>>, cut: nat)
    requires Worldly(env)
    ensures var (u, exit) := Setup(t, force, env, cut);
            var seen := Run(t, At(env, 0));
            exit != Died ==> (IsArmed(FlagsOf(u)) <==> force || !seen.replica.io || IsArmed(FlagsOf(seen)))
  {
    SetupArms(t, force, env, cut);
  }

  /** What n commands of setup make of the flags `f` when nothing comes in between. */
  predicate QuietStage(n: nat, f: Flags, g: Flags) {
    && (n == 0 ==> g == f)
    && (1 <= n <= 3 ==> !g.io && !g.sql)
    && (n >= 3 ==> g.source)
    && (n >= 4 ==> g.io && g.sql)
    && (n == 6 ==> IsArmed(g))
    && (n <= 4 ==> SameProtection(f, g))
    && (n == 5 ==> g.readOnly && g.keptReadOnly && g.superReadOnly == f.superReadOnly && g.keptSuperReadOnly == f.keptSuperReadOnly)
  }

  predicate SameProtection(f: Flags, g: Flags) {
    && g.readOnly == f.readOnly && g.superReadOnly == f.superReadOnly
    && g.keptReadOnly == f.keptReadOnly && g.keptSuperReadOnly == f.keptSuperReadOnly
  }

  lemma QuietNext(n: nat, f: Flags, g: Flags)
    requires n < |SETUP| && QuietStage(n, f, g)
    ensures QuietStage(n + 1, f, FlagsAfter(g, SETUP[n]))
  {}

  lemma {:induction false} QuietStages(t: Tier, n: nat)
    requires n <= |SETUP|
    ensures QuietStage(n, FlagsOf(t), FlagsOf(AfterCommands(t, SETUP, [], 1, n)))
  {
    if n > 0 {
      QuietStages(t, n - 1);
      var u := AfterCommands(t, SETUP, [], 1, n - 1);
      assert At([], n) == [] && Run(u, []) == u;
      SetupScripted(n - 1);
      CommandFlags(u, SETUP[n - 1]);
      QuietNext(n - 1, FlagsOf(t), FlagsOf(u));
    }
  }

  /** A setup that dies before any of its commands, undisturbed, and a plain re-run: the re-run reports success
      exactly when the IO thread runs, which is so after START REPLICA, and then changes nothing. The replica
      is then armed only as far as it was before: dying at the second of the two arming commands does not
      help if super_read_only was off. */
  lemma PlainRerunDoesNotArm(t: Tier, cut: nat, again: nat)
    requires cut <= 5
    ensures var (u, first) := Setup(t, true, [], cut);
            && first == Died
            && (u.replica.io <==> cut >= 4 || (cut == 0 && t.replica.io))
            && (IsArmed(FlagsOf(u)) <==> if cut == 5 then t.replica.superReadOnly && t.replica.keptSuperReadOnly else IsArmed(FlagsOf(t)))
            && (u.replica.io ==> Setup(u, false, [], again) == (u, AlreadyRunning))
            && (!u.replica.io ==> Setup(u, false, [], again).1 != AlreadyRunning)
  {
    assert At([], 0) == [] && Run(t, []) == t;
    QuietStages(t, cut);
    var u := Setup(t, true, [], cut).0;
    assert Run(u, []) == u;
  }

  /** So a replica that was not protected ends unprotected, and reported as fine, after a death at either of
      the two arming commands. */
  lemma UnarmedAndReportedFine(t: Tier, cut: nat, again: nat)
    requires 4 <= cut <= 5 && !t.replica.superReadOnly
    ensures var (u, first) := Setup(t, true, [], cut);
            && Setup(u, false, [], again) == (u, AlreadyRunning) && u.replica.io && !IsArmed(FlagsOf(u))
  {
    PlainRerunDoesNotArm(t, cut, again);
  }

  /** Setup in any state of completion, however interleaved, keeps the replica in sync. */
  lemma {:induction false} CommandsKeepSync(t: Tier, cmds: seq<Step>, env: seq<seq<Step>>, from: nat, n: nat)
    requires n <= |cmds| && Worldly(env) && PrimaryOnly(env) && Sync(t)
    requires forall i :: 0 <= i < |cmds| ==> Routine(cmds[i]) && !cmds[i].WriteReplica?
    ensures Sync(AfterCommands(t, cmds, env, from, n))
  {
    if n > 0 {
      var u := AfterCommands(t, cmds, env, from, n - 1);
      CommandsKeepSync(t, cmds, env, from, n - 1);
      CommandKeepsSync(u, env, from + n - 1, cmds[n - 1]);
    }
  }

  lemma CommandKeepsSync(t: Tier, env: seq<seq<Step>>, i: nat, a: Step)
    requires Sync(t) && Worldly(env) && PrimaryOnly(env) && Routine(a) && !a.WriteReplica?
    ensures Sync(Do(Run(t, At(env, i)), a))
  {
    SyncWorld(t, env, i);
    StepKeepsSync(Run(t, At(env, i)), a);
  }

  lemma SetupKeepsSync(t: Tier, force: bool, env: seq<seq<Step>>, cut: nat, u: Tier)
    requires Worldly(env) && PrimaryOnly(env) && Sync(t) && u == Setup(t, force, env, cut).0
    ensures Sync(u)
  {
    SyncWorld(t, env, 0);
    SetupCommandsKeepSync(Run(t, At(env, 0)), env, Min(cut, |SETUP|), 30);
  }

  lemma SetupCommandsKeepSync(t0: Tier, env: seq<seq<Step>>, n: nat, polls: nat)
    requires Worldly(env) && PrimaryOnly(env) && Sync(t0) && n <= |SETUP|
    ensures var t1 := AfterCommands(t0, SETUP, env, 1, n); Sync(t1) && Sync(AwaitSql(t1, env, 7, polls))
  {
    CommandsKeepSync(t0, SETUP, env, 1, n);
    AwaitSqlKeepsSync(AfterCommands(t0, SETUP, env, 1, n), env, 7, polls);
  }
}
