/** scripts/db/promote_replica.sh: what it guards, and what it loses. */
module Failover {
  import opened Mysql
  import opened Replication
  import opened Scripts

  // ---- what the replica receives ------------------------------------------------------------------

  /** What a step brings into the relay log. */
  function Fetched(t: Tier, a: Step): seq<Txn> {
    if a.Fetch? && CanStream(t) && FirstMissing(t.primary.binlog, Have(t.replica)).Some?
    then [FirstMissing(t.primary.binlog, Have(t.replica)).value] else []
  }

  function AllFetched(t: Tier, steps: seq<Step>): seq<Txn> {
    if steps == [] then [] else AllFetched(t, steps[..|steps| - 1]) + Fetched(Run(t, steps[..|steps| - 1]), steps[|steps| - 1])
  }

  /** Everything the replica was sent, applied or not. */
  function Received(t: Tier): seq<Txn> { t.replica.data + t.replica.relay }

  /** The steps of a failover before RESET REPLICA ALL. */
  predicate Quiet(a: Step) { World(a) || a == StopReplica || a == StopIo }

  ghost predicate AllQuiet(steps: seq<Step>) { forall i :: 0 <= i < |steps| ==> Quiet(steps[i]) }

  lemma ApplyMovesHead(t: Tier)
    requires Sync(t)
    ensures var u := Do(t, ApplyNext);
            u.replica.data + u.replica.relay == t.replica.data + t.replica.relay
    ensures t.replica.relay == [] ==> Do(t, ApplyNext) == t
  {
    if t.replica.source && t.replica.sql && t.replica.relay != [] {
      ApplyDoes(t);
      HeadMoves(t.replica);
    }
  }

  lemma HeadMoves(r: Server)
    requires r.relay != []
    ensures ApplyHead(r).data + ApplyHead(r).relay == r.data + r.relay
  {
    assert r.relay == [r.relay[0]] + r.relay[1..];
  }

  lemma StepReceives(t: Tier, a: Step)
    requires Sync(t) && Armed(t.replica) && Quiet(a)
    ensures Sync(Do(t, a)) && Armed(Do(t, a).replica)
    ensures Received(Do(t, a)) == Received(t) + Fetched(t, a)
  {
    StepKeepsSync(t, a);
    StepKeepsArmed(t, a);
    if a == ApplyNext { ApplyMovesHead(t); }
  }

  /** Applying only moves transactions from the relay log into the data; what is fetched comes on top. */
  lemma {:induction false} RunReceives(t: Tier, steps: seq<Step>)
    requires Sync(t) && Armed(t.replica) && AllQuiet(steps)
    ensures Sync(Run(t, steps)) && Armed(Run(t, steps).replica)
    ensures Received(Run(t, steps)) == Received(t) + AllFetched(t, steps)
  {
    if steps != [] {
      RunReceives(t, steps[..|steps| - 1]);
      StepReceives(Run(t, steps[..|steps| - 1]), steps[|steps| - 1]);
    }
  }

  lemma {:induction false} AllFetchedConcat(t: Tier, a: seq<Step>, b: seq<Step>)
    ensures AllFetched(t, a + b) == AllFetched(t, a) + AllFetched(Run(t, a), b)
  {
    if b == [] {
      assert a + b == a;
    } else {
      assert (a + b)[..|a + b| - 1] == a + b[..|b| - 1];
      AllFetchedConcat(t, a, b[..|b| - 1]);
      RunConcat(t, a, b[..|b| - 1]);
    }
  }

  /** With the IO thread stopped nothing is fetched. */
  lemma {:induction false} NoIoNoFetch(t: Tier, steps: seq<Step>)
    requires !t.replica.io && AllQuiet(steps)
    ensures AllFetched(t, steps) == [] && !Run(t, steps).replica.io
  {
    if steps != [] {
      NoIoNoFetch(t, steps[..|steps| - 1]);
      QuietStartsNothing(Run(t, steps[..|steps| - 1]), steps[|steps| - 1]);
    }
  }

  lemma QuietStartsNothing(t: Tier, a: Step)
    requires Quiet(a)
    ensures (Do(t, a).replica.io ==> t.replica.io) && (Do(t, a).replica.sql ==> t.replica.sql)
    ensures !t.replica.io && !t.replica.sql ==> Do(t, a).replica.relay == t.replica.relay
  {}

  /** With both threads stopped the relay log stays as it is. */
  lemma {:induction false} StoppedKeepsRelay(t: Tier, steps: seq<Step>)
    requires !t.replica.io && !t.replica.sql && AllQuiet(steps)
    ensures !Run(t, steps).replica.io && !Run(t, steps).replica.sql && Run(t, steps).replica.relay == t.replica.relay
  {
    if steps != [] {
      StoppedKeepsRelay(t, steps[..|steps| - 1]);
      QuietStartsNothing(Run(t, steps[..|steps| - 1]), steps[|steps| - 1]);
    }
  }

  // ---- what a failover guards -----------------------------------------------------------------------

  lemma {:induction false} DrainKeeps(t: Tier, env: seq<seq<Step>>, from: nat, polls: nat)
    requires Worldly(env)
    ensures var (u, drained) := AwaitDrain(t, env, from, polls);
            && (IsArmed(FlagsOf(t)) ==> IsArmed(FlagsOf(u)))
            && (Armed(t.replica) && Sync(t) ==> Sync(u))
            && (drained ==> u.replica.relay == [])
    decreases polls
  {
    if polls > 0 && !(t.replica.sql && t.replica.relay == []) {
      var w := At(env, from);
      WorldDrifts(t, w);
      if Armed(t.replica) && Sync(t) { ArmedWorld(t, w); }
      DrainKeeps(Run(t, w), env, from + 1, polls - 1);
    }
  }

  /** What holds after n of the final commands of a promotion. */
  predicate PromoteStage(n: nat, f: Flags, armed: bool) {
    && (n <= 1 && armed ==> IsArmed(f))
    && (n >= 1 ==> !f.io && !f.sql)
    && (n >= 2 ==> !f.source)
    && (n >= 3 ==> !f.superReadOnly && !f.keptSuperReadOnly)
    && (n >= 4 ==> !f.readOnly && !f.keptReadOnly)
  }

  lemma {:induction false} PromoteStages(d: Tier, env: seq<seq<Step>>, from: nat, n: nat)
    requires Worldly(env) && n <= |PROMOTE|
    ensures PromoteStage(n, FlagsOf(AfterCommands(d, PROMOTE, env, from, n)), IsArmed(FlagsOf(d)))
  {
    if n > 0 {
      PromoteStages(d, env, from, n - 1);
      PromoteOneMore(d, env, from, n - 1);
    }
  }

  lemma PromoteOneMore(d: Tier, env: seq<seq<Step>>, from: nat, n: nat)
    requires Worldly(env) && n < |PROMOTE|
    requires PromoteStage(n, FlagsOf(AfterCommands(d, PROMOTE, env, from, n)), IsArmed(FlagsOf(d)))
    ensures PromoteStage(n + 1, FlagsOf(AfterCommands(d, PROMOTE, env, from, n + 1)), IsArmed(FlagsOf(d)))
  {
    PromoteScripted(n);
    var g := NextFlags(d, PROMOTE, env, from, n);
    PromoteNext(n, FlagsOf(AfterCommands(d, PROMOTE, env, from, n)), g, IsArmed(FlagsOf(d)));
  }

  lemma PromoteScripted(n: nat)
    requires n < |PROMOTE|
    ensures Scripted(PROMOTE[n])
  {}

  lemma PromoteNext(n: nat, f: Flags, g: Flags, armed: bool)
    requires n < |PROMOTE| && PromoteStage(n, f, armed) && Drift(f, g)
    ensures PromoteStage(n + 1, FlagsAfter(g, PROMOTE[n]), armed)
  {}

  /** After the poll and after each of the final commands a replica that was armed is guarded, and open when
      all are done. */
  lemma GuardedAfterCommands(t: Tier, ioStopFails: bool, env: seq<seq<Step>>, n: nat)
    requires Worldly(env) && Armed(t.replica) && n <= |PROMOTE|
    ensures IsArmed(FlagsOf(PromoteDrained(t, ioStopFails, env).0))
    ensures IsGuarded(FlagsOf(Promoting(t, ioStopFails, env, n)))
    ensures n == |PROMOTE| ==> IsOpen(FlagsOf(Promoting(t, ioStopFails, env, n)))
  {
    StaysArmed(t, ioStopFails, env);
    PromoteStages(PromoteDrained(t, ioStopFails, env).0, env, 31, n);
  }

  lemma StaysArmed(t: Tier, ioStopFails: bool, env: seq<seq<Step>>)
    requires Worldly(env) && Armed(t.replica)
    ensures IsArmed(FlagsOf(PromoteDrained(t, ioStopFails, env).0))
  {
    IoStoppedArmed(t, ioStopFails, env);
    DrainKeeps(IoStopped(t, ioStopFails, env), env, 1, 30);
  }

  lemma IoStoppedArmed(t: Tier, ioStopFails: bool, env: seq<seq<Step>>)
    requires Worldly(env) && Armed(t.replica)
    ensures IsArmed(FlagsOf(IoStopped(t, ioStopFails, env)))
  {
    WorldDrifts(t, At(env, 0));
  }

  /** The moment before RESET REPLICA ALL. */
  function BeforeReset(d: Tier, env: seq<seq<Step>>): Tier {
    Run(Do(Run(d, At(env, 31)), StopReplica), At(env, 32))
  }

  /** What the promotion takes over is what the replica had applied when the relay log was discarded. */
  lemma {:induction false} PromotedData(d: Tier, env: seq<seq<Step>>, n: nat)
    requires Worldly(env) && PrimaryOnly(env) && 2 <= n <= |PROMOTE|
    ensures var u := AfterCommands(d, PROMOTE, env, 31, n);
            Detached(u.replica) && u.replica.data == BeforeReset(d, env).replica.data
            && u.replica.executed == BeforeReset(d, env).replica.executed
  {
    if n == 2 {
      ResetData(d, env, 1);
    } else {
      PromotedData(d, env, n - 1);
      var before := AfterCommands(d, PROMOTE, env, 31, n - 1);
      WorldKeepsDetached(before, At(env, 31 + n - 1));
      NextCommand(d, PROMOTE, env, 31, n - 1);
      OpenKeepsDetached(Run(before, At(env, 31 + n - 1)), PROMOTE[n - 1]);
    }
  }

  /** Here `n` counts the commands up to RESET REPLICA ALL. */
  lemma ResetData(d: Tier, env: seq<seq<Step>>, n: nat)
    requires Worldly(env) && n < |PROMOTE| && PROMOTE[n] == ResetReplicaAll
    ensures var u := AfterCommands(d, PROMOTE, env, 31, n + 1);
            Detached(u.replica) && u.replica.data == BeforeReset(d, env).replica.data
            && u.replica.executed == BeforeReset(d, env).replica.executed
  {
    NextCommand(d, PROMOTE, env, 31, n - 1);
    NextCommand(d, PROMOTE, env, 31, n);
    PromoteStages(d, env, 31, n);
    ResetDetaches(BeforeReset(d, env));
  }

  lemma ResetDetaches(t: Tier)
    requires !t.replica.io && !t.replica.sql
    ensures Detached(Do(t, ResetReplicaAll).replica) && Do(t, ResetReplicaAll).replica.data == t.replica.data
    ensures Do(t, ResetReplicaAll).replica.executed == t.replica.executed
  {}

  lemma OpenKeepsDetached(t: Tier, a: Step)
    requires Detached(t.replica) && (a.PersistReadOnly? || a.PersistSuperReadOnly?)
    ensures Detached(Do(t, a).replica) && Do(t, a).replica.data == t.replica.data
    ensures Do(t, a).replica.executed == t.replica.executed && Do(t, a).primary == t.primary && Do(t, a).origin == t.origin
  {}

  /** What a promotion takes over, whatever its clients and servers did. */
  lemma PromotedIsApplied(t: Tier, ioStopFails: bool, env: seq<seq<Step>>)
    requires Worldly(env) && PrimaryOnly(env)
    ensures var before := BeforeReset(PromoteDrained(t, ioStopFails, env).0, env).replica;
            var after := Promoted(t, ioStopFails, env).replica;
            Detached(after) && after.data == before.data && after.executed == before.executed
  {
    PromotedData(PromoteDrained(t, ioStopFails, env).0, env, |PROMOTE|);
  }

  // ---- what a failover loses ------------------------------------------------------------------------

  /** The state at the k-th poll. */
  function AtPoll(t: Tier, env: seq<seq<Step>>, from: nat, k: nat): Tier
    decreases k
  {
    if k == 0 then t else AtPoll(Run(t, At(env, from)), env, from + 1, k - 1)
  }

  predicate Drained(r: Server) { r.sql && r.relay == [] }

  /** The poll reports a drained relay log exactly when one of its looks found it so with the SQL thread
      running, and then stops there. */
  lemma {:induction false} PollSeesDrained(t: Tier, env: seq<seq<Step>>, from: nat, polls: nat)
    ensures var (u, drained) := AwaitDrain(t, env, from, polls);
            && (drained ==> Drained(u.replica) && exists k: nat :: k < polls && u == AtPoll(t, env, from, k))
            && (!drained ==> u == AtPoll(t, env, from, polls) && forall k: nat :: k < polls ==> !Drained(AtPoll(t, env, from, k).replica))
    decreases polls
  {
    if polls > 0 {
      assert AtPoll(t, env, from, 0) == t;
      if !Drained(t.replica) {
        var next := Run(t, At(env, from));
        PollSeesDrained(next, env, from + 1, polls - 1);
        var (u, drained) := AwaitDrain(next, env, from + 1, polls - 1);
        if drained {
          var k: nat :| k < polls - 1 && u == AtPoll(next, env, from + 1, k);
          assert u == AtPoll(t, env, from, k + 1);
        } else {
          forall k: nat | k < polls ensures !Drained(AtPoll(t, env, from, k).replica) {
            assert k > 0 ==> AtPoll(t, env, from, k) == AtPoll(next, env, from + 1, k - 1);
          }
        }
      }
    }
  }

  /** What happens during the drain poll. */
  function DrainSteps(t: Tier, env: seq<seq<Step>>, from: nat, polls: nat): seq<Step>
    decreases polls
  {
    if polls == 0 || (t.replica.sql && t.replica.relay == []) then []
    else At(env, from) + DrainSteps(Run(t, At(env, from)), env, from + 1, polls - 1)
  }

  lemma {:induction false} DrainRuns(t: Tier, env: seq<seq<Step>>, from: nat, polls: nat)
    requires Worldly(env)
    ensures Run(t, DrainSteps(t, env, from, polls)) == AwaitDrain(t, env, from, polls).0
    ensures AllQuiet(DrainSteps(t, env, from, polls))
    decreases polls
  {
    if polls > 0 && !(t.replica.sql && t.replica.relay == []) {
      var u := Run(t, At(env, from));
      DrainRuns(u, env, from + 1, polls - 1);
      RunConcat(t, At(env, from), DrainSteps(u, env, from + 1, polls - 1));
    }
  }

  function StopIoSteps(ioStopFails: bool, env: seq<seq<Step>>): seq<Step> {
    At(env, 0) + (if ioStopFails then [] else [StopIo])
  }

  function LastSteps(env: seq<seq<Step>>): seq<Step> { At(env, 31) + [StopReplica] + At(env, 32) }

  /** Everything from the start of the script to the moment before RESET REPLICA ALL. */
  function FailoverSteps(t: Tier, ioStopFails: bool, env: seq<seq<Step>>): seq<Step> {
    StopIoSteps(ioStopFails, env) + DrainSteps(IoStopped(t, ioStopFails, env), env, 1, 30) + LastSteps(env)
  }

  lemma StopIoRuns(t: Tier, ioStopFails: bool, env: seq<seq<Step>>)
    requires Worldly(env)
    ensures Run(t, StopIoSteps(ioStopFails, env)) == IoStopped(t, ioStopFails, env) && AllQuiet(StopIoSteps(ioStopFails, env))
    ensures AllFetched(t, StopIoSteps(ioStopFails, env)) == AllFetched(t, At(env, 0))
    ensures !ioStopFails ==> !IoStopped(t, ioStopFails, env).replica.io
  {
    var first, rest := At(env, 0), if ioStopFails then [] else [StopIo];
    RunConcat(t, first, rest);
    AllFetchedConcat(t, first, rest);
    assert [StopIo][..0] == [];
    assert AllFetched(Run(t, first), rest) == [];
    assert Run(Run(t, first), rest) == IoStopped(t, ioStopFails, env);
  }

  lemma LastRuns(d: Tier, env: seq<seq<Step>>)
    requires Worldly(env)
    ensures Run(d, LastSteps(env)) == BeforeReset(d, env) && AllQuiet(LastSteps(env))
    ensures AllFetched(d, LastSteps(env)) == AllFetched(d, At(env, 31))
    ensures BeforeReset(d, env).replica.relay == Run(d, At(env, 31)).replica.relay
  {
    var w := At(env, 31);
    var u := Do(Run(d, w), StopReplica);
    RunThree(d, w, [StopReplica], At(env, 32));
    StopAlone(Run(d, w));
    NoIoNoFetch(u, At(env, 32));
    StoppedKeepsRelay(u, At(env, 32));
  }

  lemma StopAlone(t: Tier)
    ensures Run(t, [StopReplica]) == Do(t, StopReplica) && AllFetched(t, [StopReplica]) == []
  {
    assert [StopReplica][..0] == [];
  }

  /** The whole path, and what is fetched along it. */
  lemma FailoverRuns(t: Tier, ioStopFails: bool, env: seq<seq<Step>>)
    requires Worldly(env)
    ensures var steps := FailoverSteps(t, ioStopFails, env);
            var d := PromoteDrained(t, ioStopFails, env).0;
            && Run(t, steps) == BeforeReset(d, env) && AllQuiet(steps)
            && (!ioStopFails ==> AllFetched(t, steps) == AllFetched(t, At(env, 0)))
  {
    var t1 := IoStopped(t, ioStopFails, env);
    StopIoRuns(t, ioStopFails, env);
    DrainRuns(t1, env, 1, 30);
    var polls := DrainSteps(t1, env, 1, 30);
    LastRuns(PromoteDrained(t, ioStopFails, env).0, env);
    RunThree(t, StopIoSteps(ioStopFails, env), polls, LastSteps(env));
    if !ioStopFails { NoIoNoFetchTwice(t1, polls, LastSteps(env)); }
  }

  lemma RunThree(t: Tier, a: seq<Step>, b: seq<Step>, c: seq<Step>)
    ensures Run(t, a + b + c) == Run(Run(Run(t, a), b), c)
    ensures AllFetched(t, a + b + c) == AllFetched(t, a) + AllFetched(Run(t, a), b) + AllFetched(Run(Run(t, a), b), c)
    ensures AllQuiet(a) && AllQuiet(b) && AllQuiet(c) ==> AllQuiet(a + b + c)
  {
    RunConcat(t, a, b);
    RunConcat(t, a + b, c);
    AllFetchedConcat(t, a, b);
    AllFetchedConcat(t, a + b, c);
  }

  lemma NoIoNoFetchTwice(t: Tier, a: seq<Step>, b: seq<Step>)
    requires !t.replica.io && AllQuiet(a) && AllQuiet(b)
    ensures AllFetched(t, a) == [] && AllFetched(Run(t, a), b) == []
  {
    NoIoNoFetch(t, a);
    NoIoNoFetch(Run(t, a), b);
  }

  /** The final commands, each after what happens before it. */
  function CommandSteps(env: seq<seq<Step>>, from: nat, n: nat): seq<Step>
    requires n <= |PROMOTE|
  {
    if n == 0 then [] else CommandSteps(env, from, n - 1) + (At(env, from + n - 1) + [PROMOTE[n - 1]])
  }

  lemma {:induction false} CommandsRun(d: Tier, env: seq<seq<Step>>, from: nat, n: nat)
    requires n <= |PROMOTE|
    ensures Run(d, CommandSteps(env, from, n)) == AfterCommands(d, PROMOTE, env, from, n)
  {
    if n > 0 {
      CommandsRun(d, env, from, n - 1);
      RunConcat(d, CommandSteps(env, from, n - 1), At(env, from + n - 1) + [PROMOTE[n - 1]]);
      RunLast(AfterCommands(d, PROMOTE, env, from, n - 1), At(env, from + n - 1), PROMOTE[n - 1]);
    }
  }

  lemma RunLast(t: Tier, steps: seq<Step>, a: Step)
    ensures Run(t, steps + [a]) == Do(Run(t, steps), a)
  {
    assert (steps + [a])[..|steps|] == steps;
  }

  lemma PrefixOfConcat(a: seq<Step>, b: seq<Step>, k: nat)
    requires k <= |a + b|
    ensures (a + b)[..k] == if k <= |a| then a[..k] else a + b[..k - |a|]
  {}

  /** Inside the final commands: what happens before a command changes nothing about the protection of its
      stage, and the command leads to the next stage. */
  lemma {:induction false} CommandPrefixGuarded(d: Tier, env: seq<seq<Step>>, from: nat, n: nat, k: nat)
    requires Worldly(env) && IsArmed(FlagsOf(d)) && n <= |PROMOTE| && k <= |CommandSteps(env, from, n)|
    ensures IsGuarded(FlagsOf(Run(d, CommandSteps(env, from, n)[..k])))
  {
    if n > 0 {
      var before, w := CommandSteps(env, from, n - 1), At(env, from + n - 1);
      PrefixOfConcat(before, w + [PROMOTE[n - 1]], k);
      if k <= |before| {
        CommandPrefixGuarded(d, env, from, n - 1, k);
      } else {
        CommandsRun(d, env, from, n - 1);
        RunConcat(d, before, (w + [PROMOTE[n - 1]])[..k - |before|]);
        LastPrefixGuarded(d, env, from, n, k - |before|);
      }
    }
  }

  lemma LastPrefixGuarded(d: Tier, env: seq<seq<Step>>, from: nat, n: nat, j: nat)
    requires Worldly(env) && IsArmed(FlagsOf(d)) && 0 < n <= |PROMOTE| && j <= |At(env, from + n - 1)| + 1
    ensures IsGuarded(FlagsOf(Run(AfterCommands(d, PROMOTE, env, from, n - 1), (At(env, from + n - 1) + [PROMOTE[n - 1]])[..j])))
  {
    PromoteStages(d, env, from, n - 1);
    PromoteStages(d, env, from, n);
    PrefixGuarded(AfterCommands(d, PROMOTE, env, from, n - 1), At(env, from + n - 1), PROMOTE[n - 1], j);
  }

  lemma PrefixGuarded(t: Tier, w: seq<Step>, a: Step, j: nat)
    requires AllWorld(w) && j <= |w| + 1 && IsGuarded(FlagsOf(t)) && IsGuarded(FlagsOf(Do(Run(t, w), a)))
    ensures IsGuarded(FlagsOf(Run(t, (w + [a])[..j])))
  {
    if j <= |w| {
      assert (w + [a])[..j] == w[..j];
      WorldDrifts(t, w[..j]);
    } else {
      assert (w + [a])[..j] == w + [a];
      RunLast(t, w, a);
    }
  }

  lemma {:induction false} QuietStaysArmed(t: Tier, steps: seq<Step>)
    requires Armed(t.replica) && AllQuiet(steps)
    ensures Armed(Run(t, steps).replica)
  {
    if steps != [] {
      QuietStaysArmed(t, steps[..|steps| - 1]);
      StepKeepsArmed(Run(t, steps[..|steps| - 1]), steps[|steps| - 1]);
    }
  }

  /** Everything up to the end of the drain poll. */
  function DrainedSteps(t: Tier, ioStopFails: bool, env: seq<seq<Step>>): seq<Step> {
    StopIoSteps(ioStopFails, env) + DrainSteps(IoStopped(t, ioStopFails, env), env, 1, 30)
  }

  lemma DrainedRuns(t: Tier, ioStopFails: bool, env: seq<seq<Step>>)
    requires Worldly(env)
    ensures Run(t, DrainedSteps(t, ioStopFails, env)) == PromoteDrained(t, ioStopFails, env).0
    ensures AllQuiet(DrainedSteps(t, ioStopFails, env))
  {
    var t1 := IoStopped(t, ioStopFails, env);
    StopIoRuns(t, ioStopFails, env);
    DrainRuns(t1, env, 1, 30);
    RunConcat(t, StopIoSteps(ioStopFails, env), DrainSteps(t1, env, 1, 30));
  }

  /** Every single step of the script and of its surroundings. */
  function PromotionSteps(t: Tier, ioStopFails: bool, env: seq<seq<Step>>): seq<Step> {
    DrainedSteps(t, ioStopFails, env) + CommandSteps(env, 31, |PROMOTE|)
  }

  /** A failover from an armed replica is at no point writable with a source configured: after no step of the
      script, of the polls or of anything that happens in between. When it is complete the replica is open
      for good. */
  lemma PromotionIsGuarded(t: Tier, ioStopFails: bool, env: seq<seq<Step>>, k: nat)
    requires Worldly(env) && Armed(t.replica)
    ensures var steps := PromotionSteps(t, ioStopFails, env);
            && Run(t, steps) == Promoted(t, ioStopFails, env) && IsOpen(FlagsOf(Promoted(t, ioStopFails, env)))
            && (k <= |steps| ==> IsGuarded(FlagsOf(Run(t, steps[..k]))))
  {
    var first, last := DrainedSteps(t, ioStopFails, env), CommandSteps(env, 31, |PROMOTE|);
    DrainedRuns(t, ioStopFails, env);
    PromotionEnds(t, ioStopFails, env);
    if k <= |first + last| { StepsGuarded(t, first, last, k, PromoteDrained(t, ioStopFails, env).0, env); }
  }

  lemma PromotionEnds(t: Tier, ioStopFails: bool, env: seq<seq<Step>>)
    requires Worldly(env) && Armed(t.replica)
    ensures Run(t, PromotionSteps(t, ioStopFails, env)) == Promoted(t, ioStopFails, env)
    ensures IsOpen(FlagsOf(Promoted(t, ioStopFails, env)))
  {
    DrainedRuns(t, ioStopFails, env);
    RunConcat(t, DrainedSteps(t, ioStopFails, env), CommandSteps(env, 31, |PROMOTE|));
    CommandsRun(PromoteDrained(t, ioStopFails, env).0, env, 31, |PROMOTE|);
    GuardedAfterCommands(t, ioStopFails, env, |PROMOTE|);
  }

  lemma StepsGuarded(t: Tier, first: seq<Step>, last: seq<Step>, k: nat, d: Tier, env: seq<seq<Step>>)
    requires Worldly(env) && Armed(t.replica) && AllQuiet(first) && Run(t, first) == d
    requires last == CommandSteps(env, 31, |PROMOTE|) && k <= |first + last|
    ensures IsGuarded(FlagsOf(Run(t, (first + last)[..k])))
  {
    PrefixOfConcat(first, last, k);
    if k <= |first| {
      QuietStaysArmed(t, first[..k]);
    } else {
      QuietStaysArmed(t, first);
      RunConcat(t, first, last[..k - |first|]);
      CommandPrefixGuarded(d, env, 31, |PROMOTE|, k - |first|);
    }
  }

  /** What a failover loses, whether the IO thread was stopped or not. Everything received up to the reset, a
      prefix of the primary's commits, is either promoted or left in the relay log; so nothing received is
      lost exactly when the relay log is empty as STOP REPLICA comes. A drained poll guarantees that if the
      stop of the IO thread took effect or nothing was fetched after the poll. */
  lemma FailoverLosesExactly(t: Tier, ioStopFails: bool, env: seq<seq<Step>>)
    requires Worldly(env) && PrimaryOnly(env) && Sync(t) && Armed(t.replica)
    ensures var promoted := Promoted(t, ioStopFails, env).replica.data;
            var (d, drained) := PromoteDrained(t, ioStopFails, env);
            var before := BeforeReset(d, env);
            var received := Received(t) + AllFetched(t, FailoverSteps(t, ioStopFails, env));
            && promoted + before.replica.relay == received && received <= before.primary.data
            && (promoted == received <==> Run(d, At(env, 31)).replica.relay == [])
            && (!ioStopFails ==> received == Received(t) + AllFetched(t, At(env, 0)))
            && (drained && (!ioStopFails || AllFetched(d, At(env, 31)) == []) ==> promoted == received)
  {
    var steps := FailoverSteps(t, ioStopFails, env);
    var (d, drained) := PromoteDrained(t, ioStopFails, env);
    FailoverRuns(t, ioStopFails, env);
    RunReceives(t, steps);
    SyncIsPrefix(BeforeReset(d, env));
    PromotedIsApplied(t, ioStopFails, env);
    LastRuns(d, env);
    if drained {
      DrainedPoll(t, ioStopFails, env);
      if !ioStopFails || AllFetched(d, At(env, 31)) == [] { NothingLate(d, env, !ioStopFails); }
    }
  }

  /** A successful poll leaves a synchronous, armed replica with an empty relay log. */
  lemma DrainedPoll(t: Tier, ioStopFails: bool, env: seq<seq<Step>>)
    requires Worldly(env) && Sync(t) && Armed(t.replica)
    ensures var (d, drained) := PromoteDrained(t, ioStopFails, env);
            && Sync(d) && Armed(d.replica) && (drained ==> d.replica.relay == [])
            && (!ioStopFails ==> !d.replica.io)
  {
    var t1 := IoStopped(t, ioStopFails, env);
    StopIoRuns(t, ioStopFails, env);
    RunReceives(t, StopIoSteps(ioStopFails, env));
    DrainKeeps(t1, env, 1, 30);
    DrainRuns(t1, env, 1, 30);
    if !ioStopFails { NoIoNoFetch(t1, DrainSteps(t1, env, 1, 30)); }
  }

  /** Nothing fetched, nothing left behind. */
  lemma NothingLate(d: Tier, env: seq<seq<Step>>, stopped: bool)
    requires Worldly(env) && Sync(d) && Armed(d.replica) && d.replica.relay == []
    requires stopped ==> !d.replica.io
    requires stopped || AllFetched(d, At(env, 31)) == []
    ensures Run(d, At(env, 31)).replica.relay == []
  {
    if stopped { NoIoNoFetch(d, At(env, 31)); }
    EmptyRelayStays(d, At(env, 31));
  }

  lemma {:induction false} EmptyRelayStays(t: Tier, steps: seq<Step>)
    requires AllQuiet(steps) && t.replica.relay == [] && AllFetched(t, steps) == []
    ensures Run(t, steps).replica.relay == []
  {
    if steps != [] {
      EmptyRelayStays(t, steps[..|steps| - 1]);
      EmptyRelayStep(Run(t, steps[..|steps| - 1]), steps[|steps| - 1]);
    }
  }

  lemma EmptyRelayStep(t: Tier, a: Step)
    requires Quiet(a) && t.replica.relay == [] && Fetched(t, a) == []
    ensures Do(t, a).replica.relay == []
  {
    match a
    case Commit(_, _) => case WriteReplica(_, _) => case ExpireBinlog(_) => case Fetch => case ApplyNext =>
    case IoBreaks => case RestartReplica => case StopReplica => case StopIo =>
  }

  /** Whatever the last step before STOP REPLICA fetched is lost, from every state: it is still in the relay
      log at the reset, and the promoted server has not executed it. */
  lemma LateFetchIsLost(t: Tier, ioStopFails: bool, env: seq<seq<Step>>, pre: seq<Step>, x: Txn)
    requires Worldly(env) && PrimaryOnly(env) && Sync(t) && Armed(t.replica)
    requires At(env, 31) == pre + [Fetch]
    ensures var d := PromoteDrained(t, ioStopFails, env).0;
            var before, promoted := BeforeReset(d, env), Promoted(t, ioStopFails, env).replica;
            && promoted.data + before.replica.relay <= before.primary.data
            && (Fetched(Run(d, pre), Fetch) == [x] ==>
                  x in before.replica.relay && x in before.primary.data && x.gtid !in promoted.executed)
  {
    var d := PromoteDrained(t, ioStopFails, env).0;
    var before := BeforeReset(d, env);
    FailoverRuns(t, ioStopFails, env);
    RunReceives(t, FailoverSteps(t, ioStopFails, env));
    SyncIsPrefix(before);
    PromotedIsApplied(t, ioStopFails, env);
    LastRuns(d, env);
    if Fetched(Run(d, pre), Fetch) == [x] {
      LastFetch(d, pre, x);
      QueuedIsCommitted(before, x);
    }
  }

  lemma LastFetch(d: Tier, pre: seq<Step>, x: Txn)
    requires Fetched(Run(d, pre), Fetch) == [x]
    ensures x in Run(d, pre + [Fetch]).replica.relay
  {
    assert (pre + [Fetch])[..|pre|] == pre;
  }

  lemma QueuedIsCommitted(t: Tier, x: Txn)
    requires Sync(t) && x in t.replica.relay
    ensures x in t.primary.data && x.gtid !in t.replica.executed
  {
    var i :| 0 <= i < |t.replica.relay| && t.replica.relay[i] == x;
    RelayIsNew(t, i);
    SyncIsPrefix(t);
    assert (t.replica.data + t.replica.relay)[|t.replica.data| + i] == x;
  }

  /** What is in the relay log of a synchronous pair has not been executed. */
  lemma RelayIsNew(t: Tier, i: nat)
    requires Sync(t) && i < |t.replica.relay|
    ensures t.replica.relay[i].gtid !in t.replica.executed
  {
    SyncAt(t);
    NotBefore(Tail(t), t.origin.gtids, Applied(t));
    assert t.replica.relay[i] == Tail(t)[Applied(t) + i];
  }

  /** In particular, when the best-effort STOP REPLICA IO_THREAD fails on a level, streaming pair, any commit
      made and fetched after the successful poll is lost. */
  lemma LevelPairLosesNextCommit(t: Tier, env: seq<seq<Step>>, k: nat, body: int)
    requires Worldly(env) && PrimaryOnly(env) && Sync(t) && Armed(t.replica)
    requires CanStream(t) && t.replica.sql && t.replica.relay == [] && t.replica.data == t.primary.data
    requires Gtid(FromPrimary, k) !in t.primary.executed
    requires At(env, 0) == [] && At(env, 31) == [Commit(k, body), Fetch]
    ensures var x := Txn(Gtid(FromPrimary, k), body);
            var before := BeforeReset(t, env);
            && PromoteDrained(t, true, env) == (t, true)
            && x in before.replica.relay && x in before.primary.data
            && x.gtid !in Promoted(t, true, env).replica.executed
  {
    var x := Txn(Gtid(FromPrimary, k), body);
    var pre := [Commit(k, body)];
    DrainedAtOnce(t, env);
    CommitIsNext(t, k, body);
    RunOne(t, Commit(k, body));
    assert At(env, 31) == pre + [Fetch];
    LateFetchIsLost(t, true, env, pre, x);
  }

  lemma DrainedAtOnce(t: Tier, env: seq<seq<Step>>)
    requires At(env, 0) == [] && t.replica.sql && t.replica.relay == []
    ensures PromoteDrained(t, true, env) == (t, true)
  {
    assert Run(t, []) == t;
  }

  /** A level pair fetches a fresh commit next. */
  lemma CommitIsNext(t: Tier, k: nat, body: int)
    requires Sync(t) && CanStream(t) && t.replica.relay == [] && t.replica.data == t.primary.data
    requires Gtid(FromPrimary, k) !in t.primary.executed
    ensures Fetched(Do(t, Commit(k, body)), Fetch) == [Txn(Gtid(FromPrimary, k), body)]
  {
    CommitLags(t, k, body, Do(t, Commit(k, body)), Txn(Gtid(FromPrimary, k), body));
    LagFetches(Do(t, Commit(k, body)));
  }

  lemma LagFetches(u: Tier)
    requires Sync(u) && CanStream(u)
    ensures var q := Applied(u) + |u.replica.relay|; 0 <= q < |Tail(u)| ==> Fetched(u, Fetch) == [Tail(u)[q]]
  {
    NextFetch(u);
  }

  /** After a fresh commit a level pair still streams, and is one commit behind. */
  lemma CommitLags(t: Tier, k: nat, body: int, u: Tier, x: Txn)
    requires Sync(t) && CanStream(t) && t.replica.relay == [] && t.replica.data == t.primary.data
    requires x == Txn(Gtid(FromPrimary, k), body) && x.gtid !in t.primary.executed && u == Do(t, Commit(k, body))
    ensures Sync(u) && CanStream(u) && Tail(u) == Tail(t) + [x] && Applied(u) == |Tail(t)| && u.replica == t.replica
  {
    CommitKeeps(t, k, body);
    CommitPurgesNothing(t.primary, x);
    LevelWhenAllApplied(t);
    PrimaryCommits(t.primary, t.origin, x);
  }

  lemma CommitPurgesNothing(p: Server, x: Txn)
    ensures Purged(Executes(p, x)) <= Purged(p)
  {
    IdsConcat(p.binlog, [x]);
    assert x in [x] && x.gtid in Ids([x]);
  }

  /** A pair to which this happens. */
  lemma DrainPollAloneCanLose(env: seq<seq<Step>>)
    requires Worldly(env) && PrimaryOnly(env) && At(env, 0) == [] && At(env, 31) == [Commit(1, 7), Fetch]
    ensures var s := Server([], {}, [], [], true, true, true, true, true, true, true);
            var t := Tier(s.(source := false, io := false, sql := false), s, Dump([], {}));
            var x := Txn(Gtid(FromPrimary, 1), 7);
            && Sync(t) && Armed(t.replica) && PromoteDrained(t, true, env).1
            && x in BeforeReset(t, env).primary.data && x.gtid !in Promoted(t, true, env).replica.executed
  {
    var s := Server([], {}, [], [], true, true, true, true, true, true, true);
    var t := Tier(s.(source := false, io := false, sql := false), s, Dump([], {}));
    assert ReplicaAt(t.replica, t.origin, Tail(t), 0);
    LevelPairLosesNextCommit(t, env, 1, 7);
  }
}
