/** The promise of the release protocol to its users: releases of any kind, stopping anywhere, composed with
    requests interleaved in any way. */
module ZeroDowntime {
  import opened Basics
  import opened Ledger
  import opened Release
  import opened ReleaseSafety
  import opened ReleaseOutcomes
  import opened Traffic
  import G = Gate
  import N = NginxConf

  lemma {:induction false} PrefixSafe(log: seq<Event>, pre: seq<Event>)
    requires Tracked(log).safe && pre <= log
    ensures Tracked(pre).safe
    decreases |log|
  {
    if pre != log {
      var n := |log| - 1;
      assert pre <= log[..n];
      PrefixSafe(log[..n], pre);
    }
  }

  /** In every interleaving of clients with a prefix of the commands of any runs, no request is routed to a
      container that does not accept, and a request is cut off by a drain only when it needed more than
      the grace it was given. */
  lemma NothingIsRefused(ports: N.Ports, ops: seq<Op>, steps: seq<Step>)
    requires forall i :: 0 <= i < |ops| ==> NotTorn(ops[i].f)
    requires Play(steps).Some? && Commands(steps) <= Run(EMPTY_SITE, ports, ops).log
    ensures Tracked(Commands(steps)).safe && Sound(Play(steps).value)
    ensures forall id :: id in Play(steps).value.fates ==> Play(steps).value.fates[id] != Refused
  {
    EveryRunIsSafe(ports, ops);
    PrefixSafe(Run(EMPTY_SITE, ports, ops).log, Commands(steps));
    PlaySound(steps);
  }

  /** Every request that a stop finds in flight and that fits into its grace is answered by the end of the
      drain, whatever else happens in between. */
  lemma GraceIsHonoured(ports: N.Ports, ops: seq<Op>, steps: seq<Step>, i: nat, id: nat, d: Drain)
    requires forall k :: 0 <= k < |ops| ==> NotTorn(ops[k].f)
    requires Play(steps).Some? && Commands(steps) <= Run(EMPTY_SITE, ports, ops).log
    requires StartsDrain(steps, i, d)
    requires Fits(Play(steps[..i]).value, id, d)
    ensures var m := Play(steps).value;
            m.draining != Some(d) || id !in m.inflight ==> id in m.fates && m.fates[id] == Answered
  {
    NothingIsRefused(ports, ops, steps);
    PlayCovers(steps, i, id, d);
  }

  // ---- runs that finish their drains --------------------------------------------------------------

  /** Which slots may still hold user requests, and whether no such slot was ever removed by force. */
  datatype Load = Load(blue: bool, green: bool, clean: bool)

  predicate Busy(l: Load, c: Color) {
    match c
    case Blue => l.blue
    case Green => l.green
  }

  function SetBusy(l: Load, c: Color, busy: bool): Load {
    match c
    case Blue => l.(blue := busy)
    case Green => l.(green := busy)
  }

  function FollowLoad(l: Load, e: Event): Load {
    match e
    case Start(c, k) => if k == Nothing then l else SetBusy(l, c, false).(clean := l.clean && !Busy(l, c))
    case Reload(c) => SetBusy(l, c, true)
    case Stop(c, _, k) => if k == LeftRunning then l else SetBusy(l, c, false)
  }

  const IDLE := Load(false, false, true)

  function LoadOf(log: seq<Event>): Load {
    if log == [] then IDLE else FollowLoad(LoadOf(log[..|log| - 1]), log[|log| - 1])
  }

  lemma LoadGrows(log: seq<Event>, e: Event)
    ensures LoadOf(log + [e]) == FollowLoad(LoadOf(log), e)
  {
    assert (log + [e])[..|log|] == log;
  }

  /** Only the live slot holds user requests, and none were removed by force. */
  ghost predicate OnlyLiveBusy(log: seq<Event>, loaded: Option<Color>) {
    var l := LoadOf(log);
    l.clean && (l.blue ==> loaded == Some(Blue)) && (l.green ==> loaded == Some(Green))
  }

  /** If this run moves traffic, then `switch_traffic.sh` reports back and docker stops the old container. */
  ghost predicate FinishesItsDrain(s: Site, job: Job, f: Faults) {
    ReachesReload(s, job, f) ==> f.switch.SwitchOk? && (s.file.Some? ==> f.drain.effect != LeftRunning)
  }

  lemma StartLoad(log: seq<Event>, loaded: Option<Color>, c: Color, k: StartEffect)
    requires OnlyLiveBusy(log, loaded) && loaded != Some(c)
    ensures OnlyLiveBusy(log + [Start(c, k)], loaded)
  {
    LoadGrows(log, Start(c, k));
    match c case Blue => case Green =>
  }

  lemma StopLoad(log: seq<Event>, loaded: Option<Color>, c: Color, grace: nat, k: StopEffect)
    requires OnlyLiveBusy(log, loaded)
    ensures OnlyLiveBusy(log + [Stop(c, grace, k)], loaded)
  {
    LoadGrows(log, Stop(c, grace, k));
    match c case Blue => case Green =>
  }

  lemma ReloadLoad(log: seq<Event>, c: Color)
    requires OnlyLiveBusy(log, Some(c))
    ensures OnlyLiveBusy(log + [Reload(c)], Some(c))
  {
    LoadGrows(log, Reload(c));
    match c case Blue => case Green =>
  }

  /** A switch that does not reach the reload leaves the live slot the only busy one. */
  lemma UnmovedLoad(s1: Site, c: Color, tag: Tag, e: SwitchEffect)
    requires OnlyLiveBusy(s1.log, s1.loaded) && s1.file == s1.loaded && (e == Unreached || e == Restored)
    ensures var t := SwitchStep(CertifyStep(s1, c, tag), c, e); OnlyLiveBusy(t.log, t.loaded)
  {
    assert CertifyStep(s1, c, tag).log == s1.log;
    if e == Restored && s1.file.Some? { ReloadLoad(s1.log, s1.file.value); }
  }

  /** Moving traffic to `c` and stopping the old slot leaves only `c` busy. */
  lemma MovedLoad(s1: Site, c: Color, tag: Tag, grace: nat, k: StopEffect, t: Site)
    requires OnlyLiveBusy(s1.log, s1.loaded) && s1.loaded != Some(c) && t == SwitchStep(CertifyStep(s1, c, tag), c, Reloaded)
    ensures s1.loaded.None? ==> OnlyLiveBusy(t.log, t.loaded)
    ensures s1.loaded.Some? && k != LeftRunning ==> OnlyLiveBusy(StopStep(t, s1.loaded.value, grace, k).log, t.loaded)
  {
    assert t.log == s1.log + [Reload(c)];
    LoadGrows(s1.log, Reload(c));
    if s1.loaded.Some? {
      assert StopStep(t, s1.loaded.value, grace, k).log == t.log + [Stop(s1.loaded.value, grace, k)];
      LoadGrows(t.log, Stop(s1.loaded.value, grace, k));
    }
    match c case Blue => case Green =>
  }

  lemma StartedLoad(s: Site, c: Color, tag: Tag, broken: bool, k: StartEffect)
    requires OnlyLiveBusy(s.log, s.loaded) && s.loaded != Some(c)
    ensures OnlyLiveBusy(StartStep(s, c, tag, broken, k).log, s.loaded)
  {
    StartLoad(s.log, s.loaded, c, k);
    assert StartStep(s, c, tag, broken, k).log == s.log + [Start(c, k)];
  }

  lemma StoppedLoad(s: Site, c: Color, grace: nat, k: StopEffect)
    requires OnlyLiveBusy(s.log, s.loaded)
    ensures OnlyLiveBusy(StopStep(s, c, grace, k).log, s.loaded)
  {
    StopLoad(s.log, s.loaded, c, grace, k);
    assert StopStep(s, c, grace, k).log == s.log + [Stop(c, grace, k)];
  }

  lemma SwingLoad(s: Site, job: Job, f: Faults)
    requires Inv(s) && NotTorn(f) && OnlyLiveBusy(s.log, s.loaded) && FinishesItsDrain(s, job, f)
    ensures var t := Swing(s, job, f).0; OnlyLiveBusy(t.log, t.loaded)
  {
    var target := Inactive(s.file);
    if !Boots(job, f) {
      StartedLoad(s, target, job.tag, job.broken, StartEffectOf(if job.tag == "" then StartDies(Nothing) else f.start));
    } else {
      StartedLoad(s, target, job.tag, job.broken, Booted);
      SwingLoadBooted(s, StartStep(s, target, job.tag, job.broken, Booted), job, f, target);
    }
  }

  lemma SwingLoadBooted(s: Site, s1: Site, job: Job, f: Faults, target: Color)
    requires target == Inactive(s.file) && s1 == StartStep(s, target, job.tag, job.broken, Booted) && Boots(job, f)
    requires s.file == s.loaded && NotTorn(f) && OnlyLiveBusy(s1.log, s1.loaded) && FinishesItsDrain(s, job, f)
    ensures var t := Swing(s, job, f).0; OnlyLiveBusy(t.log, t.loaded)
  {
    assert AppIn(s1, target) == Some(G.App(job.tag, job.broken));
    StoppedLoad(s1, target, 1, f.teardown.effect);
    if f.switch.SwitchDies? && f.switch.at != Reloaded {
      UnmovedLoad(s1, target, job.tag, f.switch.at);
    } else {
      var t := SwitchStep(CertifyStep(s1, target, job.tag), target, Reloaded);
      MovedLoad(s1, target, job.tag, job.grace, f.drain.effect, t);
    }
  }

  /** The swing that an operation makes, if it makes one. */
  ghost predicate OpFinishesItsDrain(s: Site, op: Op) {
    match op
    case DeployOp(job, f, _) => FinishesItsDrain(s, job, f)
    case RollbackOp(named, retries, grace, f, _, rf) =>
      var choice := ChooseTarget(s, named, rf);
      choice.Go? ==> FinishesItsDrain(s, Job(choice.tag, false, retries, grace), f)
  }

  lemma ApplyLoad(s: Site, ports: N.Ports, op: Op)
    requires Inv(s) && NotTorn(op.f) && OnlyLiveBusy(s.log, s.loaded) && OpFinishesItsDrain(s, op)
    ensures var t := Apply(s, ports, op).0; OnlyLiveBusy(t.log, t.loaded)
  {
    match op {
      case DeployOp(job, f, lf) =>
        SwingLoad(s, job, f);
        DeployLog(s, ports, job, f, lf);
      case RollbackOp(named, retries, grace, f, lf, rf) =>
        var choice := ChooseTarget(s, named, rf);
        if choice.Go? {
          SwingLoad(s, Job(choice.tag, false, retries, grace), f);
          RollbackLog(s, ports, named, retries, grace, f, lf, rf, choice.tag);
        }
    }
  }

  lemma {:induction false} RetryLog(s: Site, g: LastGood, puts: seq<PutRun>, i: nat)
    requires 1 <= i <= 4
    ensures RetryLastGood(s, g, puts, i).0.log == s.log && RetryLastGood(s, g, puts, i).0.loaded == s.loaded
    decreases 4 - i
  {
    if i < 4 { RetryLog(LastGoodStep(s, g, PutAt(puts, i - 1)), g, puts, i + 1); }
  }

  /** Bookkeeping issues no commands. */
  lemma DeployLog(s: Site, ports: N.Ports, job: Job, f: Faults, lf: LedgerFaults)
    ensures var t := Deploy(s, ports, job, f, lf).0; var u := Swing(s, job, f).0;
            t.log == u.log && t.loaded == u.loaded
  {
    var (u, r) := Swing(s, job, f);
    if r.Promoted? { RetryLog(u, LastGood(job.tag, r.target, N.PortFor(ports, r.target)), lf.lastGoodPuts, 1); }
  }

  lemma RollbackLog(s: Site, ports: N.Ports, named: Tag, retries: int, grace: nat, f: Faults, lf: LedgerFaults, rf: ReadFaults, tag: Tag)
    requires ChooseTarget(s, named, rf) == Go(tag)
    ensures var t := Rollback(s, ports, named, retries, grace, f, lf, rf).0;
            var u := Swing(s, Job(tag, false, retries, grace), f).0;
            t.log == u.log && t.loaded == u.loaded
  {
    var r := Swing(s, Job(tag, false, retries, grace), f).1;
    match r case Aborted => case Rejected(_) => case Promoted(_, _) =>
  }

  lemma {:induction false} RunsLoad(ports: N.Ports, ops: seq<Op>)
    requires forall i :: 0 <= i < |ops| ==> NotTorn(ops[i].f) && OpFinishesItsDrain(Run(EMPTY_SITE, ports, ops[..i]), ops[i])
    ensures var s := Run(EMPTY_SITE, ports, ops); OnlyLiveBusy(s.log, s.loaded)
  {
    if ops != [] {
      var n := |ops| - 1;
      var init := ops[..n];
      forall i | 0 <= i < n ensures NotTorn(init[i].f) && OpFinishesItsDrain(Run(EMPTY_SITE, ports, init[..i]), init[i]) {
        assert init[..i] == ops[..i];
      }
      RunsLoad(ports, init);
      EveryRunIsSafe(ports, init);
      ApplyLoad(Run(EMPTY_SITE, ports, init), ports, ops[n]);
    }
  }

  // ---- and their requests -------------------------------------------------------------------------

  /** Requests sit only in busy slots or in the one that drains, and none was killed. */
  ghost predicate Unharmed(n: Net, l: Load) {
    && (forall id :: id in n.inflight ==> Busy(l, n.inflight[id].slot) || (n.draining.Some? && n.draining.value.slot == n.inflight[id].slot))
    && (forall id :: id in n.fates ==> n.fates[id] != Killed)
    && (n.track.routed.Some? ==> Busy(l, n.track.routed.value))
  }

  lemma StepUnharmed(n: Net, a: Step, l: Load)
    requires Sound(n) && Enabled(n, a) && Safely(n, a) && Unharmed(n, l)
    requires a.Command? ==> FollowLoad(l, a.e).clean
    ensures Unharmed(After(n, a), if a.Command? then FollowLoad(l, a.e) else l)
  {
    match a {
      case Arrive(_, _) =>
      case Tick =>
      case Command(e) => CommandUnharmed(n, e, l);
      case DrainDone =>
    }
  }

  lemma CommandUnharmed(n: Net, e: Event, l: Load)
    requires Sound(n) && Enabled(n, Command(e)) && Allowed(n.track, e) && Unharmed(n, l) && FollowLoad(l, e).clean
    ensures Unharmed(After(n, Command(e)), FollowLoad(l, e))
  {
    var m := After(n, Command(e));
    if e.Start? && e.start != Nothing { assert InSlot(n, e.slot) == {}; }
    assert forall id :: id in m.inflight ==> id in n.inflight && m.inflight[id] == n.inflight[id];
    match e.slot case Blue => case Green =>
  }

  lemma {:induction false} PrefixClean(log: seq<Event>, pre: seq<Event>)
    requires LoadOf(log).clean && pre <= log
    ensures LoadOf(pre).clean
    decreases |log|
  {
    if pre != log {
      var n := |log| - 1;
      assert pre <= log[..n];
      PrefixClean(log[..n], pre);
    }
  }

  lemma {:induction false} PlayUnharmed(steps: seq<Step>)
    requires Play(steps).Some? && Tracked(Commands(steps)).safe && LoadOf(Commands(steps)).clean
    ensures Unharmed(Play(steps).value, LoadOf(Commands(steps)))
  {
    if steps != [] {
      var init, a := steps[..|steps| - 1], steps[|steps| - 1];
      LastStepTracked(steps);
      if a.Command? { LoadGrows(Commands(init), a.e); } else { assert Commands(steps) == Commands(init); }
      PlayUnharmed(init);
      PlaySound(init);
      StepUnharmed(Play(init).value, a, LoadOf(Commands(init)));
    }
  }

  /** Zero downtime: when every run that moves traffic also retires the old container, then in every
      interleaving each request that is no longer in flight was answered, except those that needed more
      than the grace period of a drain. */
  lemma EveryRequestIsAnswered(ports: N.Ports, ops: seq<Op>, steps: seq<Step>)
    requires forall i :: 0 <= i < |ops| ==> NotTorn(ops[i].f) && OpFinishesItsDrain(Run(EMPTY_SITE, ports, ops[..i]), ops[i])
    requires Play(steps).Some? && Commands(steps) <= Run(EMPTY_SITE, ports, ops).log
    ensures var m := Play(steps).value;
            forall id :: id in m.fates ==>
              m.fates[id] == Answered || (m.fates[id].CutOff? && m.fates[id].finish > m.fates[id].stopped + m.fates[id].grace)
  {
    NothingIsRefused(ports, ops, steps);
    RunsLoad(ports, ops);
    PrefixClean(Run(EMPTY_SITE, ports, ops).log, Commands(steps));
    PlayUnharmed(steps);
  }

  // ---- runs that do not -----------------------------------------------------------------------------

  /** A run that moves traffic and does not finish its drain leaves the old container running, and the next run
      that starts one starts it in that slot. */
  lemma UnfinishedDrainMeetsStart(s: Site, job: Job, f: Faults, next: Job, g: Faults)
    requires Inv(s) && NotTorn(f) && s.loaded.Some? && !FinishesItsDrain(s, job, f) && Boots(next, g)
    ensures var t := Swing(s, job, f).0;
            var log := Swing(t, next, g).0.log;
            && Running(t.slots, s.loaded.value)
            && |t.log| < |log| && log[..|t.log|] == t.log && log[|t.log|] == Start(s.loaded.value, Booted)
  {
    SwingKeeps(s, job, f);
    OldContainerStays(s, job, f);
    SwingLogs(Swing(s, job, f).0, next, g);
  }

  lemma OldContainerStays(s: Site, job: Job, f: Faults)
    requires Inv(s) && NotTorn(f) && s.loaded.Some? && !FinishesItsDrain(s, job, f)
    ensures Running(Swing(s, job, f).0.slots, s.loaded.value)
  {
    var target := Inactive(s.file);
    var s1 := StartStep(s, target, job.tag, job.broken, Booted);
    assert AppIn(s1, target) == Some(G.App(job.tag, job.broken));
    assert target != s.loaded.value && Running(s1.slots, s.loaded.value);
  }

  /** So the hypothesis of the theorem is needed: whatever request the old container still holds when the next
      run starts is killed. */
  lemma UnfinishedDrainKills(s: Site, job: Job, f: Faults, t: Site, next: Job, g: Faults, steps: seq<Step>, id: nat)
    requires Inv(s) && NotTorn(f) && s.loaded.Some? && !FinishesItsDrain(s, job, f) && Boots(next, g)
    requires t == Swing(s, job, f).0
    requires Play(steps).Some? && Commands(steps) == t.log && Play(steps).value.draining.None?
    requires id in Play(steps).value.inflight && Play(steps).value.inflight[id].slot == s.loaded.value
    ensures var more := steps + [Command(Start(s.loaded.value, Booted))];
            && Play(more).Some? && Commands(more) <= Swing(t, next, g).0.log
            && id in Play(more).value.fates && Play(more).value.fates[id] == Killed
  {
    var a := Command(Start(s.loaded.value, Booted));
    assert (steps + [a])[..|steps|] == steps;
    UnfinishedDrainMeetsStart(s, job, f, next, g);
    StartKills(Play(steps).value, s.loaded.value, Booted, id);
    PrefixSnoc(t.log, Swing(t, next, g).0.log);
  }

  lemma PrefixSnoc(log: seq<Event>, longer: seq<Event>)
    requires |log| < |longer| && longer[..|log|] == log
    ensures log + [longer[|log|]] <= longer
  {}
}
