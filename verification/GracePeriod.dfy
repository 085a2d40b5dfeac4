/** The promise of `--grace`: requests that need no longer than the grace period of every release are all
    answered, whenever they arrive. */
module GracePeriod {
  import opened Basics
  import opened Ledger
  import opened Release
  import opened ReleaseSafety
  import opened Traffic
  import opened ZeroDowntime
  import N = NginxConf

  // ---- what grace the commands give -----------------------------------------------------------------

  /** A stop of a slot that may hold user requests gives them at least `g` seconds. */
  ghost predicate Gives(l: Load, e: Event, g: nat) {
    e.Stop? && e.stop != LeftRunning && Busy(l, e.slot) ==> e.grace >= g
  }

  ghost predicate Patient(log: seq<Event>, g: nat) {
    log == [] || (Patient(log[..|log| - 1], g) && Gives(LoadOf(log[..|log| - 1]), log[|log| - 1], g))
  }

  lemma PatientGrows(log: seq<Event>, e: Event, g: nat)
    ensures Patient(log + [e], g) <==> Patient(log, g) && Gives(LoadOf(log), e, g)
  {
    assert (log + [e])[..|log|] == log;
  }

  lemma {:induction false} PatientPrefix(log: seq<Event>, pre: seq<Event>, g: nat)
    requires Patient(log, g) && pre <= log
    ensures Patient(pre, g)
    decreases |log|
  {
    if pre != log {
      assert pre <= log[..|log| - 1];
      PatientPrefix(log[..|log| - 1], pre, g);
    }
  }

  lemma StartPatient(s: Site, c: Color, tag: Tag, broken: bool, k: StartEffect, g: nat)
    requires Patient(s.log, g)
    ensures Patient(StartStep(s, c, tag, broken, k).log, g)
  {
    PatientGrows(s.log, Start(c, k), g);
    assert StartStep(s, c, tag, broken, k).log == s.log + [Start(c, k)];
  }

  lemma StopPatient(s: Site, c: Color, grace: nat, k: StopEffect, g: nat)
    requires Patient(s.log, g) && (Busy(LoadOf(s.log), c) ==> grace >= g)
    ensures Patient(StopStep(s, c, grace, k).log, g)
  {
    PatientGrows(s.log, Stop(c, grace, k), g);
    assert StopStep(s, c, grace, k).log == s.log + [Stop(c, grace, k)];
  }

  lemma SwitchPatient(s: Site, c: Color, tag: Tag, e: SwitchEffect, g: nat)
    requires Patient(s.log, g)
    ensures Patient(SwitchStep(CertifyStep(s, c, tag), c, e).log, g)
  {
    var t := CertifyStep(s, c, tag);
    assert t.log == s.log;
    PatientGrows(s.log, Reload(c), g);
    if t.file.Some? { PatientGrows(s.log, Reload(t.file.value), g); }
  }

  /** The teardown's grace of one second is for a slot that never had a request; the old slot gets the
      grace of the release. */
  lemma SwingPatient(s: Site, job: Job, f: Faults, g: nat)
    requires Inv(s) && NotTorn(f) && OnlyLiveBusy(s.log, s.loaded) && Patient(s.log, g) && job.grace >= g
    ensures Patient(Swing(s, job, f).0.log, g)
  {
    var target := Inactive(s.file);
    var k := StartEffectOf(if job.tag == "" then StartDies(Nothing) else f.start);
    StartPatient(s, target, job.tag, job.broken, k, g);
    if Boots(job, f) {
      StartedLoad(s, target, job.tag, job.broken, Booted);
      SwingPatientBooted(s, StartStep(s, target, job.tag, job.broken, Booted), job, f, target, g);
    }
  }

  lemma SwingPatientBooted(s: Site, s1: Site, job: Job, f: Faults, target: Color, g: nat)
    requires target == Inactive(s.file) && s1 == StartStep(s, target, job.tag, job.broken, Booted) && Boots(job, f)
    requires s.file == s.loaded && OnlyLiveBusy(s1.log, s1.loaded) && Patient(s1.log, g) && job.grace >= g
    ensures Patient(Swing(s, job, f).0.log, g)
  {
    var e := SwitchEffectOf(f.switch);
    var s2 := SwitchStep(CertifyStep(s1, target, job.tag), target, e);
    SwingEnds(s, s1, s2, job, f, target);
    NotBusy(s1, target);
    StopPatient(s1, target, 1, f.teardown.effect, g);
    SwitchPatient(s1, target, job.tag, e, g);
    if s.file.Some? { StopPatient(s2, s.file.value, job.grace, f.drain.effect, g); }
  }

  /** Where a swing that got its container running can end. */
  lemma SwingEnds(s: Site, s1: Site, s2: Site, job: Job, f: Faults, target: Color)
    requires target == Inactive(s.file) && s1 == StartStep(s, target, job.tag, job.broken, Booted) && Boots(job, f)
    requires s2 == SwitchStep(CertifyStep(s1, target, job.tag), target, SwitchEffectOf(f.switch))
    ensures var t := Swing(s, job, f).0;
      || t == StopStep(s1, target, 1, f.teardown.effect)
      || t == s2
      || (s.file.Some? && t == StopStep(s2, s.file.value, job.grace, f.drain.effect))
  {
  }

  lemma NotBusy(s: Site, c: Color)
    requires OnlyLiveBusy(s.log, s.loaded) && s.loaded != Some(c)
    ensures !Busy(LoadOf(s.log), c)
  {
    match c case Blue => case Green =>
  }

  ghost predicate OpGives(op: Op, g: nat) {
    match op
    case DeployOp(job, _, _) => job.grace >= g
    case RollbackOp(_, _, grace, _, _, _) => grace >= g
  }

  lemma ApplyPatient(s: Site, ports: N.Ports, op: Op, g: nat)
    requires Inv(s) && NotTorn(op.f) && OnlyLiveBusy(s.log, s.loaded) && Patient(s.log, g) && OpGives(op, g)
    ensures Patient(Apply(s, ports, op).0.log, g)
  {
    match op {
      case DeployOp(job, f, lf) =>
        SwingPatient(s, job, f, g);
        DeployLog(s, ports, job, f, lf);
      case RollbackOp(named, retries, grace, f, lf, rf) =>
        var choice := ChooseTarget(s, named, rf);
        if choice.Go? {
          SwingPatient(s, Job(choice.tag, false, retries, grace), f, g);
          RollbackLog(s, ports, named, retries, grace, f, lf, rf, choice.tag);
        }
    }
  }

  lemma {:induction false} RunsPatient(ports: N.Ports, ops: seq<Op>, g: nat)
    requires forall i :: 0 <= i < |ops| ==>
      NotTorn(ops[i].f) && OpGives(ops[i], g) && OpFinishesItsDrain(Run(EMPTY_SITE, ports, ops[..i]), ops[i])
    ensures Patient(Run(EMPTY_SITE, ports, ops).log, g)
  {
    if ops != [] {
      var n := |ops| - 1;
      var init := ops[..n];
      forall i | 0 <= i < n
        ensures NotTorn(init[i].f) && OpGives(init[i], g) && OpFinishesItsDrain(Run(EMPTY_SITE, ports, init[..i]), init[i])
      {
        assert init[..i] == ops[..i];
      }
      RunsPatient(ports, init, g);
      RunsLoad(ports, init);
      EveryRunIsSafe(ports, init);
      ApplyPatient(Run(EMPTY_SITE, ports, init), ports, ops[n], g);
    }
  }

  // ---- requests that fit ------------------------------------------------------------------------------

  /** Everything in flight is due within `g` seconds, whatever drains is due within its grace, and nothing
      was cut off. */
  ghost predicate Calm(n: Net, g: nat) {
    && (forall id :: id in n.inflight ==> n.inflight[id].finish <= n.clock + g)
    && (n.draining.Some? ==> var d := n.draining.value;
          forall id :: id in n.inflight && n.inflight[id].slot == d.slot ==> n.inflight[id].finish <= d.stopped + d.grace)
    && (forall id :: id in n.fates ==> !n.fates[id].CutOff?)
  }

  ghost predicate Short(a: Step, g: nat) { a.Arrive? ==> a.service <= g }

  lemma StepCalm(n: Net, a: Step, l: Load, g: nat)
    requires Sound(n) && Unharmed(n, l) && Calm(n, g) && Enabled(n, a)
    requires Short(a, g) && (a.Command? ==> Gives(l, a.e, g))
    ensures Calm(After(n, a), g)
  {
    match a {
      case Arrive(_, _) =>
      case Tick =>
      case Command(e) => CommandCalm(n, e, l, g);
      case DrainDone =>
        assert forall id :: id in n.inflight ==> id in InSlot(n, n.inflight[id].slot);
    }
  }

  lemma CommandCalm(n: Net, e: Event, l: Load, g: nat)
    requires Sound(n) && Unharmed(n, l) && Calm(n, g) && Enabled(n, Command(e)) && Gives(l, e, g)
    ensures Calm(After(n, Command(e)), g)
  {
    var m := After(n, Command(e));
    assert forall id :: id in m.inflight ==> id in n.inflight && m.inflight[id] == n.inflight[id];
  }

  lemma {:induction false} PlayCalm(steps: seq<Step>, g: nat)
    requires Play(steps).Some? && Tracked(Commands(steps)).safe && LoadOf(Commands(steps)).clean
    requires Patient(Commands(steps), g) && forall i :: 0 <= i < |steps| ==> Short(steps[i], g)
    ensures Calm(Play(steps).value, g)
  {
    if steps != [] {
      var init, a := steps[..|steps| - 1], steps[|steps| - 1];
      LastStepTracked(steps);
      if a.Command? {
        LoadGrows(Commands(init), a.e);
        PatientGrows(Commands(init), a.e, g);
      } else {
        assert Commands(steps) == Commands(init);
      }
      PlayCalm(init, g);
      PlaySound(init);
      PlayUnharmed(init);
      StepCalm(Play(init).value, a, LoadOf(Commands(init)), g);
    }
  }

  /** The promise: over any sequence of releases that retire the containers they replace and give at least
      `g` seconds of grace, in every interleaving each request that needs at most `g` seconds and is no
      longer in flight was answered. */
  lemma ShortRequestsAreAnswered(ports: N.Ports, ops: seq<Op>, steps: seq<Step>, g: nat)
    requires forall i :: 0 <= i < |ops| ==>
      NotTorn(ops[i].f) && OpGives(ops[i], g) && OpFinishesItsDrain(Run(EMPTY_SITE, ports, ops[..i]), ops[i])
    requires Play(steps).Some? && Commands(steps) <= Run(EMPTY_SITE, ports, ops).log
    requires forall i :: 0 <= i < |steps| ==> Short(steps[i], g)
    ensures forall id :: id in Play(steps).value.fates ==> Play(steps).value.fates[id] == Answered
  {
    var log := Run(EMPTY_SITE, ports, ops).log;
    NothingIsRefused(ports, ops, steps);
    EveryRequestIsAnswered(ports, ops, steps);
    RunsLoad(ports, ops);
    RunsPatient(ports, ops, g);
    PrefixClean(log, Commands(steps));
    PatientPrefix(log, Commands(steps), g);
    PlayCalm(steps, g);
  }
}
