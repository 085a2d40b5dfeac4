/** What the exit codes, the ledger and the rollback guard mean for the traffic. */
module ReleaseOutcomes {
  import opened Basics
  import opened Ledger
  import opened Release
  import opened ReleaseSafety
  import G = Gate
  import N = NginxConf

  // ---- exit codes of deploy.py ------------------------------------------------------------------

  /** `switch_traffic.sh` and the retirement of the old container both reported success. */
  ghost predicate ReachesLedger(s: Site, job: Job, f: Faults) {
    ReachesReload(s, job, f) && f.switch.SwitchOk? && !(s.file.Some? && f.drain.StopDies?)
  }

  predicate RecordsLastGood(lf: LedgerFaults) {
    PutAt(lf.lastGoodPuts, 0) == PutOk || PutAt(lf.lastGoodPuts, 1) == PutOk || PutAt(lf.lastGoodPuts, 2) == PutOk
  }

  predicate RecordsHistory(lf: LedgerFaults) { !lf.historyLost && lf.historyPut == PutOk }

  /** The gate was reached and said no, and the teardown reported success. */
  ghost predicate TearsDown(job: Job, f: Faults) {
    && Boots(job, f)
    && (f.gateLost || !G.Passes(Some(G.App(job.tag, job.broken)), job.tag, job.retries, f.envs))
    && !f.teardown.StopDies? && !f.stillLost
  }

  lemma SwingRejectsWhen(s: Site, job: Job, f: Faults)
    requires Inv(s) && NotTorn(f)
    ensures Swing(s, job, f).1.Rejected? <==> TearsDown(job, f)
  {
    if Boots(job, f) {
      var target := Inactive(s.file);
      assert AppIn(StartStep(s, target, job.tag, job.broken, Booted), target) == Some(G.App(job.tag, job.broken));
    }
  }

  /** How a deploy ends, for every outcome of every call. Whatever the exit, traffic moved exactly when
      everything up to the reload went through, and then the tag is live; otherwise file, loaded config
      and live container are as before. */
  lemma DeployOutcomes(s: Site, ports: N.Ports, job: Job, f: Faults, lf: LedgerFaults)
    requires Inv(s) && NotTorn(f)
    ensures var (t, e) := Deploy(s, ports, job, f, lf);
            && (if ReachesReload(s, job, f)
                then LiveTag(t) == Some(job.tag) && t.file == t.loaded == Some(Inactive(s.file))
                else SameRouting(s, t))
            && (e == Completed <==> ReachesLedger(s, job, f) && RecordsLastGood(lf) && RecordsHistory(lf))
            && (e == LedgerStale <==> ReachesLedger(s, job, f) && !RecordsLastGood(lf))
            && (e == RolledBack <==> TearsDown(job, f) && RecordsHistory(lf))
            && (e == Uncaught <==>
                  !RecordsHistory(lf) && (TearsDown(job, f) || (ReachesLedger(s, job, f) && RecordsLastGood(lf))))
  {
    SwingKeeps(s, job, f);
    SwingRejectsWhen(s, job, f);
    var (s1, r) := Swing(s, job, f);
    if r.Promoted? { RetryKeeps(s1, LastGood(job.tag, r.target, N.PortFor(ports, r.target)), lf.lastGoodPuts, 1); }
  }

  /** The exit status, in numbers, for every fault schedule: 0 when everything was recorded, 2 when only the
      record of last-good failed, 1 when the new version was torn down or a history write raised, 3 for every
      other end. */
  lemma DeployExitCodes(s: Site, ports: N.Ports, job: Job, f: Faults, lf: LedgerFaults)
    requires Inv(s) && NotTorn(f)
    ensures var code := ExitCode(Deploy(s, ports, job, f, lf).1);
            && (code == 0 <==> ReachesLedger(s, job, f) && RecordsLastGood(lf) && RecordsHistory(lf))
            && (code == 2 <==> ReachesLedger(s, job, f) && !RecordsLastGood(lf))
            && (code == 1 <==> TearsDown(job, f) || (ReachesLedger(s, job, f) && RecordsLastGood(lf) && !RecordsHistory(lf)))
            && (code == 3 <==> !TearsDown(job, f) && !ReachesLedger(s, job, f))
  {
    DeployOutcomes(s, ports, job, f, lf);
    TornDownOrSwitched(s, job, f);
  }

  // ---- what a run does to the slots ---------------------------------------------------------------

  /** The gate was asked about the booted version, and answered. */
  ghost predicate PassesGate(job: Job, f: Faults) {
    !f.gateLost && G.Passes(Some(G.App(job.tag, job.broken)), job.tag, job.retries, f.envs)
  }

  /** What a run does after the spare slot `target` came up, traffic being in `live`. */
  ghost function AfterBoot(live: Option<Color>, target: Color, job: Job, f: Faults): seq<Event> {
    if !PassesGate(job, f) then [Stop(target, 1, f.teardown.effect)]
    else
      match SwitchEffectOf(f.switch)
      case Unreached => []
      case Torn => []
      case Restored => if live.Some? then [Reload(live.value)] else []
      case Reloaded =>
        [Reload(target)] + (if f.switch.SwitchOk? && live.Some? then [Stop(live.value, job.grace, f.drain.effect)] else [])
  }

  /** Every command of a run that touches slots or routing, in order, for every fault schedule: a run that
      cannot tell the colours does nothing, one without a tag or whose start dies stops there, and so on. With
      the invariant this fixes which slots run and where nginx routes at every end. */
  lemma SwingCommands(s: Site, job: Job, f: Faults)
    requires Inv(s)
    ensures var target := Inactive(s.loaded);
            Swing(s, job, f).0.log == s.log +
              if f.activeLost || f.inactiveLost then []
              else if !Boots(job, f) then [Start(target, if job.tag == "" then Nothing else StartEffectOf(f.start))]
              else [Start(target, Booted)] + AfterBoot(s.loaded, target, job, f)
  {
    if Boots(job, f) {
      var target := Inactive(s.file);
      var s1 := StartStep(s, target, job.tag, job.broken, Booted);
      assert AppIn(s1, target) == Some(G.App(job.tag, job.broken));
      SwingTail(s, s1, target, job, f);
    }
  }

  lemma SwingTail(s: Site, s1: Site, target: Color, job: Job, f: Faults)
    requires Inv(s) && Boots(job, f) && target == Inactive(s.file)
    requires s1 == StartStep(s, target, job.tag, job.broken, Booted) && AppIn(s1, target) == Some(G.App(job.tag, job.broken))
    ensures Swing(s, job, f).0.log == s.log + ([Start(target, Booted)] + AfterBoot(s.loaded, target, job, f))
  {
    var t, rest := Swing(s, job, f).0, AfterBoot(s.loaded, target, job, f);
    assert s1.log == s.log + [Start(target, Booted)];
    assert t.log == s1.log + rest by {
      assert s1.log + [] == s1.log;
      if PassesGate(job, f) && SwitchEffectOf(f.switch) == Reloaded && f.switch.SwitchOk? && s.loaded.Some? {
        assert s1.log + ([Reload(target)] + [Stop(s.loaded.value, job.grace, f.drain.effect)])
            == s1.log + [Reload(target)] + [Stop(s.loaded.value, job.grace, f.drain.effect)];
      }
    }
    assert s1.log + rest == s.log + ([Start(target, Booted)] + rest);
  }

  /** A version that fails its gate is started in the spare slot and stopped there with one second of grace,
      and when docker obeys nothing of it remains. */
  lemma RejectedLeavesNoTrace(s: Site, job: Job, f: Faults)
    requires Inv(s) && TearsDown(job, f)
    ensures var t, target := Swing(s, job, f).0, Inactive(s.file);
            && t.log == s.log + [Start(target, Booted)] + [Stop(target, 1, f.teardown.effect)]
            && (f.teardown.effect == Removed ==> t.slots == s.slots - {target})
  {
    var target := Inactive(s.file);
    var s1 := StartStep(s, target, job.tag, job.broken, Booted);
    assert AppIn(s1, target) == Some(G.App(job.tag, job.broken));
    assert s1.slots - {target} == s.slots - {target};
  }

  /** A promoted version is a new container in the spare slot; nginx is pointed at it, and then the old one is
      stopped with the grace of the release. When docker obeys the new one is alone. */
  lemma PromotedStandsAlone(s: Site, job: Job, f: Faults)
    requires Inv(s) && ReachesReload(s, job, f) && f.switch.SwitchOk?
    ensures var t, target := Swing(s, job, f).0, Inactive(s.file);
            && t.log == s.log + [Start(target, Booted)] + [Reload(target)]
                        + (if s.file.Some? then [Stop(s.file.value, job.grace, f.drain.effect)] else [])
            && target in t.slots && t.slots[target] == Container(s.issued, job.tag, job.broken, true)
            && (s.file.Some? && f.drain.effect == Removed ==> t.slots.Keys == {target})
  {
    var target := Inactive(s.file);
    var s1 := StartStep(s, target, job.tag, job.broken, Booted);
    assert AppIn(s1, target) == Some(G.App(job.tag, job.broken));
    if s.file.Some? { OnlyTwoSlots(s1.slots, s.file.value); }
  }

  lemma OnlyTwoSlots(slots: map<Color, Container>, c: Color)
    ensures (slots - {c}).Keys <= {Other(c)}
  {
    forall d | d in slots - {c} ensures d == Other(c) { match c case Blue => case Green => }
  }

  /** A deploy that goes through, drain included. */
  ghost predicate PassingDeploy(op: Op) {
    op.DeployOp? && ReachesReload(EMPTY_SITE, op.job, op.f) && op.f.switch.SwitchOk? && !op.f.drain.StopDies?
  }

  /** The live slot after n deploys: none, then blue, then green, and so on. */
  function NthDeploy(n: nat): Option<Color> {
    if n == 0 then None else if n % 2 == 1 then Some(Blue) else Some(Green)
  }

  /** The first version ever goes live in blue, and from then on deploys alternate. */
  lemma {:induction false} DeploysAlternate(ports: N.Ports, ops: seq<Op>)
    requires forall i :: 0 <= i < |ops| ==> PassingDeploy(ops[i])
    ensures Run(EMPTY_SITE, ports, ops).loaded == NthDeploy(|ops|)
  {
    if ops != [] {
      var init, last := ops[..|ops| - 1], ops[|ops| - 1];
      DeploysAlternate(ports, init);
      PassingIsNotTorn(init);
      EveryRunIsSafe(ports, init);
      PassingDeployMoves(Run(EMPTY_SITE, ports, init), ports, last);
      NextDeploy(|init|);
    }
  }

  lemma NextDeploy(n: nat)
    ensures NthDeploy(n + 1) == Some(Inactive(NthDeploy(n)))
  {}

  lemma PassingIsNotTorn(ops: seq<Op>)
    requires forall i :: 0 <= i < |ops| ==> PassingDeploy(ops[i])
    ensures forall i :: 0 <= i < |ops| ==> NotTorn(ops[i].f)
  {}

  lemma PassingDeployMoves(s: Site, ports: N.Ports, op: Op)
    requires Inv(s) && PassingDeploy(op)
    ensures var t := Apply(s, ports, op).0; Inv(t) && t.loaded == Some(Inactive(s.loaded))
  {
    DeployOutcomes(s, ports, op.job, op.f, op.lf);
    DeployKeeps(s, ports, op.job, op.f, op.lf);
  }

  // ---- the ledger -----------------------------------------------------------------------------------

  /** A drill never gets as far as the switch, whatever the retry budget and whatever fails. */
  lemma DrillsNeverSwitch(s: Site, ports: N.Ports, job: Job, f: Faults, lf: LedgerFaults)
    requires Inv(s) && job.broken
    ensures !ReachesReload(s, job, f)
    ensures var (t, e) := Deploy(s, ports, job, f, lf); SameRouting(s, t) && e != Completed && e != LedgerStale && t.lastGood == s.lastGood
  {
    G.PassMeansServing(Some(G.App(job.tag, job.broken)), job.tag, job.retries, f.envs);
    if Boots(job, f) { SwingRejects(s, job, f); } else { SwingStopsEarly(s, job, f); }
  }

  /** The append took effect, whether or not its reply arrived. */
  predicate HistoryLands(lf: LedgerFaults) { !lf.historyLost && lf.historyPut != PutFails }

  /** One of the attempts that were made took effect; the first to succeed is the last made. */
  predicate LastGoodLands(lf: LedgerFaults) {
    PutAt(lf.lastGoodPuts, 0) != PutFails || PutAt(lf.lastGoodPuts, 1) != PutFails || PutAt(lf.lastGoodPuts, 2) != PutFails
  }

  /** What a deploy leaves in the ledger: its tag in last-good exactly when the run got there and some put took
      effect, a failed or a successful entry exactly when the respective append was reached and took effect,
      and nothing else. */
  lemma DeployWrites(s: Site, ports: N.Ports, job: Job, f: Faults, lf: LedgerFaults)
    requires Inv(s) && NotTorn(f)
    ensures var t, slot := Deploy(s, ports, job, f, lf).0, Inactive(s.file);
            && t.lastGood == (if ReachesLedger(s, job, f) && LastGoodLands(lf)
                              then Some(LastGood(job.tag, slot, N.PortFor(ports, slot))) else s.lastGood)
            && t.history == (if TearsDown(job, f) && HistoryLands(lf) then Appended(s.history, Entry(job.tag, Failure, s.loaded))
                             else if ReachesLedger(s, job, f) && RecordsLastGood(lf) && HistoryLands(lf)
                             then Appended(s.history, Entry(job.tag, Success, Some(slot)))
                             else s.history)
  {
    SwingKeeps(s, job, f);
    SwingRejectsWhen(s, job, f);
    var (s1, r) := Swing(s, job, f);
    if r.Promoted? { RetryWrites(s1, LastGood(job.tag, r.target, N.PortFor(ports, r.target)), lf); }
  }

  /** The loop over ledger attempts writes last-good exactly when some put took effect. */
  lemma RetryWrites(s: Site, g: LastGood, lf: LedgerFaults)
    ensures RetryLastGood(s, g, lf.lastGoodPuts, 1)
         == (s.(lastGood := if LastGoodLands(lf) then Some(g) else s.lastGood), RecordsLastGood(lf))
  {
    RetryOne(s, g, lf.lastGoodPuts, 3);
    RetryOne(s, g, lf.lastGoodPuts, 2);
    RetryOne(s.(lastGood := Some(g)), g, lf.lastGoodPuts, 3);
    RetryOne(s.(lastGood := Some(g)), g, lf.lastGoodPuts, 2);
  }

  lemma RetryOne(s: Site, g: LastGood, puts: seq<PutRun>, i: nat)
    requires 1 <= i <= 3
    ensures var p := PutAt(puts, i - 1);
            var t := if p == PutFails then s else s.(lastGood := Some(g));
            RetryLastGood(s, g, puts, i) == if p == PutOk then (t, true) else RetryLastGood(t, g, puts, i + 1)
  {}

  /** What the ledger says after each exit: 0 means that last-good and the newest history entry name the
      live tag, 2 that the history is untouched and last-good too unless a put took effect and lost its
      reply, 1 by a return that one failed entry was appended and nothing else. */
  lemma DeployLedger(s: Site, ports: N.Ports, job: Job, f: Faults, lf: LedgerFaults)
    requires Inv(s) && NotTorn(f)
    ensures var (t, e) := Deploy(s, ports, job, f, lf);
            && (e == Completed ==>
                  && LiveTag(t) == Some(job.tag) && t.loaded.Some?
                  && t.lastGood == Some(LastGood(job.tag, t.loaded.value, N.PortFor(ports, t.loaded.value)))
                  && t.history == Appended(s.history, Entry(job.tag, Success, t.loaded))
                  && |t.history| > 0 && t.history[|t.history| - 1].tag == job.tag)
            && (e == LedgerStale ==>
                  && LiveTag(t) == Some(job.tag) && t.history == s.history
                  && (!LastGoodLands(lf) ==> t.lastGood == s.lastGood))
            && (e == RolledBack ==>
                  SameRouting(s, t) && t.lastGood == s.lastGood
                  && t.history == Appended(s.history, Entry(job.tag, Failure, s.loaded)))
  {
    DeployOutcomes(s, ports, job, f, lf);
    DeployWrites(s, ports, job, f, lf);
    TornDownOrSwitched(s, job, f);
  }

  lemma TornDownOrSwitched(s: Site, job: Job, f: Faults)
    ensures !(TearsDown(job, f) && ReachesReload(s, job, f))
  {}

  /** deploy/common.py:41-50 says that exit 1 means that traffic never moved and exit 3 that nothing failed
      after it moved. Neither is so, and this is exactly when: exit 1 with the tag live is an unguarded
      history write after promotion, exit 3 with the tag live is a lost switch reply or a failed drain. */
  lemma ExitCodesThatHideALiveDeploy(s: Site, ports: N.Ports, job: Job, f: Faults, lf: LedgerFaults)
    requires Inv(s) && NotTorn(f) && ReachesReload(s, job, f)
    ensures var (t, e) := Deploy(s, ports, job, f, lf);
            && LiveTag(t) == Some(job.tag)
            && (ExitCode(e) == 1 <==>
                  f.switch.SwitchOk? && !(s.file.Some? && f.drain.StopDies?) && RecordsLastGood(lf) && !RecordsHistory(lf))
            && (ExitCode(e) == 3 <==> f.switch.SwitchDies? || (s.file.Some? && f.drain.StopDies?))
  {
    DeployOutcomes(s, ports, job, f, lf);
    SwingKeeps(s, job, f);
  }

  const UP_ENV := G.ProbeEnv(true, 0, true, true, true)
  const NO_FAULTS := Faults(false, false, StartOk, false, [UP_ENV], StopReports(Removed), false, SwitchOk, StopReports(Removed))

  lemma EmptyInv()
    ensures Inv(EMPTY_SITE)
  {}

  lemma NoFaultsReload(s: Site, tag: Tag)
    requires tag != ""
    ensures ReachesReload(s, Job(tag, false, 1, 15), NO_FAULTS)
  {
    assert G.PassesAt(Some(G.App(tag, false)), tag, [UP_ENV], 1);
  }

  /** The two disagreements on concrete runs: the first deploy ever exits 1 with its tag live when the
      history write fails, and a second one exits 3 with its tag live when the drain fails. */
  lemma ExitCodeWitnesses(ports: N.Ports)
    ensures var job := Job("a1", false, 1, 15);
            var (t, e) := Deploy(EMPTY_SITE, ports, job, NO_FAULTS, LedgerFaults([], false, PutFails));
            && ExitCode(e) == 1 && LiveTag(t) == Some("a1")
            && var (u, x) := Deploy(t, ports, job.(tag := "b2"), NO_FAULTS.(drain := StopDies(Halted)), LedgerFaults([], false, PutOk));
               ExitCode(x) == 3 && LiveTag(u) == Some("b2")
  {
    EmptyInv();
    var job := Job("a1", false, 1, 15);
    var lf := LedgerFaults([], false, PutFails);
    NoFaultsReload(EMPTY_SITE, "a1");
    ExitCodesThatHideALiveDeploy(EMPTY_SITE, ports, job, NO_FAULTS, lf);
    DeployKeeps(EMPTY_SITE, ports, job, NO_FAULTS, lf);
    DeployOutcomes(EMPTY_SITE, ports, job, NO_FAULTS, lf);
    var t := Deploy(EMPTY_SITE, ports, job, NO_FAULTS, lf).0;
    NoFaultsReload(t, "b2");
    ExitCodesThatHideALiveDeploy(t, ports, job.(tag := "b2"), NO_FAULTS.(drain := StopDies(Halted)), LedgerFaults([], false, PutOk));
  }

  // ---- a switch torn between install and reload ---------------------------------------------------

  /** The slot whose container a run started from `s` removes first. */
  function FirstSlotTouched(s: Site): Color { Inactive(s.file) }

  /** Without the no-split hypothesis safety is lost, exactly when something was live: a switch torn
      between install and reload leaves the two configs apart, and the next run that starts a container
      removes the live one. */
  lemma TornSwitchEndangersLive(s: Site, job: Job, f: Faults, next: Job, g: Faults)
    requires Inv(s) && Boots(job, f) && f.switch == SwitchDies(Torn)
    requires !f.gateLost && G.Passes(Some(G.App(job.tag, job.broken)), job.tag, job.retries, f.envs)
    requires Boots(next, g)
    ensures var t := Swing(s, job, f).0;
            && t.loaded == s.loaded && t.file == Some(Inactive(s.file))
            && (Allowed(Tracked(t.log), Start(FirstSlotTouched(t), Booted)) <==> s.loaded.None?)
            && Start(FirstSlotTouched(t), Booted) in Swing(t, next, g).0.log
            && (s.loaded.Some? ==> !Tracked(Swing(t, next, g).0.log).safe)
  {
    var target := Inactive(s.file);
    StartKeeps(s, target, job.tag, job.broken, Booted);
    var s1 := StartStep(s, target, job.tag, job.broken, Booted);
    assert AppIn(s1, target) == Some(G.App(job.tag, job.broken));
    var t := Swing(s, job, f).0;
    assert t.log == s1.log;
    SwingLogs(t, next, g);
    if Tracked(Swing(t, next, g).0.log).safe { SafeAtEveryCommand(Swing(t, next, g).0.log, |t.log|); }
  }

  lemma SwingLogs(t: Site, next: Job, g: Faults)
    requires Boots(next, g)
    ensures var log := Swing(t, next, g).0.log;
            |t.log| < |log| && log[..|t.log|] == t.log && log[|t.log|] == Start(Inactive(t.file), Booted)
  {
    var target := Inactive(t.file);
    var s1 := StartStep(t, target, next.tag, next.broken, Booted);
    assert s1.log == t.log + [Start(target, Booted)];
    assert s1.log <= Swing(t, next, g).0.log;
  }

  // ---- repairing a stale ledger ---------------------------------------------------------------------

  /** Re-running a deploy of the live tag reconciles a stale ledger, as the message of exit 2 says. */
  lemma RedeployReconciles(s: Site, ports: N.Ports, job: Job, f: Faults, lf: LedgerFaults)
    requires Inv(s) && NotTorn(f) && LiveTag(s) == Some(job.tag)
    requires ReachesLedger(s, job, f) && RecordsLastGood(lf) && RecordsHistory(lf)
    ensures var t := Deploy(s, ports, job, f, lf).0;
            && Some(RecordedTag(t)) == LiveTag(t) == LiveTag(s)
            && forall rf: ReadFaults :: ChooseTarget(t, "", rf).Go? ==> Some(ChooseTarget(t, "", rf).tag) != LiveTag(t)
  {
    DeployOutcomes(s, ports, job, f, lf);
    DeployLedger(s, ports, job, f, lf);
  }
}
