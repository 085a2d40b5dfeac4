/** rollback.py: how it ends, what its guard is worth, and what repeating it does. */
module Rollbacks {
  import opened Basics
  import opened Ledger
  import opened Release
  import opened ReleaseSafety
  import opened ReleaseOutcomes
  import G = Gate
  import N = NginxConf

  // ---- how a rollback ends --------------------------------------------------------------------------

  predicate RecordsTarget(lf: LedgerFaults) { PutAt(lf.lastGoodPuts, 0) == PutOk && RecordsHistory(lf) }

  /** A run that has chosen `tag`. */
  function RollbackJob(tag: Tag, retries: int, grace: nat): Job { Job(tag, false, retries, grace) }

  /** How a rollback ends, for every outcome of every call. One that chooses no target touches nothing. Otherwise
      traffic moved exactly when everything up to the reload went through, and then the target is live; and a
      run that got to the ledger ends with 0 or, when a write raises, with an uncaught exception. */
  lemma RollbackOutcomes(s: Site, ports: N.Ports, named: Tag, retries: int, grace: nat,
                         f: Faults, lf: LedgerFaults, rf: ReadFaults)
    requires Inv(s) && NotTorn(f)
    ensures var (t, e) := Rollback(s, ports, named, retries, grace, f, lf, rf);
            match ChooseTarget(s, named, rf)
            case Halt(x) => (t, e) == (s, x) && (x == Precondition || x == Uncaught)
            case Go(tag) =>
              var job := RollbackJob(tag, retries, grace);
              && (if ReachesReload(s, job, f)
                  then LiveTag(t) == Some(tag) && t.file == t.loaded == Some(Inactive(s.file))
                  else SameRouting(s, t))
              && (e == Completed <==> ReachesLedger(s, job, f) && RecordsTarget(lf))
              && (e == Uncaught <==> (ReachesLedger(s, job, f) && !RecordsTarget(lf)) || (TearsDown(job, f) && !RecordsHistory(lf)))
              && (e == Precondition <==> !ReachesLedger(s, job, f) && !(TearsDown(job, f) && !RecordsHistory(lf)))
  {
    match ChooseTarget(s, named, rf) {
      case Halt(x) =>
      case Go(tag) =>
        RollbackMoves(s, ports, named, retries, grace, f, lf, rf, tag);
        RollbackExits(s, ports, named, retries, grace, f, lf, rf, tag);
    }
  }

  lemma RollbackMoves(s: Site, ports: N.Ports, named: Tag, retries: int, grace: nat,
                      f: Faults, lf: LedgerFaults, rf: ReadFaults, tag: Tag)
    requires Inv(s) && NotTorn(f) && ChooseTarget(s, named, rf) == Go(tag)
    ensures var t := Rollback(s, ports, named, retries, grace, f, lf, rf).0;
            if ReachesReload(s, RollbackJob(tag, retries, grace), f)
            then LiveTag(t) == Some(tag) && t.file == t.loaded == Some(Inactive(s.file))
            else SameRouting(s, t)
  {
    SwingKeeps(s, RollbackJob(tag, retries, grace), f);
    RollbackRecords(s, ports, named, retries, grace, f, lf, rf, tag);
  }

  /** After its swing a rollback only writes the ledger. */
  lemma RollbackRecords(s: Site, ports: N.Ports, named: Tag, retries: int, grace: nat,
                        f: Faults, lf: LedgerFaults, rf: ReadFaults, tag: Tag)
    requires ChooseTarget(s, named, rf) == Go(tag)
    ensures var t := Rollback(s, ports, named, retries, grace, f, lf, rf).0;
            var u := Swing(s, RollbackJob(tag, retries, grace), f).0;
            t.slots == u.slots && t.file == u.file && t.loaded == u.loaded
  {
    var r := Swing(s, RollbackJob(tag, retries, grace), f).1;
    match r case Aborted => case Rejected(_) => case Promoted(_, _) =>
  }

  lemma RollbackExits(s: Site, ports: N.Ports, named: Tag, retries: int, grace: nat,
                      f: Faults, lf: LedgerFaults, rf: ReadFaults, tag: Tag)
    requires Inv(s) && NotTorn(f) && ChooseTarget(s, named, rf) == Go(tag)
    ensures var e := Rollback(s, ports, named, retries, grace, f, lf, rf).1;
            var job := RollbackJob(tag, retries, grace);
            && (e == Completed <==> ReachesLedger(s, job, f) && RecordsTarget(lf))
            && (e == Uncaught <==> (ReachesLedger(s, job, f) && !RecordsTarget(lf)) || (TearsDown(job, f) && !RecordsHistory(lf)))
            && (e == Precondition <==> !ReachesLedger(s, job, f) && !(TearsDown(job, f) && !RecordsHistory(lf)))
  {
    var job := RollbackJob(tag, retries, grace);
    SwingKeeps(s, job, f);
    SwingRejectsWhen(s, job, f);
  }

  /** What stops a default rollback at once: a live version that is not the recorded one. */
  ghost predicate GuardTrips(s: Site, rf: ReadFaults) {
    rf.reports && s.loaded.Some? && s.lastGood.Some? && LiveTag(s) != Some(s.lastGood.value.tag)
  }

  /** When a rollback ends before it starts anything, and how; in every other case it goes for `--tag` if that
      was given, and otherwise for the newest success that is not the recorded one. */
  lemma RollbackHalts(s: Site, ports: N.Ports, named: Tag, retries: int, grace: nat,
                      f: Faults, lf: LedgerFaults, rf: ReadFaults)
    requires Inv(s)
    ensures var (t, e) := Rollback(s, ports, named, retries, grace, f, lf, rf);
            var older := PreviousGood(s.history, if s.lastGood.Some? then s.lastGood.value.tag else "");
            if rf.lastGoodLost then (t, e) == (s, Uncaught)
            else if named != "" then ChooseTarget(s, named, rf) == Go(named)
            else if GuardTrips(s, rf) then (t, e) == (s, Precondition)
            else if rf.againHistoryLost || rf.againLastGoodLost then (t, e) == (s, Uncaught)
            else if older.None? then (t, e) == (s, Precondition)
            else ChooseTarget(s, named, rf) == Go(older.value)
  {
    ChoiceIsRight(s, named, rf);
  }

  lemma ChoiceIsRight(s: Site, named: Tag, rf: ReadFaults)
    requires Inv(s)
    ensures var older := PreviousGood(s.history, if s.lastGood.Some? then s.lastGood.value.tag else "");
            ChooseTarget(s, named, rf) ==
              if rf.lastGoodLost then Halt(Uncaught)
              else if named != "" then Go(named)
              else if GuardTrips(s, rf) then Halt(Precondition)
              else if rf.againHistoryLost || rf.againLastGoodLost then Halt(Uncaught)
              else if older.None? then Halt(Precondition)
              else Go(older.value)
  {
    LiveIsReported(s, rf.reports);
  }

  lemma LiveIsReported(s: Site, reports: bool)
    requires Inv(s)
    ensures LiveVersion(s, reports) == if reports && s.loaded.Some? then LiveTag(s).value else ""
    ensures LiveTag(s).Some? <==> s.loaded.Some?
    ensures LiveTag(s).Some? ==> LiveTag(s).value != ""
  {}

  /** The exit status of a rollback, in numbers. */
  lemma RollbackExitCodes(s: Site, ports: N.Ports, named: Tag, retries: int, grace: nat,
                          f: Faults, lf: LedgerFaults, rf: ReadFaults)
    requires Inv(s) && NotTorn(f)
    ensures var code := ExitCode(Rollback(s, ports, named, retries, grace, f, lf, rf).1);
            match ChooseTarget(s, named, rf)
            case Halt(x) => (code == 1 <==> x == Uncaught) && (code == 3 <==> x == Precondition) && (code == 1 || code == 3)
            case Go(tag) =>
              var job := RollbackJob(tag, retries, grace);
              && (code == 0 <==> ReachesLedger(s, job, f) && RecordsTarget(lf))
              && (code == 1 <==> (ReachesLedger(s, job, f) && !RecordsTarget(lf)) || (TearsDown(job, f) && !RecordsHistory(lf)))
              && (code == 3 <==> !ReachesLedger(s, job, f) && !(TearsDown(job, f) && !RecordsHistory(lf)))
              && code != 2
  {
    RollbackOutcomes(s, ports, named, retries, grace, f, lf, rf);
  }

  /** `--tag` is obeyed, also on a stale ledger: if the run gets through, that very tag is live, and after
      exit 0 last-good and the newest history entry name it; otherwise nothing has moved. */
  lemma NamedRollback(s: Site, ports: N.Ports, named: Tag, retries: int, grace: nat,
                      f: Faults, lf: LedgerFaults, rf: ReadFaults)
    requires Inv(s) && NotTorn(f) && named != ""
    ensures var (t, e) := Rollback(s, ports, named, retries, grace, f, lf, rf);
            && (rf.lastGoodLost ==> (t, e) == (s, Uncaught))
            && (if !rf.lastGoodLost && ReachesReload(s, RollbackJob(named, retries, grace), f)
                then LiveTag(t) == Some(named) else SameRouting(s, t))
            && (e == Completed ==>
                  && t.lastGood.Some? && t.lastGood.value.tag == named
                  && |t.history| > 0 && t.history[|t.history| - 1] == Entry(named, Success, t.loaded))
  {
    RollbackHalts(s, ports, named, retries, grace, f, lf, rf);
    RollbackOutcomes(s, ports, named, retries, grace, f, lf, rf);
    if !rf.lastGoodLost {
      RollbackLedger(s, ports, named, retries, grace, f, lf, rf, named);
      TornDownOrSwitched(s, RollbackJob(named, retries, grace), f);
    }
  }

  /** What a rollback leaves in the ledger: the target in last-good exactly when the run got there and the put
      took effect, a failed or a successful entry exactly when the respective append was reached and took
      effect, and nothing else. */
  lemma RollbackLedger(s: Site, ports: N.Ports, named: Tag, retries: int, grace: nat,
                       f: Faults, lf: LedgerFaults, rf: ReadFaults, tag: Tag)
    requires Inv(s) && NotTorn(f) && ChooseTarget(s, named, rf) == Go(tag)
    ensures var t := Rollback(s, ports, named, retries, grace, f, lf, rf).0;
            var job, slot, put := RollbackJob(tag, retries, grace), Inactive(s.file), PutAt(lf.lastGoodPuts, 0);
            && t.lastGood == (if ReachesLedger(s, job, f) && put != PutFails
                              then Some(LastGood(tag, slot, N.PortFor(ports, slot))) else s.lastGood)
            && t.history == (if TearsDown(job, f) && HistoryLands(lf) then Appended(s.history, Entry(tag, Failure, s.loaded))
                             else if ReachesLedger(s, job, f) && put == PutOk && HistoryLands(lf)
                             then Appended(s.history, Entry(tag, Success, Some(slot)))
                             else s.history)
  {
    var job := RollbackJob(tag, retries, grace);
    SwingKeeps(s, job, f);
    SwingRejectsWhen(s, job, f);
  }

  /** deploy/common.py:49-50 says that only the rollback path of deploy.py may exit 1. rollback.py does too, with
      the target live: exactly when it got to the ledger and a write raised. Exit 3 with the target live is a
      lost switch reply or a failed drain, as in a deploy. */
  lemma ExitCodesThatHideALiveRollback(s: Site, ports: N.Ports, named: Tag, retries: int, grace: nat,
                                       f: Faults, lf: LedgerFaults, rf: ReadFaults, tag: Tag)
    requires Inv(s) && NotTorn(f) && ChooseTarget(s, named, rf) == Go(tag)
    requires ReachesReload(s, RollbackJob(tag, retries, grace), f)
    ensures var (t, e) := Rollback(s, ports, named, retries, grace, f, lf, rf);
            && LiveTag(t) == Some(tag)
            && (ExitCode(e) == 1 <==> f.switch.SwitchOk? && !(s.file.Some? && f.drain.StopDies?) && !RecordsTarget(lf))
            && (ExitCode(e) == 3 <==> f.switch.SwitchDies? || (s.file.Some? && f.drain.StopDies?))
            && (ExitCode(e) == 1 && PutAt(lf.lastGoodPuts, 0) == PutFails ==> t.lastGood == s.lastGood && t.history == s.history)
  {
    RollbackOutcomes(s, ports, named, retries, grace, f, lf, rf);
    RollbackLedger(s, ports, named, retries, grace, f, lf, rf, tag);
    TornDownOrSwitched(s, RollbackJob(tag, retries, grace), f);
  }

  // ---- the staleness guard --------------------------------------------------------------------------

  /** In every state a run can reach, a default rollback against a service that reports its version either
      stops with nothing touched or goes for a tag that was once recorded as a success and is not live. */
  lemma RollbackGuard(s: Site, ports: N.Ports, retries: int, grace: nat, f: Faults, lf: LedgerFaults, rf: ReadFaults)
    requires Inv(s) && s.loaded.Some? && rf.reports
    ensures match ChooseTarget(s, "", rf)
            case Halt(e) => Rollback(s, ports, "", retries, grace, f, lf, rf) == (s, e)
            case Go(tag) => && Some(tag) != LiveTag(s)
                            && exists i :: 0 <= i < |s.history| && s.history[i].tag == tag && s.history[i].status == Success
  {
    StoredIsSuffix(s.appends);
    var live := LiveVersion(s, true);
    if s.lastGood.None? {
      assert forall i :: 0 <= i < |s.history| ==> s.history[i].status == Failure;
      assert PreviousGood(s.history, "") == None;
    }
  }

  /** On a stale ledger a default rollback moves traffic if and only if the service does not answer 200, the
      history holds a success other than the stale record, and everything up to the reload goes through. Then
      that older tag is live instead of the one that was; in every other case nothing moves. */
  lemma StaleRollbackMovesIff(s: Site, ports: N.Ports, retries: int, grace: nat, f: Faults, lf: LedgerFaults, rf: ReadFaults)
    requires Inv(s) && NotTorn(f) && s.loaded.Some? && s.lastGood.Some? && LiveTag(s) != Some(s.lastGood.value.tag)
    requires !rf.lastGoodLost && !rf.againHistoryLost && !rf.againLastGoodLost
    ensures var (t, e) := Rollback(s, ports, "", retries, grace, f, lf, rf);
            var older := PreviousGood(s.history, s.lastGood.value.tag);
            && (if !rf.reports && older.Some? && ReachesReload(s, RollbackJob(older.value, retries, grace), f)
                then LiveTag(t) == older && t.loaded == Some(Other(s.loaded.value))
                else SameRouting(s, t))
            && (rf.reports || older.None? ==> (t, e) == (s, Precondition))
  {
    RollbackOutcomes(s, ports, "", retries, grace, f, lf, rf);
  }

  // ---- default rollback is an involution ----------------------------------------------------------

  /** `live` is live, last-good and the newest recorded success; `alt` is the next target. */
  ghost predicate Consistent(s: Site, live: Tag, alt: Tag) {
    && Inv(s) && s.loaded.Some?
    && LiveTag(s) == Some(live)
    && s.lastGood.Some? && s.lastGood.value.tag == live && s.lastGood.value.color == s.loaded.value
    && Swappable(s.history, live, alt)
  }

  /** A default rollback in which no call fails and the gate passes for `tag`. */
  ghost predicate PassingRollback(op: Op, tag: Tag) {
    && op.RollbackOp? && op.named == ""
    && !op.f.activeLost && !op.f.inactiveLost && op.f.start.StartOk? && !op.f.gateLost
    && G.Passes(Some(G.App(tag, false)), tag, op.retries, op.f.envs)
    && op.f.switch.SwitchOk? && op.f.drain.StopReports?
    && PutAt(op.lf.lastGoodPuts, 0) == PutOk && RecordsHistory(op.lf)
    && !op.rf.lastGoodLost && !op.rf.againHistoryLost && !op.rf.againLastGoodLost
  }

  lemma RollbackSwaps(s: Site, ports: N.Ports, live: Tag, alt: Tag, op: Op)
    requires Consistent(s, live, alt) && PassingRollback(op, alt)
    ensures var (t, e) := Apply(s, ports, op);
            e == Completed && Consistent(t, alt, live) && t.loaded == Some(Other(s.loaded.value))
  {
    SwapRoundTrip(s.history, live, alt, Entry(alt, Success, Some(Other(s.loaded.value))));
    var job := Job(alt, false, op.retries, op.grace);
    SwingKeeps(s, job, op.f);
    RollbackKeeps(s, ports, "", op.retries, op.grace, op.f, op.lf, op.rf);
    assert ChooseTarget(s, "", op.rf) == Go(alt);
  }

  /** Deploys lead there: one that returns 0, when the history holds a success of another tag. */
  lemma DeployMakesConsistent(s: Site, ports: N.Ports, job: Job, f: Faults, lf: LedgerFaults, alt: Tag)
    requires Inv(s) && NotTorn(f)
    ensures var (t, e) := Deploy(s, ports, job, f, lf);
            e == Completed && PreviousGood(t.history, job.tag) == Some(alt) ==> Consistent(t, job.tag, alt)
  {
    var (t, e) := Deploy(s, ports, job, f, lf);
    DeployOutcomes(s, ports, job, f, lf);
    DeployLedger(s, ports, job, f, lf);
    DeployKeeps(s, ports, job, f, lf);
    if e == Completed && PreviousGood(t.history, job.tag) == Some(alt) {
      NewestSuccessSwaps(s.history, job.tag, alt, Entry(job.tag, Success, t.loaded));
    }
  }

  lemma NewestSuccessSwaps(h: seq<Entry>, live: Tag, alt: Tag, e: Entry)
    requires e.tag == live != "" && e.status == Success && PreviousGood(Appended(h, e), live) == Some(alt)
    ensures Swappable(Appended(h, e), live, alt)
  {
    var all := Appended(h, e);
    assert all[|all| - 1] == e;
    var i :| 0 <= i < |all| && Candidate(all[i], live) && all[i].tag == alt && forall j :: i < j < |all| ==> !Candidate(all[j], live);
    assert Swap(all, live, alt, i, |all| - 1);
  }

  /** The tag that is live after k rollbacks, and the one the next goes to. */
  function NthLive(live: Tag, alt: Tag, k: nat): Tag { if k % 2 == 0 then live else alt }
  function NthTarget(live: Tag, alt: Tag, k: nat): Tag { if k % 2 == 0 then alt else live }
  function NthSlot(c: Color, k: nat): Color { if k % 2 == 0 then c else Other(c) }

  lemma NthStep(live: Tag, alt: Tag, c: Color, k: nat)
    ensures NthLive(live, alt, k + 1) == NthTarget(live, alt, k)
    ensures NthTarget(live, alt, k + 1) == NthLive(live, alt, k)
    ensures NthSlot(c, k + 1) == Other(NthSlot(c, k))
  {}

  /** After n passing default rollbacks the live tag, the live colour and last-good are the original ones
      for even n, and the one alternative tag in the other slot for odd n, whatever the history bound
      drops meanwhile. */
  lemma {:induction false} RollbackIsAnInvolution(s: Site, ports: N.Ports, live: Tag, alt: Tag, ops: seq<Op>)
    requires Consistent(s, live, alt)
    requires forall k: nat :: k < |ops| ==> PassingRollback(ops[k], NthTarget(live, alt, k))
    ensures var t := Run(s, ports, ops);
            && Consistent(t, NthLive(live, alt, |ops|), NthTarget(live, alt, |ops|))
            && t.loaded == Some(NthSlot(s.loaded.value, |ops|))
  {
    if ops != [] {
      var n := |ops| - 1;
      RollbackIsAnInvolution(s, ports, live, alt, ops[..n]);
      NthStep(live, alt, s.loaded.value, n);
      RollbackSwaps(Run(s, ports, ops[..n]), ports, NthLive(live, alt, n), NthTarget(live, alt, n), ops[n]);
    }
  }
}
