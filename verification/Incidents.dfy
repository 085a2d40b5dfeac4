/** Concrete runs from an empty instance in which the pipeline does what its documentation rules out. */
module Incidents {
  import opened Basics
  import opened Ledger
  import opened Release
  import opened ReleaseSafety
  import opened ReleaseOutcomes
  import opened Rollbacks
  import opened ZeroDowntime
  import G = Gate
  import N = NginxConf

  const RECORDED := LedgerFaults([], false, PutOk)
  const UNRECORDED := LedgerFaults([PutFails, PutFails, PutFails], false, PutOk)

  function Plain(tag: Tag): Job { Job(tag, false, 1, 15) }

  lemma PlainReaches(s: Site, tag: Tag)
    requires tag != ""
    ensures ReachesLedger(s, Plain(tag), NO_FAULTS) && NotTorn(NO_FAULTS)
    ensures RecordsLastGood(RECORDED) && RecordsHistory(RECORDED) && !LastGoodLands(UNRECORDED)
  {
    NoFaultsReload(s, tag);
  }

  /** A deploy whose calls all succeed. */
  lemma Deployed(s: Site, ports: N.Ports, job: Job, f: Faults, lf: LedgerFaults) returns (t: Site)
    requires Inv(s) && NotTorn(f) && ReachesLedger(s, job, f) && RecordsLastGood(lf) && RecordsHistory(lf)
    ensures (t, Completed) == Deploy(s, ports, job, f, lf)
    ensures Inv(t) && t.loaded.Some? && LiveTag(t) == Some(job.tag)
    ensures t.lastGood.Some? && t.lastGood.value.tag == job.tag
    ensures t.history == Appended(s.history, Entry(job.tag, Success, t.loaded))
  {
    t := Deploy(s, ports, job, f, lf).0;
    DeployOutcomes(s, ports, job, f, lf);
    DeployLedger(s, ports, job, f, lf);
    DeployKeeps(s, ports, job, f, lf);
  }

  /** Deploy a, b, and c with its last-good puts failing: exit 2 and c live. A default rollback then stops if
      the service reports its version. If the service answers 503 at that moment, the rollback goes past b
      and makes a live instead of c, with exit 0. */
  lemma StaleRollbackGoesTooFar(ports: N.Ports) returns (stale: Site)
    ensures exists s1, s2 ::
      && (s1, Completed) == Deploy(EMPTY_SITE, ports, Plain("a"), NO_FAULTS, RECORDED)
      && (s2, Completed) == Deploy(s1, ports, Plain("b"), NO_FAULTS, RECORDED)
      && (stale, LedgerStale) == Deploy(s2, ports, Plain("c"), NO_FAULTS, UNRECORDED)
    ensures LiveTag(stale) == Some("c")
    ensures Rollback(stale, ports, "", 1, 15, NO_FAULTS, RECORDED, ReadFaults(true, false, false, false)) == (stale, Precondition)
    ensures var (t, e) := Rollback(stale, ports, "", 1, 15, NO_FAULTS, RECORDED, ReadFaults(false, false, false, false));
            e == Completed && LiveTag(t) == Some("a")
  {
    EmptyInv();
    PlainReaches(EMPTY_SITE, "a");
    var s1 := Deployed(EMPTY_SITE, ports, Plain("a"), NO_FAULTS, RECORDED);
    PlainReaches(s1, "b");
    var s2 := Deployed(s1, ports, Plain("b"), NO_FAULTS, RECORDED);
    PlainReaches(s2, "c");
    stale := LeftStale(s2, ports, Plain("c"), NO_FAULTS, UNRECORDED);
    OlderSuccess(s1.history, s2.history, "a", "b", s1.loaded, s2.loaded);
    StaleRollback(stale, ports, "a", "b");
  }

  /** A deploy whose last-good puts all fail. */
  lemma LeftStale(s: Site, ports: N.Ports, job: Job, f: Faults, lf: LedgerFaults) returns (t: Site)
    requires Inv(s) && NotTorn(f) && ReachesLedger(s, job, f) && !LastGoodLands(lf)
    ensures (t, LedgerStale) == Deploy(s, ports, job, f, lf)
    ensures Inv(t) && t.loaded.Some? && LiveTag(t) == Some(job.tag)
    ensures t.history == s.history && t.lastGood == s.lastGood
  {
    t := Deploy(s, ports, job, f, lf).0;
    DeployOutcomes(s, ports, job, f, lf);
    DeployLedger(s, ports, job, f, lf);
    DeployKeeps(s, ports, job, f, lf);
  }

  lemma OlderSuccess(h1: seq<Entry>, h2: seq<Entry>, a: Tag, b: Tag, c: Option<Color>, d: Option<Color>)
    requires h1 == Appended([], Entry(a, Success, c)) && h2 == Appended(h1, Entry(b, Success, d))
    requires a != "" && a != b
    ensures PreviousGood(h2, b) == Some(a)
  {
    assert h1 == [Entry(a, Success, c)] && h2[..1] == h1;
    assert Candidate(h2[0], b) && !Candidate(h2[1], b);
  }

  lemma StaleRollback(s: Site, ports: N.Ports, older: Tag, recorded: Tag)
    requires Inv(s) && s.loaded.Some? && s.lastGood.Some? && s.lastGood.value.tag == recorded
    requires LiveTag(s) != Some(recorded) && PreviousGood(s.history, recorded) == Some(older) && older != ""
    ensures Rollback(s, ports, "", 1, 15, NO_FAULTS, RECORDED, ReadFaults(true, false, false, false)) == (s, Precondition)
    ensures var (t, e) := Rollback(s, ports, "", 1, 15, NO_FAULTS, RECORDED, ReadFaults(false, false, false, false));
            e == Completed && LiveTag(t) == Some(older)
  {
    NoFaultsReload(s, older);
    assert RollbackJob(older, 1, 15) == Plain(older);
    StaleRollbackMovesIff(s, ports, 1, 15, NO_FAULTS, RECORDED, ReadFaults(true, false, false, false));
    StaleRollbackMovesIff(s, ports, 1, 15, NO_FAULTS, RECORDED, ReadFaults(false, false, false, false));
    RollbackOutcomes(s, ports, "", 1, 15, NO_FAULTS, RECORDED, ReadFaults(false, false, false, false));
  }

  /** Deploy a, deploy b with the connection lost between install and reload, deploy c: the last run starts its
      container in the slot nginx routes to. */
  lemma TornSwitchHitsLiveSlot(ports: N.Ports) returns (torn: Site)
    ensures exists s1 ::
      && (s1, Completed) == Deploy(EMPTY_SITE, ports, Plain("a"), NO_FAULTS, RECORDED)
      && (torn, Precondition) == Deploy(s1, ports, Plain("b"), NO_FAULTS.(switch := SwitchDies(Torn)), RECORDED)
    ensures LiveTag(torn) == Some("a") && torn.file != torn.loaded && LiveVersion(torn, true) == "a"
    ensures !Tracked(Deploy(torn, ports, Plain("c"), NO_FAULTS, RECORDED).0.log).safe
  {
    EmptyInv();
    PlainReaches(EMPTY_SITE, "a");
    var s1 := Deployed(EMPTY_SITE, ports, Plain("a"), NO_FAULTS, RECORDED);
    var f := NO_FAULTS.(switch := SwitchDies(Torn));
    torn := Deploy(s1, ports, Plain("b"), f, RECORDED).0;
    assert G.PassesAt(Some(G.App("b", false)), "b", [UP_ENV], 1);
    TornSwitchEndangersLive(s1, Plain("b"), f, Plain("c"), NO_FAULTS);
    TornLeavesLive(s1, Plain("b"), f);
    DeployLog(torn, ports, Plain("c"), NO_FAULTS, RECORDED);
  }

  /** A torn switch aborts the run and leaves the live container running. */
  lemma TornLeavesLive(s: Site, job: Job, f: Faults)
    requires Inv(s) && s.loaded.Some? && Boots(job, f) && f.switch == SwitchDies(Torn)
    requires !f.gateLost && G.Passes(Some(G.App(job.tag, job.broken)), job.tag, job.retries, f.envs)
    ensures var (t, r) := Swing(s, job, f);
            r == Aborted && LiveTag(t) == LiveTag(s) && t.file != t.loaded && Some(LiveVersion(t, true)) == LiveTag(t)
  {
    var target := Inactive(s.file);
    StartKeeps(s, target, job.tag, job.broken, Booted);
    assert AppIn(StartStep(s, target, job.tag, job.broken, Booted), target) == Some(G.App(job.tag, job.broken));
  }
}
