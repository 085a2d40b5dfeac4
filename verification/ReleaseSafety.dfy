/** Safety of the release protocol over whole runs: any serialized sequence of deploys and rollbacks,
    each stopping at any call. */
module ReleaseSafety {
  import opened Basics
  import opened Ledger
  import opened Release
  import G = Gate
  import N = NginxConf

  datatype Op =
    | DeployOp(job: Job, f: Faults, lf: LedgerFaults)
    | RollbackOp(named: Tag, retries: int, grace: nat, f: Faults, lf: LedgerFaults, rf: ReadFaults)

  ghost function Apply(s: Site, ports: N.Ports, op: Op): (Site, Exit) {
    match op
    case DeployOp(job, f, lf) => Deploy(s, ports, job, f, lf)
    case RollbackOp(named, retries, grace, f, lf, rf) => Rollback(s, ports, named, retries, grace, f, lf, rf)
  }

  /** The state after the runs `ops`, one after the other. */
  ghost function Run(s: Site, ports: N.Ports, ops: seq<Op>): Site {
    if ops == [] then s else Apply(Run(s, ports, ops[..|ops| - 1]), ports, ops[|ops| - 1]).0
  }

  const EMPTY_SITE := Site(map[], None, None, [], None, 0, map[], [], [])

  // ---- what the command log says ----------------------------------------------------------------

  /** What a log amounts to: the slot nginx routes to, which slots hold a running container, and whether
      every command was allowed when it was issued. */
  datatype Track = Track(routed: Option<Color>, blueUp: bool, greenUp: bool, safe: bool)

  predicate Up(t: Track, c: Color) {
    match c
    case Blue => t.blueUp
    case Green => t.greenUp
  }

  function SetUp(t: Track, c: Color, up: bool): Track {
    match c
    case Blue => t.(blueUp := up)
    case Green => t.(greenUp := up)
  }

  /** A start or stop must not name the routed slot; a reload must not route to a dead one. */
  predicate Allowed(t: Track, e: Event) {
    if e.Reload? then Up(t, e.slot) else t.routed != Some(e.slot)
  }

  function Follow(t: Track, e: Event): Track {
    var u := t.(safe := t.safe && Allowed(t, e));
    match e
    case Start(c, k) => if k == Nothing then u else SetUp(u, c, k == Booted)
    case Reload(c) => u.(routed := Some(c))
    case Stop(c, _, k) => if k == LeftRunning then u else SetUp(u, c, false)
  }

  function Tracked(log: seq<Event>): Track {
    if log == [] then Track(None, false, false, true)
    else Follow(Tracked(log[..|log| - 1]), log[|log| - 1])
  }

  lemma TrackedGrows(log: seq<Event>, e: Event)
    ensures Tracked(log + [e]) == Follow(Tracked(log), e)
  {
    assert (log + [e])[..|log|] == log;
  }

  /** A safe log had every command allowed at the moment it was issued. */
  lemma {:induction false} SafeAtEveryCommand(log: seq<Event>, i: nat)
    requires Tracked(log).safe && i < |log|
    ensures Allowed(Tracked(log[..i]), log[i])
  {
    if i < |log| - 1 {
      SafeAtEveryCommand(log[..|log| - 1], i);
      assert log[..|log| - 1][..i] == log[..i];
    }
  }

  // ---- the invariant at run boundaries ----------------------------------------------------------

  /** The live slot holds a running container that passed the gate for its own tag. */
  ghost predicate LiveCertified(loaded: Option<Color>, slots: map<Color, Container>, certified: map<nat, Tag>) {
    loaded.Some? ==>
      && loaded.value in slots
      && var c := slots[loaded.value];
         c.running && c.version != "" && !c.broken && c.id in certified && certified[c.id] == c.version
  }

  ghost predicate FreshIds(slots: map<Color, Container>, issued: nat) {
    && (Blue in slots ==> slots[Blue].id < issued)
    && (Green in slots ==> slots[Green].id < issued)
    && (Blue in slots && Green in slots ==> slots[Blue].id != slots[Green].id)
  }

  predicate Running(slots: map<Color, Container>, c: Color) { c in slots && slots[c].running }

  /** The log is safe and tells the truth about routing and slots. */
  ghost predicate LogFaithful(log: seq<Event>, loaded: Option<Color>, slots: map<Color, Container>) {
    Tracked(log) == Track(loaded, Running(slots, Blue), Running(slots, Green), true)
  }

  /** The store is the bounded image of all appends; a recorded success implies a last-good record. */
  ghost predicate LedgerSound(history: seq<Entry>, appends: seq<Entry>, lastGood: Option<LastGood>) {
    && history == StoredAfter(appends)
    && (lastGood.Some? ==> lastGood.value.tag != "")
    && (lastGood.None? ==> forall i :: 0 <= i < |appends| ==> appends[i].status == Failure)
  }

  /** What holds at every run boundary; `file == loaded` says that the config file and the loaded config
      agree. */
  ghost predicate Inv(s: Site) {
    && s.file == s.loaded
    && LiveCertified(s.loaded, s.slots, s.certified)
    && FreshIds(s.slots, s.issued)
    && LogFaithful(s.log, s.loaded, s.slots)
    && LedgerSound(s.history, s.appends, s.lastGood)
  }

  /** The hypothesis of the protocol: install and reload are not split. */
  predicate NotTorn(f: Faults) { f.switch != SwitchDies(Torn) }

  /** The tag the live container reports. */
  function LiveTag(s: Site): Option<Tag> {
    if s.loaded.Some? && s.loaded.value in s.slots then Some(s.slots[s.loaded.value].version) else None
  }

  ghost predicate SameRouting(s: Site, t: Site) {
    t.file == s.file && t.loaded == s.loaded && LiveTag(t) == LiveTag(s)
    && (s.loaded.Some? && s.loaded.value in s.slots ==> s.loaded.value in t.slots && t.slots[s.loaded.value] == s.slots[s.loaded.value])
  }

  ghost predicate SameLedger(s: Site, t: Site) {
    t.history == s.history && t.lastGood == s.lastGood && t.appends == s.appends
  }

  // ---- single steps -----------------------------------------------------------------------------

  ghost predicate SameSlot(s: Site, t: Site, d: Color) {
    (d in t.slots <==> d in s.slots) && (d in s.slots ==> t.slots[d] == s.slots[d])
  }

  lemma StartLogged(s: Site, c: Color, tag: Tag, broken: bool, e: StartEffect, t: Site)
    requires LogFaithful(s.log, s.loaded, s.slots) && s.loaded != Some(c) && t == StartStep(s, c, tag, broken, e)
    ensures LogFaithful(t.log, t.loaded, t.slots)
  {
    TrackedGrows(s.log, Start(c, e));
    StartTracked(s.slots, t.slots, s.loaded, c, e);
  }

  lemma StartTracked(slots: map<Color, Container>, slots': map<Color, Container>, loaded: Option<Color>,
                     c: Color, e: StartEffect)
    requires loaded != Some(c)
    requires Running(slots', Other(c)) == Running(slots, Other(c))
    requires Running(slots', c) == (e == Booted || (e == Nothing && Running(slots, c)))
    ensures Follow(Track(loaded, Running(slots, Blue), Running(slots, Green), true), Start(c, e))
         == Track(loaded, Running(slots', Blue), Running(slots', Green), true)
  {
    match c case Blue => case Green =>
  }

  lemma StopLogged(s: Site, c: Color, grace: nat, e: StopEffect)
    requires LogFaithful(s.log, s.loaded, s.slots) && s.loaded != Some(c)
    ensures var t := StopStep(s, c, grace, e); LogFaithful(t.log, s.loaded, t.slots)
  {
    TrackedGrows(s.log, Stop(c, grace, e));
    StopTracked(s.slots, StopStep(s, c, grace, e).slots, s.loaded, c, grace, e);
  }

  lemma StopTracked(slots: map<Color, Container>, slots': map<Color, Container>, loaded: Option<Color>,
                    c: Color, grace: nat, e: StopEffect)
    requires loaded != Some(c)
    requires Running(slots', Other(c)) == Running(slots, Other(c))
    requires Running(slots', c) == (e == LeftRunning && Running(slots, c))
    ensures Follow(Track(loaded, Running(slots, Blue), Running(slots, Green), true), Stop(c, grace, e))
         == Track(loaded, Running(slots', Blue), Running(slots', Green), true)
  {
    match c case Blue => case Green =>
  }

  /** A change to one slot only leaves the other, live one as it was. */
  lemma OtherSlotKeeps(s: Site, t: Site, c: Color)
    requires Inv(s) && s.loaded != Some(c) && SameSlot(s, t, Other(c))
    requires t.file == s.file && t.loaded == s.loaded && t.certified == s.certified && SameLedger(s, t)
    requires LogFaithful(t.log, t.loaded, t.slots) && s.issued <= t.issued
    requires c in t.slots ==> (c in s.slots && t.slots[c].id == s.slots[c].id) || s.issued <= t.slots[c].id < t.issued
    ensures Inv(t) && SameRouting(s, t)
  {
    if s.loaded.Some? { assert s.loaded.value == Other(c); }
    match c case Blue => case Green =>
  }

  lemma StartKeeps(s: Site, c: Color, tag: Tag, broken: bool, e: StartEffect)
    requires Inv(s) && s.loaded != Some(c)
    ensures var t := StartStep(s, c, tag, broken, e);
            && Inv(t) && SameSlot(s, t, Other(c)) && SameRouting(s, t) && SameLedger(s, t)
            && (e == Booted ==> AppIn(t, c) == Some(G.App(tag, broken)))
  {
    StartLogged(s, c, tag, broken, e, StartStep(s, c, tag, broken, e));
    StartTouchesOne(s, c, tag, broken, e);
    OtherSlotKeeps(s, StartStep(s, c, tag, broken, e), c);
  }

  lemma StartTouchesOne(s: Site, c: Color, tag: Tag, broken: bool, e: StartEffect)
    ensures var t := StartStep(s, c, tag, broken, e);
            && SameSlot(s, t, Other(c)) && SameLedger(s, t) && s.issued <= t.issued
            && t.file == s.file && t.loaded == s.loaded && t.certified == s.certified
            && (c in t.slots ==> (c in s.slots && t.slots[c].id == s.slots[c].id) || s.issued <= t.slots[c].id < t.issued)
            && (e == Booted ==> AppIn(t, c) == Some(G.App(tag, broken)))
  {}

  lemma StopKeeps(s: Site, c: Color, grace: nat, e: StopEffect)
    requires Inv(s) && s.loaded != Some(c)
    ensures var t := StopStep(s, c, grace, e);
            Inv(t) && SameSlot(s, t, Other(c)) && SameRouting(s, t) && SameLedger(s, t)
  {
    StopLogged(s, c, grace, e);
    OtherSlotKeeps(s, StopStep(s, c, grace, e), c);
  }

  lemma DistinctIds(s: Site, c: Color)
    requires FreshIds(s.slots, s.issued) && c in s.slots && Other(c) in s.slots
    ensures s.slots[c].id != s.slots[Other(c)].id
  {
    match c case Blue => case Green =>
  }

  lemma CertifyKeeps(s: Site, c: Color, tag: Tag)
    requires Inv(s) && AppIn(s, c) == Some(G.App(tag, false))
    ensures Inv(CertifyStep(s, c, tag))
  {
    if s.loaded.Some? && s.loaded.value != c {
      assert s.loaded.value == Other(c);
      DistinctIds(s, c);
    }
  }

  /** A slot whose container passed the gate for its tag may become the live one. */
  lemma SwitchKeeps(s: Site, c: Color, tag: Tag, e: SwitchEffect)
    requires Inv(s) && e != Torn && tag != ""
    requires AppIn(s, c) == Some(G.App(tag, false))
    ensures var t := SwitchStep(CertifyStep(s, c, tag), c, e);
            && Inv(t) && t.slots == s.slots
            && t.loaded == (if e == Reloaded then Some(c) else s.loaded)
  {
    CertifyKeeps(s, c, tag);
    var s1 := CertifyStep(s, c, tag);
    var t := SwitchStep(s1, c, e);
    if e == Restored && s.file.Some? {
      TrackedGrows(s1.log, Reload(s.file.value));
    } else if e == Reloaded {
      TrackedGrows(s1.log, Reload(c));
    }
  }

  // ---- a whole run ------------------------------------------------------------------------------

  /** Everything up to and including the reload went through. */
  ghost predicate ReachesReload(s: Site, job: Job, f: Faults) {
    && !f.activeLost && !f.inactiveLost
    && job.tag != "" && f.start.StartOk?
    && !f.gateLost && G.Passes(Some(G.App(job.tag, job.broken)), job.tag, job.retries, f.envs)
    && SwitchEffectOf(f.switch) == Reloaded
  }

  /** The teardown path: the failed container is removed, routing and ledger are as before. */
  lemma RejectKeeps(s: Site, job: Job, e: StopEffect, target: Color)
    requires Inv(s) && s.loaded != Some(target)
    ensures var t := StopStep(StartStep(s, target, job.tag, job.broken, Booted), target, 1, e);
            Inv(t) && SameRouting(s, t) && SameLedger(s, t)
  {
    StartKeeps(s, target, job.tag, job.broken, Booted);
    StopAlsoKeeps(s, StartStep(s, target, job.tag, job.broken, Booted), target, 1, e);
  }

  lemma StopAlsoKeeps(s: Site, s1: Site, c: Color, grace: nat, e: StopEffect)
    requires Inv(s1) && s1.loaded != Some(c) && SameRouting(s, s1) && SameLedger(s, s1)
    ensures var t := StopStep(s1, c, grace, e);
            Inv(t) && SameRouting(s, t) && SameLedger(s, t)
  {
    StopKeeps(s1, c, grace, e);
  }

  /** The promotion path up to the end of `switch_traffic.sh`. */
  lemma PromoteKeeps(s: Site, job: Job, f: Faults, target: Color)
    requires Inv(s) && NotTorn(f) && s.loaded != Some(target) && job.tag != ""
    requires G.Passes(Some(G.App(job.tag, job.broken)), job.tag, job.retries, f.envs)
    ensures var s1 := StartStep(s, target, job.tag, job.broken, Booted);
            var t := SwitchStep(CertifyStep(s1, target, job.tag), target, SwitchEffectOf(f.switch));
            && Inv(t) && SameLedger(s, t)
            && (SwitchEffectOf(f.switch) == Reloaded ==> t.loaded == Some(target) && LiveTag(t) == Some(job.tag))
            && (SwitchEffectOf(f.switch) != Reloaded ==> SameRouting(s, t))
  {
    StartKeeps(s, target, job.tag, job.broken, Booted);
    G.PassMeansServing(Some(G.App(job.tag, job.broken)), job.tag, job.retries, f.envs);
    SwitchAlsoKeeps(s, StartStep(s, target, job.tag, job.broken, Booted), target, job.tag, SwitchEffectOf(f.switch));
  }

  lemma SwitchAlsoKeeps(s: Site, s1: Site, c: Color, tag: Tag, e: SwitchEffect)
    requires Inv(s1) && SameRouting(s, s1) && SameLedger(s, s1) && e != Torn && tag != ""
    requires AppIn(s1, c) == Some(G.App(tag, false))
    ensures var t := SwitchStep(CertifyStep(s1, c, tag), c, e);
            && Inv(t) && SameLedger(s, t)
            && (e == Reloaded ==> t.loaded == Some(c) && LiveTag(t) == Some(tag))
            && (e != Reloaded ==> SameRouting(s, t))
  {
    SwitchKeeps(s1, c, tag, e);
  }

  /** What a swing from `s` may leave behind: `t`, reported as `r`. */
  ghost predicate SwingOutcome(s: Site, job: Job, f: Faults, t: Site, r: SwingResult) {
    && Inv(t) && SameLedger(s, t)
    && (if ReachesReload(s, job, f)
        then t.loaded == Some(Inactive(s.file)) && LiveTag(t) == Some(job.tag) && !r.Rejected?
        else SameRouting(s, t) && !r.Promoted?)
    && (r.Rejected? ==> r.stillLive == s.loaded)
    && (r.Promoted? ==> r.target == Inactive(s.file) && job.tag != "")
    && (r.Promoted? <==> ReachesReload(s, job, f) && f.switch.SwitchOk? && !(s.file.Some? && f.drain.StopDies?))
  }

  predicate Boots(job: Job, f: Faults) {
    !f.activeLost && !f.inactiveLost && job.tag != "" && f.start.StartOk?
  }

  lemma SwingStopsEarly(s: Site, job: Job, f: Faults)
    requires Inv(s) && !Boots(job, f)
    ensures var (t, r) := Swing(s, job, f); SwingOutcome(s, job, f, t, r)
  {
    var start := if job.tag == "" then StartDies(Nothing) else f.start;
    StartKeeps(s, Inactive(s.file), job.tag, job.broken, StartEffectOf(start));
  }

  lemma SwingRejects(s: Site, job: Job, f: Faults)
    requires Inv(s) && Boots(job, f)
    requires f.gateLost || !G.Passes(Some(G.App(job.tag, job.broken)), job.tag, job.retries, f.envs)
    ensures var (t, r) := Swing(s, job, f); SwingOutcome(s, job, f, t, r)
  {
    var target := Inactive(s.file);
    assert AppIn(StartStep(s, target, job.tag, job.broken, Booted), target) == Some(G.App(job.tag, job.broken));
    RejectKeeps(s, job, f.teardown.effect, target);
  }

  lemma SwingSwitches(s: Site, job: Job, f: Faults)
    requires Inv(s) && Boots(job, f) && NotTorn(f)
    requires !f.gateLost && G.Passes(Some(G.App(job.tag, job.broken)), job.tag, job.retries, f.envs)
    ensures var (t, r) := Swing(s, job, f); SwingOutcome(s, job, f, t, r)
  {
    var target := Inactive(s.file);
    var s1 := StartStep(s, target, job.tag, job.broken, Booted);
    assert AppIn(s1, target) == Some(G.App(job.tag, job.broken));
    PromoteKeeps(s, job, f, target);
    var s2 := SwitchStep(CertifyStep(s1, target, job.tag), target, SwitchEffectOf(f.switch));
    if !f.switch.SwitchDies? && s.file.Some? {
      StopKeeps(s2, s.file.value, job.grace, f.drain.effect);
    }
  }

  lemma SwingKeeps(s: Site, job: Job, f: Faults)
    requires Inv(s) && NotTorn(f)
    ensures var (t, r) := Swing(s, job, f); SwingOutcome(s, job, f, t, r)
  {
    if !Boots(job, f) {
      SwingStopsEarly(s, job, f);
    } else if f.gateLost || !G.Passes(Some(G.App(job.tag, job.broken)), job.tag, job.retries, f.envs) {
      SwingRejects(s, job, f);
    } else {
      SwingSwitches(s, job, f);
    }
  }

  lemma LedgerStepsKeep(s: Site, e: Entry, lf: LedgerFaults)
    requires Inv(s) && (e.status == Success ==> s.lastGood.Some?)
    ensures Inv(AppendHistory(s, e, lf).0)
  {
    assert (s.appends + [e])[..|s.appends|] == s.appends;
  }

  lemma {:induction false} RetryKeeps(s: Site, g: LastGood, puts: seq<PutRun>, i: nat)
    requires Inv(s) && g.tag != "" && 1 <= i <= 4
    ensures var (t, ok) := RetryLastGood(s, g, puts, i);
            && Inv(t)
            && t == s.(lastGood := t.lastGood)
            && (t.lastGood == s.lastGood || t.lastGood == Some(g))
            && (ok ==> t.lastGood == Some(g))
            && (ok <==> exists k: nat :: i - 1 <= k < 3 && PutAt(puts, k) == PutOk)
            && ((forall k: nat :: i - 1 <= k < 3 ==> PutAt(puts, k) == PutFails) ==> t.lastGood == s.lastGood)
    decreases 4 - i
  {
    if i < 4 {
      var t := LastGoodStep(s, g, PutAt(puts, i - 1));
      LastGoodKeeps(s, g, PutAt(puts, i - 1));
      if PutAt(puts, i - 1) != PutOk { RetryKeeps(t, g, puts, i + 1); }
    }
  }

  lemma LastGoodKeeps(s: Site, g: LastGood, p: PutRun)
    requires Inv(s) && g.tag != ""
    ensures Inv(LastGoodStep(s, g, p))
  {
  }

  lemma DeployKeeps(s: Site, ports: N.Ports, job: Job, f: Faults, lf: LedgerFaults)
    requires Inv(s) && NotTorn(f)
    ensures Inv(Deploy(s, ports, job, f, lf).0)
  {
    SwingKeeps(s, job, f);
    var (s1, r) := Swing(s, job, f);
    match r {
      case Aborted =>
      case Rejected(live) => LedgerStepsKeep(s1, Entry(job.tag, Failure, live), lf);
      case Promoted(_, target) =>
        var g := LastGood(job.tag, target, N.PortFor(ports, target));
        RetryKeeps(s1, g, lf.lastGoodPuts, 1);
        LedgerStepsKeep2(RetryLastGood(s1, g, lf.lastGoodPuts, 1), Entry(job.tag, Success, Some(target)), lf);
    }
  }

  lemma LedgerStepsKeep2(written: (Site, bool), e: Entry, lf: LedgerFaults)
    requires Inv(written.0) && (written.1 ==> written.0.lastGood.Some?)
    ensures written.1 ==> Inv(AppendHistory(written.0, e, lf).0)
  {
    if written.1 { LedgerStepsKeep(written.0, e, lf); }
  }

  lemma RollbackKeeps(s: Site, ports: N.Ports, named: Tag, retries: int, grace: nat,
                      f: Faults, lf: LedgerFaults, rf: ReadFaults)
    requires Inv(s) && NotTorn(f)
    ensures Inv(Rollback(s, ports, named, retries, grace, f, lf, rf).0)
  {
    match ChooseTarget(s, named, rf) {
      case Halt(_) =>
      case Go(tag) =>
        var job := Job(tag, false, retries, grace);
        SwingKeeps(s, job, f);
        var (s1, r) := Swing(s, job, f);
        match r {
          case Aborted =>
          case Rejected(live) => LedgerStepsKeep(s1, Entry(tag, Failure, live), lf);
          case Promoted(_, target) =>
            var g := LastGood(tag, target, N.PortFor(ports, target));
            var p := PutAt(lf.lastGoodPuts, 0);
            LastGoodKeeps(s1, g, p);
            LedgerStepsKeep2((LastGoodStep(s1, g, p), p == PutOk), Entry(tag, Success, Some(target)), lf);
        }
    }
  }

  /** Over every sequence of runs, each stopping anywhere: at run boundaries the config file and the
      loaded config agree and the live slot holds a container that passed the gate for its own tag; no
      start or stop command ever named the slot nginx was routing to, and nginx was only ever pointed at
      a running container. */
  lemma {:induction false} EveryRunIsSafe(ports: N.Ports, ops: seq<Op>)
    requires forall i :: 0 <= i < |ops| ==> NotTorn(ops[i].f)
    ensures var s := Run(EMPTY_SITE, ports, ops);
            && Inv(s)
            && forall i :: 0 <= i < |s.log| ==> Allowed(Tracked(s.log[..i]), s.log[i])
  {
    if ops != [] {
      var init, last := ops[..|ops| - 1], ops[|ops| - 1];
      EveryRunIsSafe(ports, init);
      var s := Run(EMPTY_SITE, ports, init);
      match last {
        case DeployOp(job, f, lf) => DeployKeeps(s, ports, job, f, lf);
        case RollbackOp(named, retries, grace, f, lf, rf) => RollbackKeeps(s, ports, named, retries, grace, f, lf, rf);
      }
    }
    var s := Run(EMPTY_SITE, ports, ops);
    forall i | 0 <= i < |s.log| ensures Allowed(Tracked(s.log[..i]), s.log[i]) { SafeAtEveryCommand(s.log, i); }
  }
}
