/** The blue-green release protocol: what one run of deploy.py or rollback.py does to the instance and to
    the S3 ledger, for every outcome of every remote and S3 call.

    `Site` is the state as a value and the functions on it are the specification; class `Host` holds the
    same state in fields and performs the steps in place, as the scripts do. */
module Release {
  import opened Basics
  import opened Ledger
  import G = Gate
  import N = NginxConf

  // ---- state ----------------------------------------------------------------------------------

  /** A container in a slot. `id` tells apart successive containers of one slot. */
  datatype Container = Container(id: nat, version: Tag, broken: bool, running: bool)

  /** How far `start_container.sh` got: nothing done (arguments or pull failed), stale container removed,
      new one created but not running, new one running. */
  datatype StartEffect = Nothing | Cleared | Created | Booted

  /** How far `switch_traffic.sh` got: before the install, between install and reload, invalid config put
      back, or reloaded. */
  datatype SwitchEffect = Unreached | Torn | Restored | Reloaded

  /** What `docker stop` and `docker rm` left behind. */
  datatype StopEffect = LeftRunning | Halted | Removed

  datatype Event =
    | Start(slot: Color, start: StartEffect)
    | Reload(slot: Color)
    | Stop(slot: Color, grace: nat, stop: StopEffect)

  /** `file` and `loaded` are the colours of the nginx config on disk and of the one nginx runs.
      `certified` maps a container to the tag it passed the gate for, `log` lists the commands that
      touched slots or routing, `appends` every history append: all three only record. */
  datatype Site = Site(
    slots: map<Color, Container>,
    file: Option<Color>,
    loaded: Option<Color>,
    history: seq<Entry>,
    lastGood: Option<LastGood>,
    issued: nat,
    certified: map<nat, Tag>,
    log: seq<Event>,
    appends: seq<Entry>)

  function AppIn(s: Site, c: Color): Option<G.App> {
    if c in s.slots && s.slots[c].running then Some(G.App(s.slots[c].version, s.slots[c].broken)) else None
  }

  // ---- outcomes of the calls --------------------------------------------------------------------

  datatype StartRun = StartOk | StartDies(at: StartEffect)
  datatype SwitchRun = SwitchOk | SwitchDies(at: SwitchEffect)
  /** `stop_container.sh` only warns when docker fails, so it may report success after any effect. */
  datatype StopRun = StopReports(effect: StopEffect) | StopDies(effect: StopEffect)
  /** An S3 put that succeeds, that raises without effect, or that raises after it took effect. */
  datatype PutRun = PutOk | PutFails | PutLost

  /** One outcome per SSH call, in program order; `…Lost` means that the call fails. */
  datatype Faults = Faults(
    activeLost: bool, inactiveLost: bool, start: StartRun,
    gateLost: bool, envs: seq<G.ProbeEnv>,
    teardown: StopRun, stillLost: bool,
    switch: SwitchRun, drain: StopRun)

  /** Outcomes of the ledger calls that follow; `lastGoodPuts` has one element per attempt. */
  datatype LedgerFaults = LedgerFaults(lastGoodPuts: seq<PutRun>, historyLost: bool, historyPut: PutRun)

  /** Outcomes of the reads rollback.py makes first; `reports` is whether the public `/health` answers 200. */
  datatype ReadFaults = ReadFaults(reports: bool, lastGoodLost: bool, againHistoryLost: bool, againLastGoodLost: bool)

  function StartEffectOf(r: StartRun): StartEffect { if r.StartOk? then Booted else r.at }
  function SwitchEffectOf(r: SwitchRun): SwitchEffect { if r.SwitchOk? then Reloaded else r.at }
  function PutAt(puts: seq<PutRun>, i: nat): PutRun { if i < |puts| then puts[i] else PutOk }

  // ---- the steps as functions -------------------------------------------------------------------

  function StartStep(s: Site, c: Color, tag: Tag, broken: bool, e: StartEffect): Site {
    var t := s.(log := s.log + [Start(c, e)]);
    match e
    case Nothing => t
    case Cleared => t.(slots := t.slots - {c})
    case Created => t.(slots := (t.slots - {c})[c := Container(t.issued, tag, broken, false)], issued := t.issued + 1)
    case Booted => t.(slots := (t.slots - {c})[c := Container(t.issued, tag, broken, true)], issued := t.issued + 1)
  }

  function CertifyStep(s: Site, c: Color, tag: Tag): Site {
    if c in s.slots then s.(certified := s.certified[s.slots[c].id := tag]) else s
  }

  function SwitchStep(s: Site, c: Color, e: SwitchEffect): Site {
    match e
    case Unreached => s
    case Torn => s.(file := Some(c))
    case Restored =>
      if s.file.None? then s else s.(loaded := s.file, log := s.log + [Reload(s.file.value)])
    case Reloaded => s.(file := Some(c), loaded := Some(c), log := s.log + [Reload(c)])
  }

  function StopStep(s: Site, c: Color, grace: nat, e: StopEffect): Site {
    var t := s.(log := s.log + [Stop(c, grace, e)]);
    if c !in t.slots then t
    else
      match e
      case LeftRunning => t
      case Halted => t.(slots := t.slots[c := t.slots[c].(running := false)])
      case Removed => t.(slots := t.slots - {c})
  }

  function HistoryStep(s: Site, e: Entry, p: PutRun): Site {
    if p == PutFails then s else s.(history := Appended(s.history, e), appends := s.appends + [e])
  }

  function LastGoodStep(s: Site, g: LastGood, p: PutRun): Site {
    if p == PutFails then s else s.(lastGood := Some(g))
  }

  /** `append_history`: true when an exception escapes. */
  function AppendHistory(s: Site, e: Entry, lf: LedgerFaults): (Site, bool) {
    if lf.historyLost then (s, true) else (HistoryStep(s, e, lf.historyPut), lf.historyPut != PutOk)
  }

  /** The three attempts of deploy.py:157-166, from attempt `i`: true when one of them succeeded. */
  function RetryLastGood(s: Site, g: LastGood, puts: seq<PutRun>, i: nat): (Site, bool)
    requires 1 <= i <= 4
    decreases 4 - i
  {
    if i == 4 then (s, false)
    else
      var p := PutAt(puts, i - 1);
      var t := LastGoodStep(s, g, p);
      if p == PutOk then (t, true) else RetryLastGood(t, g, puts, i + 1)
  }

  // ---- the two programs -------------------------------------------------------------------------

  datatype SwingResult = Aborted | Rejected(stillLive: Option<Color>) | Promoted(previous: Option<Color>, target: Color)

  /** Parameters of one release: the tag, the drill flag, the gate's retry budget, the drain grace. */
  datatype Job = Job(tag: Tag, broken: bool, retries: int, grace: nat)

  /** The remote calls deploy.py:79-148 and rollback.py:141-178 make, in order. An empty tag dies in
      `start_container.sh` before it does anything. */
  ghost function Swing(s: Site, job: Job, f: Faults): (Site, SwingResult) {
    if f.activeLost || f.inactiveLost then (s, Aborted)
    else
      var current, target := s.file, Inactive(s.file);
      var start := if job.tag == "" then StartDies(Nothing) else f.start;
      var s1 := StartStep(s, target, job.tag, job.broken, StartEffectOf(start));
      if start.StartDies? then (s1, Aborted)
      else if f.gateLost || !G.Passes(AppIn(s1, target), job.tag, job.retries, f.envs) then
        var s2 := StopStep(s1, target, 1, f.teardown.effect);
        if f.teardown.StopDies? || f.stillLost then (s2, Aborted) else (s2, Rejected(s2.file))
      else
        var s2 := SwitchStep(CertifyStep(s1, target, job.tag), target, SwitchEffectOf(f.switch));
        if f.switch.SwitchDies? then (s2, Aborted)
        else if current.None? || current == Some(target) then (s2, Promoted(current, target))
        else
          var s3 := StopStep(s2, current.value, job.grace, f.drain.effect);
          if f.drain.StopDies? then (s3, Aborted) else (s3, Promoted(current, target))
  }

  /** How a run ends. `Uncaught` is a Python exception, which the interpreter also reports as exit 1. */
  datatype Exit = Completed | RolledBack | LedgerStale | Precondition | Uncaught

  function ExitCode(e: Exit): int {
    match e
    case Completed => 0
    case RolledBack => 1
    case LedgerStale => 2
    case Precondition => 3
    case Uncaught => 1
  }

  /** deploy.py `main`. */
  ghost function Deploy(s: Site, ports: N.Ports, job: Job, f: Faults, lf: LedgerFaults): (Site, Exit) {
    var (s1, r) := Swing(s, job, f);
    match r
    case Aborted => (s1, Precondition)
    case Rejected(live) =>
      var (s2, raised) := AppendHistory(s1, Entry(job.tag, Failure, live), lf);
      (s2, if raised then Uncaught else RolledBack)
    case Promoted(_, target) =>
      var (s2, written) := RetryLastGood(s1, LastGood(job.tag, target, N.PortFor(ports, target)), lf.lastGoodPuts, 1);
      if !written then (s2, LedgerStale)
      else
        var (s3, raised) := AppendHistory(s2, Entry(job.tag, Success, Some(target)), lf);
        (s3, if raised then Uncaught else Completed)
  }

  /** What the public endpoint reports; "" when it does not answer 200. */
  function LiveVersion(s: Site, reports: bool): Tag {
    if reports && s.loaded.Some? && AppIn(s, s.loaded.value).Some? then AppIn(s, s.loaded.value).value.version else ""
  }

  function RecordedTag(s: Site): Tag { if s.lastGood.Some? then s.lastGood.value.tag else "" }

  datatype Choice = Halt(exit: Exit) | Go(tag: Tag)

  /** rollback.py:121-137: the staleness guard and the choice of target; `named` is `--tag` ("" if absent). */
  function ChooseTarget(s: Site, named: Tag, rf: ReadFaults): Choice {
    var live := LiveVersion(s, rf.reports);
    var recorded := RecordedTag(s);
    if rf.lastGoodLost then Halt(Uncaught)
    else if live != "" && recorded != "" && live != recorded && named == "" then Halt(Precondition)
    else if named != "" then Go(named)
    else if rf.againHistoryLost || rf.againLastGoodLost then Halt(Uncaught)
    else
      match PreviousGood(s.history, recorded)
      case None => Halt(Precondition)
      case Some(t) => Go(t)
  }

  /** rollback.py `main`. */
  ghost function Rollback(s: Site, ports: N.Ports, named: Tag, retries: int, grace: nat,
                          f: Faults, lf: LedgerFaults, rf: ReadFaults): (Site, Exit) {
    match ChooseTarget(s, named, rf)
    case Halt(e) => (s, e)
    case Go(tag) =>
      var (s1, r) := Swing(s, Job(tag, false, retries, grace), f);
      match r
      case Aborted => (s1, Precondition)
      case Rejected(live) =>
        var (s2, raised) := AppendHistory(s1, Entry(tag, Failure, live), lf);
        (s2, if raised then Uncaught else Precondition)
      case Promoted(_, target) =>
        var p := PutAt(lf.lastGoodPuts, 0);
        var s2 := LastGoodStep(s1, LastGood(tag, target, N.PortFor(ports, target)), p);
        if p != PutOk then (s2, Uncaught)
        else
          var (s3, raised) := AppendHistory(s2, Entry(tag, Success, Some(target)), lf);
          (s3, if raised then Uncaught else Completed)
  }

  // ---- the same steps in place ------------------------------------------------------------------

  /** The instance and the ledger bucket. `confFile` and `confLoaded` are nginx configuration texts. */
  class Host {
    const template: string
    const ports: N.Ports
    var slots: map<Color, Container>
    var confFile: Option<string>
    var confLoaded: Option<string>
    var history: seq<Entry>
    var lastGood: Option<LastGood>
    ghost var certified: map<nat, Tag>
    ghost var log: seq<Event>
    ghost var appends: seq<Entry>
    var nextId: nat

    /** The template is usable and every installed file was rendered from it or names a colour. */
    ghost predicate Valid()
      reads this
    {
      && N.GoodTemplate(template, ports)
      && (confFile.Some? ==> N.ActiveColor(confFile, ports).Some?)
    }

    ghost function State(): Site
      reads this
    {
      Site(slots, N.ActiveColor(confFile, ports), N.ActiveColor(confLoaded, ports), history, lastGood,
           nextId, certified, log, appends)
    }

    constructor (template: string, ports: N.Ports)
      requires N.GoodTemplate(template, ports)
      ensures Valid() && this.template == template && this.ports == ports
      ensures State() == Site(map[], None, None, [], None, 0, map[], [], [])
    {
      this.template, this.ports := template, ports;
      slots, confFile, confLoaded, history, lastGood := map[], None, None, [], None;
      nextId, certified, log, appends := 0, map[], [], [];
    }

    /** `active_color`: reads the file, not what nginx runs. */
    method ActiveColor() returns (c: Option<Color>)
      ensures c == State().file
    {
      c := N.ActiveColor(confFile, ports);
    }

    /** scripts/start_container.sh, stopped where `e` says. */
    method StartContainer(c: Color, tag: Tag, broken: bool, e: StartEffect)
      requires Valid()
      modifies this
      ensures Valid() && State() == StartStep(old(State()), c, tag, broken, e)
    {
      log := log + [Start(c, e)];
      if e == Nothing { return; }
      slots := slots - {c};
      if e == Cleared { return; }
      slots := slots[c := Container(nextId, tag, broken, e == Booted)];
      nextId := nextId + 1;
    }

    /** scripts/healthcheck.sh against a slot's port. */
    method Gate(c: Color, tag: Tag, retries: int, interval: nat, envs: seq<G.ProbeEnv>, lost: bool)
      returns (healthy: bool)
      requires Valid()
      modifies this`certified
      ensures Valid()
      ensures healthy <==> !lost && G.Passes(AppIn(old(State()), c), tag, retries, envs)
      ensures State() == if healthy then CertifyStep(old(State()), c, tag) else old(State())
    {
      var app := if c in slots && slots[c].running then Some(G.App(slots[c].version, slots[c].broken)) else None;
      var passed, _, _, _ := G.HealthCheck(app, tag, retries, interval, envs);
      healthy := passed && !lost;
      if healthy && c in slots { certified := certified[slots[c].id := tag]; }
    }

    /** scripts/switch_traffic.sh, stopped where `e` says. */
    method SwitchTraffic(c: Color, e: SwitchEffect)
      requires Valid()
      modifies this
      ensures Valid() && State() == SwitchStep(old(State()), c, e)
    {
      if e == Unreached { return; }
      var backup := confFile;
      N.RenderRoundTrip(template, ports, c);
      confFile := Some(N.Render(template, ports, c));
      if e == Torn { return; }
      if e == Restored {
        confFile := backup;
        if backup.Some? {
          confLoaded := confFile;
          log := log + [Reload(N.ActiveColor(confFile, ports).value)];
        }
        return;
      }
      confLoaded := confFile;
      log := log + [Reload(c)];
    }

    /** scripts/stop_container.sh. */
    method StopContainer(c: Color, grace: nat, e: StopEffect)
      requires Valid()
      modifies this
      ensures Valid() && State() == StopStep(old(State()), c, grace, e)
    {
      log := log + [Stop(c, grace, e)];
      if c !in slots || e == LeftRunning { return; }
      slots := slots[c := slots[c].(running := false)];
      if e == Removed {
        slots := slots - {c};
        assert slots == old(slots) - {c};
      }
    }

    method PutLastGood(g: LastGood, p: PutRun) returns (raised: bool)
      requires Valid()
      modifies this`lastGood
      ensures Valid() && State() == LastGoodStep(old(State()), g, p) && raised == (p != PutOk)
    {
      if p != PutFails { lastGood := Some(g); }
      raised := p != PutOk;
    }

    /** `append_history`: read, append, keep the newest 200, write. */
    method RecordAttempt(e: Entry, lf: LedgerFaults) returns (raised: bool)
      requires Valid()
      modifies this`history, this`appends
      ensures Valid() && (State(), raised) == AppendHistory(old(State()), e, lf)
    {
      if lf.historyLost { return true; }
      var read := history + [e];
      if lf.historyPut != PutFails {
        history := if |read| <= MAX_HISTORY_ENTRIES then read else read[|read| - MAX_HISTORY_ENTRIES..];
        appends := appends + [e];
      }
      raised := lf.historyPut != PutOk;
    }

    /** The remote part that deploy.py and rollback.py share. */
    method RunSwing(job: Job, interval: nat, f: Faults) returns (r: SwingResult)
      requires Valid()
      modifies this
      ensures Valid() && (State(), r) == Swing(old(State()), job, f)
    {
      if f.activeLost { return Aborted; }
      var current := ActiveColor();
      if f.inactiveLost { return Aborted; }
      var again := ActiveColor();
      var target := Inactive(again);
      var start := if job.tag == "" then StartDies(Nothing) else f.start;
      StartContainer(target, job.tag, job.broken, StartEffectOf(start));
      if start.StartDies? { return Aborted; }
      var healthy := Gate(target, job.tag, job.retries, interval, f.envs, f.gateLost);
      if !healthy {
        StopContainer(target, 1, f.teardown.effect);
        if f.teardown.StopDies? || f.stillLost { return Aborted; }
        var still := ActiveColor();
        return Rejected(still);
      }
      SwitchTraffic(target, SwitchEffectOf(f.switch));
      if f.switch.SwitchDies? { return Aborted; }
      if current.Some? && current != Some(target) {
        StopContainer(current.value, job.grace, f.drain.effect);
        if f.drain.StopDies? { return Aborted; }
      }
      return Promoted(current, target);
    }

    /** deploy.py `main`, with its loop over ledger attempts. */
    method RunDeploy(job: Job, interval: nat, f: Faults, lf: LedgerFaults) returns (e: Exit)
      requires Valid()
      modifies this
      ensures Valid() && (State(), e) == Deploy(old(State()), ports, job, f, lf)
    {
      var r := RunSwing(job, interval, f);
      match r
      case Aborted => return Precondition;
      case Rejected(live) =>
        var raised := RecordAttempt(Entry(job.tag, Failure, live), lf);
        return if raised then Uncaught else RolledBack;
      case Promoted(_, target) =>
        var good := LastGood(job.tag, target, N.PortFor(ports, target));
        var attempt, failing := 1, true;
        ghost var swung := State();
        while attempt <= 3 && failing
          decreases 4 - attempt, failing
          invariant 1 <= attempt <= 4 && Valid()
          invariant failing ==> RetryLastGood(State(), good, lf.lastGoodPuts, attempt) == RetryLastGood(swung, good, lf.lastGoodPuts, 1)
          invariant !failing ==> (State(), true) == RetryLastGood(swung, good, lf.lastGoodPuts, 1)
        {
          failing := PutLastGood(good, PutAt(lf.lastGoodPuts, attempt - 1));
          if failing { attempt := attempt + 1; }
        }
        if failing { return LedgerStale; }
        var raised := RecordAttempt(Entry(job.tag, Success, Some(target)), lf);
        return if raised then Uncaught else Completed;
    }

    /** rollback.py:121-137. */
    method Choose(named: Tag, rf: ReadFaults) returns (choice: Choice)
      requires Valid()
      ensures choice == ChooseTarget(State(), named, rf)
    {
      var live := "";
      var routed := N.ActiveColor(confLoaded, ports);
      if rf.reports && routed.Some? && routed.value in slots && slots[routed.value].running {
        live := slots[routed.value].version;
      }
      if rf.lastGoodLost { return Halt(Uncaught); }
      var recorded := if lastGood.Some? then lastGood.value.tag else "";
      if live != "" && recorded != "" && live != recorded && named == "" { return Halt(Precondition); }
      if named != "" { return Go(named); }
      if rf.againHistoryLost || rf.againLastGoodLost { return Halt(Uncaught); }
      var previous := PreviousGood(history, recorded);
      return if previous.None? then Halt(Precondition) else Go(previous.value);
    }

    /** rollback.py `main`; `named` is `--tag`, "" when absent. */
    method RunRollback(named: Tag, retries: int, grace: nat, interval: nat, f: Faults, lf: LedgerFaults, rf: ReadFaults)
      returns (e: Exit)
      requires Valid()
      modifies this
      ensures Valid() && (State(), e) == Rollback(old(State()), ports, named, retries, grace, f, lf, rf)
    {
      var choice := Choose(named, rf);
      if choice.Halt? { return choice.exit; }
      var tag := choice.tag;
      var r := RunSwing(Job(tag, false, retries, grace), interval, f);
      match r
      case Aborted => return Precondition;
      case Rejected(still) =>
        var raised := RecordAttempt(Entry(tag, Failure, still), lf);
        return if raised then Uncaught else Precondition;
      case Promoted(_, target) =>
        var raised := PutLastGood(LastGood(tag, target, N.PortFor(ports, target)), PutAt(lf.lastGoodPuts, 0));
        if raised { return Uncaught; }
        raised := RecordAttempt(Entry(tag, Success, Some(target)), lf);
        return if raised then Uncaught else Completed;
    }
  }
}
