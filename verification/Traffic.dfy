/** Requests in flight while releases run: arrivals, service, the graceful reload and `docker stop -t`,
    interleaved in every way with the commands of a release log. */
module Traffic {
  import opened Basics
  import opened Release
  import opened ReleaseSafety

  /** A request held by the container of `slot`, which answers it when the clock reaches `finish`. */
  datatype Request = Request(slot: Color, finish: nat)

  /** `Refused`: routed to a container that does not accept. `CutOff`: still unanswered when the grace
      period ended. `Killed`: its container was removed by `docker rm -f`. */
  datatype Fate = Answered | Refused | CutOff(stopped: nat, grace: nat, finish: nat) | Killed

  /** A `docker stop` in progress. */
  datatype Drain = Drain(slot: Color, stopped: nat, grace: nat)

  /** `track` is what the commands issued so far amount to; a slot accepts while it is up. */
  datatype Net = Net(clock: nat, track: Track, draining: Option<Drain>, inflight: map<nat, Request>, fates: map<nat, Fate>)

  datatype Step = Arrive(id: nat, service: nat) | Tick | Command(e: Event) | DrainDone

  const INITIAL_NET := Net(0, Track(None, false, false, true), None, map[], map[])

  function InSlot(n: Net, c: Color): set<nat> { set id | id in n.inflight && n.inflight[id].slot == c }

  function Due(n: Net): set<nat> { set id | id in n.inflight && n.inflight[id].finish <= n.clock }

  /** The pipeline waits for `stop_container.sh`, so commands are issued only when nothing drains. A drain
      ends when the slot is idle or the grace is over. */
  predicate Enabled(n: Net, a: Step) {
    match a
    case Arrive(id, service) => service >= 1 && id !in n.inflight && id !in n.fates
    case Tick => true
    case Command(_) => n.draining.None?
    case DrainDone =>
      n.draining.Some? && var d := n.draining.value; InSlot(n, d.slot) == {} || n.clock >= d.stopped + d.grace
  }

  function Ended(n: Net, ids: set<nat>, fate: nat --> Fate): Net
    requires forall id :: id in ids ==> fate.requires(id)
  {
    n.(inflight := n.inflight - ids, fates := n.fates + map id | id in ids :: fate(id))
  }

  function After(n: Net, a: Step): Net
    requires Enabled(n, a)
  {
    match a
    case Arrive(id, service) =>
      if n.track.routed.None? then n
      else
        var c := n.track.routed.value;
        if Up(n.track, c) then n.(inflight := n.inflight[id := Request(c, n.clock + service)])
        else n.(fates := n.fates[id := Refused])
    case Tick =>
      var t := n.(clock := n.clock + 1);
      Ended(t, Due(t), _ => Answered)
    case Command(e) =>
      var t := n.(track := Follow(n.track, e));
      if e.Start? && e.start != Nothing then Ended(t, InSlot(t, e.slot), _ => Killed)
      else if e.Stop? && e.stop != LeftRunning then t.(draining := Some(Drain(e.slot, n.clock, e.grace)))
      else t
    case DrainDone =>
      var d := n.draining.value;
      Ended(n.(draining := None), InSlot(n, d.slot),
            id requires id in n.inflight => CutOff(d.stopped, d.grace, n.inflight[id].finish))
  }

  /** The state after an interleaving from the start; None when some step was not enabled. */
  function Play(steps: seq<Step>): Option<Net> {
    if steps == [] then Some(INITIAL_NET)
    else
      var n, a := Play(steps[..|steps| - 1]), steps[|steps| - 1];
      if n.Some? && Enabled(n.value, a) then Some(After(n.value, a)) else None
  }

  /** The release commands of an interleaving. */
  function Commands(steps: seq<Step>): seq<Event> {
    if steps == [] then []
    else
      var a := steps[|steps| - 1];
      Commands(steps[..|steps| - 1]) + if a.Command? then [a.e] else []
  }

  // ---- what every step keeps --------------------------------------------------------------------

  /** The routed slot accepts; unanswered requests are due later and sit where they can still be
      answered; nothing was refused; whatever was cut off needed more than the grace it was given. */
  ghost predicate Sound(n: Net) {
    && (n.track.routed.Some? ==> Up(n.track, n.track.routed.value))
    && (forall id :: id in n.inflight ==>
          && n.inflight[id].finish > n.clock && id !in n.fates
          && (Up(n.track, n.inflight[id].slot) || (n.draining.Some? && n.draining.value.slot == n.inflight[id].slot)))
    && (n.draining.Some? ==> !Up(n.track, n.draining.value.slot) && n.draining.value.stopped <= n.clock)
    && (forall id :: id in n.fates ==> n.fates[id] != Refused)
    && (forall id :: id in n.fates && n.fates[id].CutOff? ==> n.fates[id].finish > n.fates[id].stopped + n.fates[id].grace)
  }

  predicate Safely(n: Net, a: Step) { a.Command? ==> Allowed(n.track, a.e) }

  lemma StepSound(n: Net, a: Step)
    requires Sound(n) && Enabled(n, a) && Safely(n, a)
    ensures Sound(After(n, a))
    ensures After(n, a).track == if a.Command? then Follow(n.track, a.e) else n.track
  {
    match a {
      case Arrive(_, _) =>
      case Tick =>
      case Command(e) => CommandSound(n, e);
      case DrainDone =>
    }
  }

  lemma CommandSound(n: Net, e: Event)
    requires Sound(n) && Enabled(n, Command(e)) && Allowed(n.track, e)
    ensures Sound(After(n, Command(e)))
  {
    var m := After(n, Command(e));
    assert forall id :: id in m.inflight ==> id in n.inflight && m.inflight[id] == n.inflight[id];
    TrackSplits(n.track, e);
    if n.track.routed.Some? && !e.Reload? { assert n.track.routed.value == Other(e.slot); }
  }

  /** A command changes at most the slot it names. */
  lemma TrackSplits(t: Track, e: Event)
    ensures Up(Follow(t, e), Other(e.slot)) == Up(t, Other(e.slot))
    ensures forall c: Color {:trigger Up(t, c)} :: c == e.slot || c == Other(e.slot)
    ensures e.Reload? || (e.Start? && e.start == Nothing) || (e.Stop? && e.stop == LeftRunning) ==> Up(Follow(t, e), e.slot) == Up(t, e.slot)
  {
    match e.slot case Blue => case Green =>
  }

  lemma LastStepTracked(steps: seq<Step>)
    requires steps != []
    ensures var init, a := steps[..|steps| - 1], steps[|steps| - 1];
            Tracked(Commands(steps)) == if a.Command? then Follow(Tracked(Commands(init)), a.e) else Tracked(Commands(init))
  {
    var init, a := steps[..|steps| - 1], steps[|steps| - 1];
    if a.Command? { TrackedGrows(Commands(init), a.e); } else { assert Commands(steps) == Commands(init); }
  }

  lemma {:induction false} PlaySound(steps: seq<Step>)
    requires Play(steps).Some? && Tracked(Commands(steps)).safe
    ensures Sound(Play(steps).value) && Play(steps).value.track == Tracked(Commands(steps))
  {
    if steps != [] {
      var init, a := steps[..|steps| - 1], steps[|steps| - 1];
      LastStepTracked(steps);
      PlaySound(init);
      StepSound(Play(init).value, a);
    }
  }

  // ---- requests a stop finds in flight ----------------------------------------------------------

  /** Request `id` of the drained slot fits into its grace and is not lost. */
  ghost predicate Covered(n: Net, id: nat, d: Drain) {
    || (id in n.fates && n.fates[id] == Answered && id !in n.inflight)
    || (n.draining == Some(d) && id in n.inflight && n.inflight[id].slot == d.slot
        && n.inflight[id].finish <= d.stopped + d.grace)
  }

  lemma StepCovers(n: Net, a: Step, id: nat, d: Drain)
    requires Sound(n) && Enabled(n, a) && Covered(n, id, d)
    ensures Covered(After(n, a), id, d)
  {
    match a {
      case Arrive(_, _) =>
      case Tick =>
      case Command(_) =>
      case DrainDone =>
        assert forall x :: x in n.inflight ==> x in InSlot(n, n.inflight[x].slot);
    }
  }

  /** The drain that the i-th step of an interleaving starts. */
  ghost predicate StartsDrain(steps: seq<Step>, i: nat, d: Drain) {
    && i < |steps| && Play(steps[..i]).Some?
    && steps[i].Command? && steps[i].e.Stop? && steps[i].e.stop != LeftRunning
    && d == Drain(steps[i].e.slot, Play(steps[..i]).value.clock, steps[i].e.grace)
  }

  /** A request that a stop finds in its slot and that fits into the grace stays covered from then on. */
  lemma {:induction false} PlayCovers(steps: seq<Step>, i: nat, id: nat, d: Drain)
    requires Play(steps).Some? && Tracked(Commands(steps)).safe && StartsDrain(steps, i, d)
    requires Fits(Play(steps[..i]).value, id, d)
    ensures Covered(Play(steps).value, id, d)
    decreases |steps|, 1
  {
    if i == |steps| - 1 {
      StopCovers(Play(steps[..i]).value, steps[i].e, id, d);
    } else {
      PlayCoversNext(steps, i, id, d);
    }
  }

  lemma {:induction false} PlayCoversNext(steps: seq<Step>, i: nat, id: nat, d: Drain)
    requires Play(steps).Some? && Tracked(Commands(steps)).safe && StartsDrain(steps, i, d)
    requires Fits(Play(steps[..i]).value, id, d) && i < |steps| - 1
    ensures Covered(Play(steps).value, id, d)
    decreases |steps|, 0
  {
    var init := steps[..|steps| - 1];
    assert init[..i] == steps[..i];
    LastStepTracked(steps);
    PlayCovers(init, i, id, d);
    PlaySound(init);
    StepCovers(Play(init).value, steps[|steps| - 1], id, d);
  }

  /** Request `id` is in flight in the drained slot and will be answered within the grace. */
  predicate Fits(n: Net, id: nat, d: Drain) {
    id in n.inflight && n.inflight[id].slot == d.slot && n.inflight[id].finish <= d.stopped + d.grace
  }

  lemma StopCovers(n: Net, e: Event, id: nat, d: Drain)
    requires e.Stop? && e.stop != LeftRunning && d == Drain(e.slot, n.clock, e.grace)
    requires Enabled(n, Command(e)) && Fits(n, id, d)
    ensures Covered(After(n, Command(e)), id, d)
  {}

  /** `docker rm -f` in `start_container.sh` kills whatever the slot's container still holds. */
  lemma StartKills(n: Net, c: Color, e: StartEffect, id: nat)
    requires Enabled(n, Command(Start(c, e))) && e != Nothing
    requires id in n.inflight && n.inflight[id].slot == c
    ensures var m := After(n, Command(Start(c, e))); id in m.fates && m.fates[id] == Killed
  {
    assert id in InSlot(n, c);
  }

  // ---- every request is accounted for -------------------------------------------------------------

  /** Request `id`, due at `due`, is in flight in `slot` until then, and after that has a fate: it is answered no
      earlier than it is due, and its need is remembered when it is cut off. */
  ghost predicate Accounted(n: Net, id: nat, slot: Color, due: nat) {
    if id in n.inflight then id !in n.fates && n.inflight[id] == Request(slot, due) && n.clock < due
    else id in n.fates && match n.fates[id]
         case Answered => n.clock >= due
         case CutOff(_, _, finish) => finish == due
         case _ => true
  }

  /** The i-th step of an interleaving is a request, and the routed slot accepts it. */
  predicate Admitted(steps: seq<Step>, i: nat) {
    && i < |steps| && steps[i].Arrive? && Play(steps[..i]).Some?
    && var n := Play(steps[..i]).value; n.track.routed.Some? && Up(n.track, n.track.routed.value)
  }

  lemma StepAccounts(n: Net, a: Step, id: nat, slot: Color, due: nat)
    requires Enabled(n, a) && Accounted(n, id, slot, due)
    ensures Accounted(After(n, a), id, slot, due)
  {
    match a
    case Arrive(_, _) =>
    case Tick =>
    case Command(_) =>
    case DrainDone =>
  }

  /** A request that finds the routed slot accepting is held there, and no interleaving loses it: it is in
      flight for the seconds it needs, and after them it was answered, cut off or killed. */
  lemma {:induction false} NoRequestIsLost(steps: seq<Step>, i: nat)
    requires Play(steps).Some? && Admitted(steps, i)
    ensures var n, m := Play(steps[..i]).value, Play(steps).value;
      Accounted(m, steps[i].id, n.track.routed.value, n.clock + steps[i].service)
  {
    var init := steps[..|steps| - 1];
    if i < |init| {
      assert init[..i] == steps[..i];
      NoRequestIsLost(init, i);
      var n := Play(steps[..i]).value;
      StepAccounts(Play(init).value, steps[|init|], steps[i].id, n.track.routed.value, n.clock + steps[i].service);
    }
  }
}
