/** The downtime measurement: one pass over the probes, its outage and switch detection, and the
    percentiles of the latencies (deploy/measure_downtime.py:65-145). Times are exact. */
module Downtime {
  import opened Basics

  /** `elapsed` is the rounded offset from the start of the run; `servedBy` is "?" without the header. */
  datatype Probe = Probe(start: real, elapsed: real, ok: bool, latency: real, servedBy: string)

  const UNKNOWN := "?"
  const WINDOW: real := 10.0

  // ---- the whole log ------------------------------------------------------------------------------

  function Failures(log: seq<Probe>): (r: seq<real>)
    ensures |r| <= |log|
  {
    if log == [] then []
    else
      var last := log[|log| - 1];
      Failures(log[..|log| - 1]) + (if last.ok then [] else [last.elapsed])
  }

  function Latencies(log: seq<Probe>): seq<real> {
    if log == [] then []
    else
      var last := log[|log| - 1];
      Latencies(log[..|log| - 1]) + (if last.ok then [last.latency] else [])
  }

  /** Who served the successes, in order. */
  function Served(log: seq<Probe>): seq<string> {
    if log == [] then []
    else
      var last := log[|log| - 1];
      Served(log[..|log| - 1]) + (if last.ok then [last.servedBy] else [])
  }

  /** Probes `i` to `j` (exclusive) are a maximal block of failures. */
  ghost predicate Outage(log: seq<Probe>, i: int, j: int) {
    && 0 <= i < j <= |log|
    && (forall k :: i <= k < j ==> !log[k].ok)
    && (i == 0 || log[i - 1].ok)
    && (j == |log| || log[j].ok)
  }

  /** From the first failed probe to the next success, or to the end of the run. */
  function Duration(log: seq<Probe>, end: real, i: int, j: int): real
    requires 0 <= i < j <= |log|
  {
    (if j == |log| then end else log[j].start) - log[i].start
  }

  ghost predicate IsLongestOutage(log: seq<Probe>, end: real, gap: real) {
    && gap >= 0.0
    && (forall i, j :: Outage(log, i, j) ==> Duration(log, end, i, j) <= gap)
    && (gap == 0.0 || exists i, j :: Outage(log, i, j) && Duration(log, end, i, j) == gap)
  }

  /** Probe `k` succeeded, named its server, and the success before it named another one. */
  ghost predicate SwitchSeen(log: seq<Probe>, k: int) {
    && 0 <= k < |log| && log[k].ok && log[k].servedBy != UNKNOWN
    && exists p :: PreviousSuccess(log, p, k) && log[p].servedBy != log[k].servedBy
  }

  ghost predicate PreviousSuccess(log: seq<Probe>, p: int, k: int) {
    0 <= p < k <= |log| && log[p].ok && forall q :: p < q < k ==> !log[q].ok
  }

  /** `at` is the time of the last switch seen. */
  ghost predicate IsLastSwitch(log: seq<Probe>, at: Option<real>) {
    match at
    case None => forall k :: !SwitchSeen(log, k)
    case Some(t) => exists k :: SwitchSeen(log, k) && log[k].elapsed == t && forall m :: k < m ==> !SwitchSeen(log, m)
  }

  // ---- the loop -----------------------------------------------------------------------------------

  datatype Tally = Tally(total: nat, failures: seq<real>, latencies: seq<real>, colors: multiset<string>,
                         switchAt: Option<real>, longestGap: real)

  /** What the report rests on, stated over the whole log. */
  ghost predicate Tallies(log: seq<Probe>, end: real, t: Tally) {
    && t.total == |log|
    && t.failures == Failures(log)
    && t.latencies == Latencies(log)
    && t.colors == multiset(Served(log))
    && IsLastSwitch(log, t.switchAt)
    && IsLongestOutage(log, end, t.longestGap)
  }

  /** What the loop knows of outages after the probes in `done`: blocks that a success closed are in
      `gap`, an open one starts at `open`. */
  ghost predicate GapSoFar(done: seq<Probe>, open: Option<real>, gap: real) {
    && gap >= 0.0
    && (forall i, j :: Outage(done, i, j) && j < |done| ==> done[j].start - done[i].start <= gap)
    && (gap == 0.0 || exists i, j :: Outage(done, i, j) && j < |done| && done[j].start - done[i].start == gap)
    && (open.None? <==> done == [] || done[|done| - 1].ok)
    && (open.Some? ==> exists i :: Outage(done, i, |done|) && done[i].start == open.value)
  }

  function Max(x: real, y: real): real { if x < y then y else x }

  lemma OutageGrows(done: seq<Probe>, p: Probe, i: int, j: int)
    ensures j < |done| ==> (Outage(done + [p], i, j) <==> Outage(done, i, j))
    ensures j == |done| ==> (Outage(done + [p], i, j) <==> Outage(done, i, j) && p.ok)
  {
    var all := done + [p];
    assert forall k :: 0 <= k < |done| ==> all[k] == done[k];
    assert all[|done|] == p;
  }

  /** A failure extends the open block, or opens one. */
  lemma FailureExtends(done: seq<Probe>, p: Probe, i: int)
    requires !p.ok && if i < |done| then Outage(done, i, |done|) else i == |done| && (done == [] || done[|done| - 1].ok)
    ensures Outage(done + [p], i, |done| + 1)
  {
  }

  lemma OutageIsUnique(log: seq<Probe>, i: int, m: int, j: int)
    requires Outage(log, i, j) && Outage(log, m, j)
    ensures i == m
  {
    assert i == 0 || log[i - 1].ok;
    assert m == 0 || log[m - 1].ok;
  }

  lemma SuccessClosesGap(done: seq<Probe>, p: Probe, open: Option<real>, gap: real)
    requires GapSoFar(done, open, gap) && p.ok
    ensures GapSoFar(done + [p], None, if open.Some? then Max(gap, p.start - open.value) else gap)
  {
    var all := done + [p];
    var now := if open.Some? then Max(gap, p.start - open.value) else gap;
    forall i, j | Outage(all, i, j) && j < |all| ensures all[j].start - all[i].start <= now {
      OutageGrows(done, p, i, j);
      if j == |done| {
        var m :| Outage(done, m, |done|) && done[m].start == open.value;
        OutageIsUnique(done, i, m, |done|);
      }
    }
    if now == gap {
      if gap != 0.0 {
        var i, j :| Outage(done, i, j) && j < |done| && done[j].start - done[i].start == gap;
        OutageGrows(done, p, i, j);
        assert Outage(all, i, j) && all[j].start - all[i].start == now;
      }
    } else {
      var m :| Outage(done, m, |done|) && done[m].start == open.value;
      OutageGrows(done, p, m, |done|);
      assert Outage(all, m, |done|) && all[|done|].start - all[m].start == now;
    }
  }

  lemma FailureOpensGap(done: seq<Probe>, p: Probe, open: Option<real>, gap: real)
    requires GapSoFar(done, open, gap) && !p.ok
    ensures GapSoFar(done + [p], Some(if open.Some? then open.value else p.start), gap)
  {
    var all := done + [p];
    forall i, j | Outage(all, i, j) && j < |all| ensures all[j].start - all[i].start <= gap {
      OutageGrows(done, p, i, j);
    }
    if gap != 0.0 {
      var i, j :| Outage(done, i, j) && j < |done| && done[j].start - done[i].start == gap;
      OutageGrows(done, p, i, j);
      assert Outage(all, i, j) && all[j].start - all[i].start == gap;
    }
    if open.Some? {
      var m :| Outage(done, m, |done|) && done[m].start == open.value;
      FailureExtends(done, p, m);
      assert Outage(all, m, |all|) && all[m].start == open.value;
    } else {
      FailureExtends(done, p, |done|);
      assert Outage(all, |done|, |all|) && all[|done|].start == p.start;
    }
  }

  lemma EndClosesGap(log: seq<Probe>, open: Option<real>, gap: real, end: real)
    requires GapSoFar(log, open, gap)
    ensures IsLongestOutage(log, end, if open.Some? then Max(gap, end - open.value) else gap)
  {
    var now := if open.Some? then Max(gap, end - open.value) else gap;
    forall i, j | Outage(log, i, j) ensures Duration(log, end, i, j) <= now {
      if j == |log| {
        var m :| Outage(log, m, |log|) && log[m].start == open.value;
        OutageIsUnique(log, i, m, |log|);
      }
    }
    if now == gap {
      if gap != 0.0 {
        var i, j :| Outage(log, i, j) && j < |log| && log[j].start - log[i].start == gap;
        assert Duration(log, end, i, j) == now;
      }
    } else {
      var m :| Outage(log, m, |log|) && log[m].start == open.value;
      assert Duration(log, end, m, |log|) == now;
    }
  }

  /** `color` is who served the last success in `done`. */
  ghost predicate LastServed(done: seq<Probe>, color: Option<string>) {
    match color
    case None => forall k :: 0 <= k < |done| ==> !done[k].ok
    case Some(c) => exists p :: PreviousSuccess(done, p, |done|) && done[p].servedBy == c
  }

  lemma LastServedGrows(done: seq<Probe>, p: Probe, color: Option<string>)
    requires LastServed(done, color)
    ensures LastServed(done + [p], if p.ok then Some(p.servedBy) else color)
  {
    var all := done + [p];
    if p.ok {
      assert PreviousSuccess(all, |done|, |all|);
    } else if color.Some? {
      var q :| PreviousSuccess(done, q, |done|) && done[q].servedBy == color.value;
      assert PreviousSuccess(all, q, |all|);
    }
  }

  lemma PreviousSuccessIsUnique(log: seq<Probe>, p: int, q: int, k: int)
    requires PreviousSuccess(log, p, k) && PreviousSuccess(log, q, k)
    ensures p == q
  {
  }

  lemma SwitchGrows(done: seq<Probe>, p: Probe, color: Option<string>, k: int)
    requires LastServed(done, color)
    ensures SwitchSeen(done + [p], k) <==>
      if k == |done| then p.ok && p.servedBy != UNKNOWN && color.Some? && color.value != p.servedBy
      else SwitchSeen(done, k)
  {
    var all := done + [p];
    forall m, q | m <= |done| ensures PreviousSuccess(all, q, m) <==> PreviousSuccess(done, q, m) {
      assert forall i :: 0 <= i < |done| ==> all[i] == done[i];
    }
    if k == |done| && color.Some? {
      var q :| PreviousSuccess(done, q, |done|) && done[q].servedBy == color.value;
      assert PreviousSuccess(all, q, k);
      forall m | PreviousSuccess(all, m, k) ensures m == q { PreviousSuccessIsUnique(all, m, q, k); }
    }
  }

  lemma LastSwitchGrows(done: seq<Probe>, p: Probe, color: Option<string>, at: Option<real>)
    requires LastServed(done, color) && IsLastSwitch(done, at)
    ensures var now := p.ok && color.Some? && p.servedBy != color.value && p.servedBy != UNKNOWN;
      IsLastSwitch(done + [p], if now then Some(p.elapsed) else at)
  {
    var all := done + [p];
    forall k ensures SwitchSeen(all, k) <==>
      if k == |done| then p.ok && p.servedBy != UNKNOWN && color.Some? && color.value != p.servedBy
      else SwitchSeen(done, k)
    {
      SwitchGrows(done, p, color, k);
    }
    if p.ok && color.Some? && p.servedBy != color.value && p.servedBy != UNKNOWN {
      assert SwitchSeen(all, |done|) && all[|done|].elapsed == p.elapsed;
    } else if at.Some? {
      var k :| SwitchSeen(done, k) && done[k].elapsed == at.value && forall m :: k < m ==> !SwitchSeen(done, m);
      assert SwitchSeen(all, k) && all[k].elapsed == at.value;
    }
  }

  lemma Unsnoc(s: seq<Probe>, p: Probe)
    ensures (s + [p])[..|s + [p]| - 1] == s && (s + [p])[|s + [p]| - 1] == p
  {
  }

  /** The variables of the loop after the probes in `done`. */
  datatype Vars = Vars(failures: seq<real>, latencies: seq<real>, colors: multiset<string>,
                       lastColor: Option<string>, switchAt: Option<real>, gapStart: Option<real>, longestGap: real)

  ghost function AfterProbe(v: Vars, p: Probe): Vars {
    if p.ok then
      Vars(v.failures, v.latencies + [p.latency], v.colors + multiset{p.servedBy}, Some(p.servedBy),
           if v.lastColor.Some? && p.servedBy != v.lastColor.value && p.servedBy != UNKNOWN then Some(p.elapsed) else v.switchAt,
           None, if v.gapStart.Some? then Max(v.longestGap, p.start - v.gapStart.value) else v.longestGap)
    else
      v.(failures := v.failures + [p.elapsed],
         gapStart := Some(if v.gapStart.Some? then v.gapStart.value else p.start))
  }

  /** The variables as the probes leave them. */
  ghost function VarsAfter(done: seq<Probe>): Vars {
    if done == [] then Vars([], [], multiset{}, None, None, None, 0.0)
    else AfterProbe(VarsAfter(done[..|done| - 1]), done[|done| - 1])
  }

  lemma VarsNext(log: seq<Probe>, i: nat)
    requires i < |log|
    ensures VarsAfter(log[..i + 1]) == AfterProbe(VarsAfter(log[..i]), log[i])
  {
    assert log[..i + 1] == log[..i] + [log[i]];
    Unsnoc(log[..i], log[i]);
  }

  lemma {:induction false} ListsAfter(done: seq<Probe>)
    ensures var v := VarsAfter(done);
      && v.failures == Failures(done) && v.latencies == Latencies(done) && v.colors == multiset(Served(done))
  {
    if done != [] { ListsAfter(done[..|done| - 1]); }
  }

  lemma {:induction false} SwitchAfter(done: seq<Probe>)
    ensures LastServed(done, VarsAfter(done).lastColor)
    ensures IsLastSwitch(done, VarsAfter(done).switchAt)
  {
    if done != [] {
      var front, p := done[..|done| - 1], done[|done| - 1];
      SwitchAfter(front);
      assert done == front + [p];
      LastServedGrows(front, p, VarsAfter(front).lastColor);
      LastSwitchGrows(front, p, VarsAfter(front).lastColor, VarsAfter(front).switchAt);
    }
  }

  lemma {:induction false} GapAfter(done: seq<Probe>)
    ensures GapSoFar(done, VarsAfter(done).gapStart, VarsAfter(done).longestGap)
  {
    if done != [] {
      var front, p := done[..|done| - 1], done[|done| - 1];
      GapAfter(front);
      assert done == front + [p];
      if p.ok { SuccessClosesGap(front, p, VarsAfter(front).gapStart, VarsAfter(front).longestGap); }
      else { FailureOpensGap(front, p, VarsAfter(front).gapStart, VarsAfter(front).longestGap); }
    }
  }

  ghost function Report(log: seq<Probe>, end: real, v: Vars): Tally {
    Tally(|log|, v.failures, v.latencies, v.colors, v.switchAt,
          if v.gapStart.Some? then Max(v.longestGap, end - v.gapStart.value) else v.longestGap)
  }

  lemma ReportTallies(log: seq<Probe>, end: real)
    ensures Tallies(log, end, Report(log, end, VarsAfter(log)))
  {
    ListsAfter(log);
    SwitchAfter(log);
    GapAfter(log);
    EndClosesGap(log, VarsAfter(log).gapStart, VarsAfter(log).longestGap, end);
  }

  /** The probing loop, over the probes it made. */
  method Measure(log: seq<Probe>, end: real) returns (t: Tally)
    ensures Tallies(log, end, t)
  {
    var total, failures, latencies, colors := 0, [], [], multiset{};
    var lastColor: Option<string>, switchAt: Option<real> := None, None;
    var longestGap: real, gapStart: Option<real> := 0.0, None;
    while total < |log|
      invariant 0 <= total <= |log|
      invariant Vars(failures, latencies, colors, lastColor, switchAt, gapStart, longestGap) == VarsAfter(log[..total])
    {
      var p := log[total];
      VarsNext(log, total);
      total := total + 1;
      if p.ok {
        latencies := latencies + [p.latency];
        colors := colors + multiset{p.servedBy};
        if gapStart.Some? {
          longestGap := Max(longestGap, p.start - gapStart.value);
          gapStart := None;
        }
        if lastColor.Some? && p.servedBy != lastColor.value && p.servedBy != UNKNOWN {
          switchAt := Some(p.elapsed);
        }
        lastColor := Some(p.servedBy);
      } else {
        if gapStart.None? { gapStart := Some(p.start); }
        failures := failures + [p.elapsed];
      }
    }
    assert log[..total] == log;
    if gapStart.Some? { longestGap := Max(longestGap, end - gapStart.value); }
    t := Tally(total, failures, latencies, colors, switchAt, longestGap);
    ReportTallies(log, end);
  }

  // ---- what the report means -------------------------------------------------------------------------

  /** Successes and failures make up the total, and every success is counted for one colour. */
  lemma {:induction false} CountsAddUp(log: seq<Probe>)
    ensures |Latencies(log)| + |Failures(log)| == |log|
    ensures |multiset(Served(log))| == |Latencies(log)|
  {
    if log != [] { CountsAddUp(log[..|log| - 1]); }
  }

  lemma {:induction false} ServedLength(log: seq<Probe>)
    ensures |Served(log)| == |Latencies(log)|
  {
    if log != [] { ServedLength(log[..|log| - 1]); }
  }

  /** Every success is listed, in order, with its latency and its server. */
  lemma {:induction false} SuccessIsListed(log: seq<Probe>, k: nat)
    requires k < |log| && log[k].ok
    ensures Nth(Latencies(log), |Latencies(log[..k])|) == Some(log[k].latency)
    ensures Nth(Served(log), |Latencies(log[..k])|) == Some(log[k].servedBy)
  {
    var front, p, n := log[..|log| - 1], log[|log| - 1], |Latencies(log[..k])|;
    ServedLength(front);
    NthOfConcat(Latencies(front), if p.ok then [p.latency] else [], n);
    NthOfConcat(Served(front), if p.ok then [p.servedBy] else [], n);
    if k < |front| {
      SuccessIsListed(front, k);
      assert front[..k] == log[..k];
    }
  }

  /** And every failure with its time. */
  lemma {:induction false} FailureIsListed(log: seq<Probe>, k: nat)
    requires k < |log| && !log[k].ok
    ensures Nth(Failures(log), |Failures(log[..k])|) == Some(log[k].elapsed)
  {
    var front, p, n := log[..|log| - 1], log[|log| - 1], |Failures(log[..k])|;
    NthOfConcat(Failures(front), if p.ok then [] else [p.elapsed], n);
    if k < |front| {
      FailureIsListed(front, k);
      assert front[..k] == log[..k];
    }
  }

  function Nth<T>(s: seq<T>, n: nat): Option<T> { if n < |s| then Some(s[n]) else None }

  lemma NthOfConcat<T>(s: seq<T>, t: seq<T>, n: nat)
    ensures Nth(s + t, n) == if n < |s| then Nth(s, n) else Nth(t, n - |s|)
  {
  }

  /** Two failures with no success in between lie in one outage. */
  lemma FailuresShareAnOutage(log: seq<Probe>, a: int, b: int) returns (i: int, j: int)
    requires 0 <= a <= b < |log| && forall k :: a <= k <= b ==> !log[k].ok
    ensures Outage(log, i, j) && i <= a && b < j
  {
    i, j := a, b + 1;
    while i > 0 && !log[i - 1].ok
      invariant 0 <= i <= a && forall k :: i <= k <= b ==> !log[k].ok
    {
      i := i - 1;
    }
    while j < |log| && !log[j].ok
      invariant b < j <= |log| && forall k :: i <= k < j ==> !log[k].ok
    {
      j := j + 1;
    }
  }

  ghost predicate Increasing(log: seq<Probe>, end: real) {
    && (forall i, j :: 0 <= i < j < |log| ==> log[i].start < log[j].start)
    && (forall i :: 0 <= i < |log| ==> log[i].start < end)
  }

  /** No stretch of probes without a success lasts longer than the reported outage. */
  lemma OutageCoversEveryStretch(log: seq<Probe>, end: real, gap: real, a: int, b: int)
    requires IsLongestOutage(log, end, gap) && Increasing(log, end)
    requires 0 <= a <= b < |log| && forall k :: a <= k <= b ==> !log[k].ok
    ensures (if b + 1 == |log| then end else log[b + 1].start) - log[a].start <= gap
  {
    var i, j := FailuresShareAnOutage(log, a, b);
    assert Duration(log, end, i, j) <= gap;
  }

  /** A reported outage of zero means that no probe failed, and conversely. */
  lemma NoOutageIffNoFailure(log: seq<Probe>, end: real, gap: real)
    requires IsLongestOutage(log, end, gap) && Increasing(log, end)
    ensures gap == 0.0 <==> Failures(log) == []
  {
    FailuresEmpty(log);
    if i: int :| 0 <= i < |log| && !log[i].ok {
      OutageCoversEveryStretch(log, end, gap, i, i);
    }
    assert forall i, j :: Outage(log, i, j) ==> !log[i].ok;
  }

  lemma {:induction false} FailuresEmpty(log: seq<Probe>)
    ensures Failures(log) == [] <==> forall k :: 0 <= k < |log| ==> log[k].ok
  {
    if log != [] {
      FailuresEmpty(log[..|log| - 1]);
      assert forall k :: 0 <= k < |log| - 1 ==> log[..|log| - 1][k] == log[k];
    }
  }

  /** One server throughout, then possibly answers that name none. */
  ghost predicate Steady(served: seq<string>) {
    exists n :: 0 <= n <= |served| && SteadyUntil(served, n)
  }

  ghost predicate SteadyUntil(served: seq<string>, n: int)
    requires 0 <= n <= |served|
  {
    && (forall i :: 0 < i < n ==> served[i] == served[0])
    && (forall i :: n <= i < |served| ==> served[i] == UNKNOWN)
  }

  lemma {:induction false} SteadyAfter(log: seq<Probe>)
    ensures var v := VarsAfter(log);
      && (v.switchAt.None? <==> Steady(Served(log)))
      && (v.lastColor.None? <==> Served(log) == [])
      && (v.lastColor.Some? ==> v.lastColor.value == Served(log)[|Served(log)| - 1])
  {
    if log == [] {
      assert SteadyUntil([], 0);
    } else {
      var front, p := log[..|log| - 1], log[|log| - 1];
      SteadyAfter(front);
      SteadyGrows(Served(front), p.servedBy);
      assert Served(log) == if p.ok then Served(front) + [p.servedBy] else Served(front);
    }
  }

  /** No switch is reported exactly when one server answered throughout, then perhaps none named itself.
      One answer without the header between two of the same server is therefore reported as a switch. */
  lemma SwitchReportedIffUnsteady(log: seq<Probe>, end: real, t: Tally)
    requires Tallies(log, end, t)
    ensures t.switchAt.None? <==> Steady(Served(log))
  {
    SteadyAfter(log);
    ReportTallies(log, end);
    SwitchIsUnique(log, t.switchAt, VarsAfter(log).switchAt);
  }

  /** Three successes, the middle one without the header: one server throughout, and a switch is reported. */
  lemma HeaderGapLooksLikeSwitch(log: seq<Probe>, color: string, end: real, t: Tally)
    requires |log| == 3 && log[0].ok && log[1].ok && log[2].ok && color != UNKNOWN
    requires log[0].servedBy == color && log[1].servedBy == UNKNOWN && log[2].servedBy == color
    requires Tallies(log, end, t)
    ensures t.switchAt == Some(log[2].elapsed) && t.failures == []
  {
    assert PreviousSuccess(log, 1, 2);
    assert SwitchSeen(log, 2);
    FailuresEmpty(log);
  }

  lemma SwitchIsUnique(log: seq<Probe>, x: Option<real>, y: Option<real>)
    requires IsLastSwitch(log, x) && IsLastSwitch(log, y)
    ensures x == y
  {
  }

  lemma SteadyGrows(served: seq<string>, c: string)
    ensures Steady(served + [c]) <==>
      Steady(served) && (served == [] || c == UNKNOWN || c == served[|served| - 1])
  {
    var all := served + [c];
    if Steady(all) {
      var n :| 0 <= n <= |all| && SteadyUntil(all, n);
      var m := if n > |served| then |served| else n;
      assert forall i :: 0 <= i < |served| ==> all[i] == served[i];
      assert SteadyUntil(served, m);
      if n > |served| && served != [] {
        assert c == all[|served|] == all[0];
      } else if served != [] {
        assert c == all[|served|] == UNKNOWN;
      }
    }
    if Steady(served) && (served == [] || c == UNKNOWN || c == served[|served| - 1]) {
      var n :| 0 <= n <= |served| && SteadyUntil(served, n);
      if served == [] { assert SteadyUntil(all, 1); }
      else if c == UNKNOWN { assert SteadyUntil(all, n); }
      else {
        assert n == |served|;
        assert SteadyUntil(all, |all|);
      }
    }
  }

  // ---- failures around the switch ----------------------------------------------------------------------

  function Abs(x: real): real { if x < 0.0 then -x else x }

  function Within(failures: seq<real>, at: real): seq<real> {
    if failures == [] then []
    else (if Abs(failures[0] - at) <= WINDOW then [failures[0]] else []) + Within(failures[1..], at)
  }

  function Beyond(failures: seq<real>, at: real): seq<real> {
    if failures == [] then []
    else (if Abs(failures[0] - at) > WINDOW then [failures[0]] else []) + Beyond(failures[1..], at)
  }

  /** The two lists of the report. */
  function Split(t: Tally): (seq<real>, seq<real>) {
    match t.switchAt
    case Some(at) => (Within(t.failures, at), Beyond(t.failures, at))
    case None => ([], t.failures)
  }

  lemma CountCons(h: real, t: seq<real>, f: real)
    ensures multiset([h] + t)[f] == multiset(t)[f] + (if f == h then 1 else 0)
  {
    assert multiset([h] + t) == multiset([h]) + multiset(t);
  }

  /** Within ten seconds, before or after. */
  predicate Near(f: real, at: real) { at - WINDOW <= f <= at + WINDOW }

  /** They partition the failures, and the first holds exactly those within ten seconds of the switch. */
  lemma {:induction false} WindowPartitions(failures: seq<real>, at: real, f: real)
    ensures multiset(Within(failures, at))[f] == if Near(f, at) then multiset(failures)[f] else 0
    ensures multiset(Beyond(failures, at))[f] == if Near(f, at) then 0 else multiset(failures)[f]
  {
    if failures != [] {
      var h, t := failures[0], failures[1..];
      WindowPartitions(t, at, f);
      CountCons(h, t, f);
      CountCons(h, Within(t, at), f);
      CountCons(h, Beyond(t, at), f);
      assert failures == [h] + t;
    }
  }

  /** So do the two lists of the report; without a switch no failure is near one. */
  lemma SplitPartitions(t: Tally, f: real)
    ensures var near := t.switchAt.Some? && Near(f, t.switchAt.value);
      && multiset(Split(t).0)[f] == (if near then multiset(t.failures)[f] else 0)
      && multiset(Split(t).1)[f] == if near then 0 else multiset(t.failures)[f]
  {
    if t.switchAt.Some? { WindowPartitions(t.failures, t.switchAt.value, f); }
  }

  lemma {:induction false} WindowLengths(failures: seq<real>, at: real)
    ensures |Within(failures, at)| + |Beyond(failures, at)| == |failures|
  {
    if failures != [] { WindowLengths(failures[1..], at); }
  }

  lemma {:induction false} FailureIsProbe(log: seq<Probe>, f: real)
    ensures f in Failures(log) <==> exists k :: 0 <= k < |log| && !log[k].ok && log[k].elapsed == f
  {
    if log != [] {
      var front := log[..|log| - 1];
      FailureIsProbe(front, f);
      assert forall k :: 0 <= k < |front| ==> front[k] == log[k];
      if f in Failures(front) {
        var k :| 0 <= k < |front| && !front[k].ok && front[k].elapsed == f;
        assert !log[k].ok && log[k].elapsed == f;
      }
    }
  }

  ghost predicate NoneNear(log: seq<Probe>, at: real) {
    forall k :: 0 <= k < |log| && !log[k].ok ==> !Near(log[k].elapsed, at)
  }

  lemma NoFailureNear(log: seq<Probe>, at: real)
    ensures Within(Failures(log), at) == [] <==> NoneNear(log, at)
  {
    var near := Within(Failures(log), at);
    if k :| 0 <= k < |log| && !log[k].ok && Near(log[k].elapsed, at) {
      FailureIsProbe(log, log[k].elapsed);
      WindowPartitions(Failures(log), at, log[k].elapsed);
      assert log[k].elapsed in multiset(near);
    } else if near != [] {
      WindowPartitions(Failures(log), at, near[0]);
      FailureIsProbe(log, near[0]);
      assert near[0] in multiset(near);
    }
  }

  /** The headline: no failure is reported near the switch exactly when none of the probes that failed
      lies within ten seconds of the last switch seen. */
  lemma ZeroDowntimeClaim(log: seq<Probe>, t: Tally)
    requires t.failures == Failures(log) && t.switchAt.Some?
    ensures Split(t).0 == [] <==> NoneNear(log, t.switchAt.value)
  {
    NoFailureNear(log, t.switchAt.value);
  }

  /** Successes and the two lists of failures make up the total, switch or no switch. */
  lemma ReportAddsUp(log: seq<Probe>, t: Tally)
    requires t.total == |log| && t.failures == Failures(log) && t.latencies == Latencies(log)
    ensures |Split(t).0| + |Split(t).1| + |t.latencies| == t.total
  {
    CountsAddUp(log);
    if t.switchAt.Some? { WindowLengths(t.failures, t.switchAt.value); }
  }

  // ---- percentiles -------------------------------------------------------------------------------------

  ghost predicate Sorted(s: seq<real>) { forall i, j :: 0 <= i < j < |s| ==> s[i] <= s[j] }

  function Insert(x: real, s: seq<real>): seq<real> {
    if s == [] || x <= s[0] then [x] + s else [s[0]] + Insert(x, s[1..])
  }

  /** `latencies.sort()`. */
  function Sort(s: seq<real>): (r: seq<real>)
    ensures |r| == |s|
  {
    if s == [] then []
    else
      InsertLength(s[0], Sort(s[1..]));
      Insert(s[0], Sort(s[1..]))
  }

  lemma {:induction false} InsertLength(x: real, s: seq<real>)
    ensures |Insert(x, s)| == |s| + 1
  {
    if s != [] && x > s[0] { InsertLength(x, s[1..]); }
  }

  lemma {:induction false} InsertCount(x: real, s: seq<real>, y: real)
    ensures multiset(Insert(x, s))[y] == multiset(s)[y] + (if y == x then 1 else 0)
  {
    CountCons(x, s, y);
    if s != [] && x > s[0] {
      InsertCount(x, s[1..], y);
      CountCons(s[0], s[1..], y);
      CountCons(s[0], Insert(x, s[1..]), y);
      assert s == [s[0]] + s[1..];
    }
  }

  lemma {:induction false} SortCount(s: seq<real>, y: real)
    ensures multiset(Sort(s))[y] == multiset(s)[y]
  {
    if s != [] {
      SortCount(s[1..], y);
      InsertCount(s[0], Sort(s[1..]), y);
      CountCons(s[0], s[1..], y);
      assert s == [s[0]] + s[1..];
    }
  }

  lemma {:induction false} InsertKeepsOrder(x: real, s: seq<real>, low: real)
    requires Sorted(s) && low <= x && forall i :: 0 <= i < |s| ==> low <= s[i]
    ensures Sorted(Insert(x, s)) && forall i :: 0 <= i < |Insert(x, s)| ==> low <= Insert(x, s)[i]
  {
    if s != [] && x > s[0] {
      InsertKeepsOrder(x, s[1..], s[0]);
    }
  }

  lemma {:induction false} SortOrders(s: seq<real>)
    ensures Sorted(Sort(s))
  {
    if s != [] {
      SortOrders(s[1..]);
      var r := Sort(s[1..]);
      InsertKeepsOrder(s[0], r, if r == [] || s[0] <= r[0] then s[0] else r[0]);
    }
  }

  /** The sorted list is an ordered permutation of the samples. */
  lemma SortIsRight(s: seq<real>)
    ensures Sorted(Sort(s)) && multiset(Sort(s)) == multiset(s)
    ensures forall y :: y in Sort(s) <==> y in s
  {
    SortOrders(s);
    forall y ensures multiset(Sort(s))[y] == multiset(s)[y] && (y in Sort(s) <==> y in s) {
      SortCount(s, y);
      assert (y in Sort(s) <==> y in multiset(Sort(s))) && (y in s <==> y in multiset(s));
    }
  }

  /** Samples no larger than `v`, and smaller than `v`. */
  function AtMost(s: seq<real>, v: real): nat {
    if s == [] then 0 else (if s[0] <= v then 1 else 0) + AtMost(s[1..], v)
  }

  function Below(s: seq<real>, v: real): nat {
    if s == [] then 0 else (if s[0] < v then 1 else 0) + Below(s[1..], v)
  }

  /** `pct(p)` before rounding. */
  function Percentile(latencies: seq<real>, p: real): real
    requires p >= 0.0
  {
    var s := Sort(latencies);
    if s == [] then 0.0 else s[Rank(|s|, p)]
  }

  function Rank(n: nat, p: real): (k: nat)
    requires n > 0 && p >= 0.0
    ensures k < n
  {
    var k := (n as real * p).Floor;
    if k < n - 1 then k else n - 1
  }

  lemma {:induction false} InsertCounts(x: real, s: seq<real>, v: real)
    ensures AtMost(Insert(x, s), v) == AtMost(s, v) + (if x <= v then 1 else 0)
    ensures Below(Insert(x, s), v) == Below(s, v) + (if x < v then 1 else 0)
  {
    if s == [] || x <= s[0] {
      assert ([x] + s)[1..] == s;
    } else {
      InsertCounts(x, s[1..], v);
      var rest := Insert(x, s[1..]);
      assert ([s[0]] + rest)[1..] == rest;
    }
  }

  lemma {:induction false} SortCounts(s: seq<real>, v: real)
    ensures AtMost(Sort(s), v) == AtMost(s, v) && Below(Sort(s), v) == Below(s, v)
  {
    if s != [] {
      SortCounts(s[1..], v);
      InsertCounts(s[0], Sort(s[1..]), v);
    }
  }

  /** In a sorted list the element at `k` has at least `k + 1` at or below it and at most `k` below it. */
  lemma {:induction false} RankCounts(s: seq<real>, k: nat)
    requires Sorted(s) && k < |s|
    ensures AtMost(s, s[k]) >= k + 1 && Below(s, s[k]) <= k
  {
    if k == 0 {
      NoneBelow(s, s[0]);
    } else {
      RankCounts(s[1..], k - 1);
      assert s[1..][k - 1] == s[k];
    }
  }

  lemma {:induction false} NoneBelow(s: seq<real>, v: real)
    requires forall i :: 0 <= i < |s| ==> v <= s[i]
    ensures Below(s, v) == 0
  {
    if s != [] {
      assert forall i :: 0 <= i < |s| - 1 ==> s[1..][i] == s[i + 1];
      NoneBelow(s[1..], v);
    }
  }

  lemma {:induction false} AtMostLessBelow(s: seq<real>, u: real, v: real)
    requires u < v
    ensures AtMost(s, u) <= Below(s, v)
  {
    if s != [] { AtMostLessBelow(s[1..], u, v); }
  }

  /** The percentile is the one sample with more than `n * p` samples at or below it and at most `n * p`
      strictly below it. */
  lemma PercentileExact(latencies: seq<real>, p: real, v: real)
    requires 0.0 <= p < 1.0 && |latencies| > 0
    ensures v == Percentile(latencies, p) <==>
      v in latencies && Below(latencies, v) as real <= |latencies| as real * p < AtMost(latencies, v) as real
  {
    RankIsFloor(|latencies|, p);
    PercentileAt(latencies, |latencies| as real * p, Rank(|latencies|, p), v);
  }

  lemma PercentileAt(latencies: seq<real>, x: real, k: nat, v: real)
    requires k < |latencies| && k as real <= x < k as real + 1.0
    ensures v == Sort(latencies)[k] <==> v in latencies && Below(latencies, v) as real <= x < AtMost(latencies, v) as real
  {
    var w := Sort(latencies)[k];
    SortIsRight(latencies);
    RankCounts(Sort(latencies), k);
    SortCounts(latencies, w);
    if v < w { AtMostLessBelow(latencies, v, w); }
    if w < v { AtMostLessBelow(latencies, w, v); }
  }

  lemma RankIsFloor(n: nat, p: real)
    requires n > 0 && 0.0 <= p < 1.0
    ensures Rank(n, p) as real <= n as real * p < Rank(n, p) as real + 1.0
  {
    Scale(n as real, p, 1.0);
    Scale(n as real, 0.0, p);
    assert (n as real * p).Floor < n;
  }

  /** p50 <= p95 <= p99 <= max, whatever the samples. */
  lemma PercentilesAreOrdered(latencies: seq<real>, p: real, q: real)
    requires 0.0 <= p <= q && |latencies| > 0
    ensures Percentile(latencies, p) <= Percentile(latencies, q)
    ensures forall x :: x in latencies ==> x <= Sort(latencies)[|latencies| - 1]
    ensures Percentile(latencies, q) <= Sort(latencies)[|latencies| - 1]
  {
    var s, n := Sort(latencies), |latencies|;
    SortIsRight(latencies);
    RankGrows(n, p, q);
    forall x | x in latencies ensures x <= s[n - 1] {
      var i :| 0 <= i < |s| && s[i] == x;
    }
  }

  lemma RankGrows(n: nat, p: real, q: real)
    requires n > 0 && 0.0 <= p <= q
    ensures Rank(n, p) <= Rank(n, q)
  {
    Scale(n as real, p, q);
    FloorGrows(n as real * p, n as real * q);
  }

  lemma FloorGrows(x: real, y: real)
    requires x <= y
    ensures x.Floor <= y.Floor
  {
  }

  lemma Scale(m: real, p: real, q: real)
    requires m > 0.0 && p <= q
    ensures m * p <= m * q && (p < q ==> m * p < m * q)
  {
    assert m * (q - p) >= 0.0 && (p < q ==> m * (q - p) > 0.0);
  }
}
