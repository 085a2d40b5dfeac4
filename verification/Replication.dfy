/** What replication keeps over every interleaving of clients, threads, restarts and scripts. */
module Replication {
  import opened Basics
  import opened Mysql

  // ---- GTID sets ----------------------------------------------------------------------------------

  lemma IdsConcat(a: seq<Txn>, b: seq<Txn>)
    ensures Ids(a + b) == Ids(a) + Ids(b)
  {}

  lemma IdsSplit(s: seq<Txn>, i: nat)
    requires i <= |s|
    ensures Ids(s) == Ids(s[..i]) + Ids(s[i..])
  {
    assert s == s[..i] + s[i..];
    IdsConcat(s[..i], s[i..]);
  }

  /** Every GTID once, and none from before. */
  ghost predicate Fresh(tail: seq<Txn>, gtids: set<Gtid>) {
    && (forall i, j :: 0 <= i < j < |tail| ==> tail[i].gtid != tail[j].gtid)
    && (forall i :: 0 <= i < |tail| ==> tail[i].gtid !in gtids)
  }

  // ---- the invariant ------------------------------------------------------------------------------

  /** What the primary committed since the pair's origin, in commit order. */
  function Tail(t: Tier): seq<Txn>
    requires |t.origin.data| <= |t.primary.data|
  {
    t.primary.data[|t.origin.data|..]
  }

  ghost predicate PrimaryFrom(p: Server, o: Dump) {
    && |o.data| <= |p.data| && p.data[..|o.data|] == o.data
    && var tail := p.data[|o.data|..];
       && Fresh(tail, o.gtids)
       && p.executed == o.gtids + Ids(tail)
       && |p.binlog| <= |tail| && p.binlog == tail[|tail| - |p.binlog|..]
  }

  /** The replica has applied the first k commits since the origin, and its relay log holds the next ones. */
  ghost predicate ReplicaAt(r: Server, o: Dump, tail: seq<Txn>, k: nat) {
    && k + |r.relay| <= |tail|
    && r.data == o.data + tail[..k]
    && r.executed == o.gtids + Ids(tail[..k])
    && r.relay == tail[k..k + |r.relay|]
  }

  ghost predicate Sync(t: Tier) {
    PrimaryFrom(t.primary, t.origin) && exists k: nat :: ReplicaAt(t.replica, t.origin, Tail(t), k)
  }

  function Applied(t: Tier): int { |t.replica.data| - |t.origin.data| }

  lemma SyncAt(t: Tier)
    requires Sync(t)
    ensures Applied(t) >= 0 && ReplicaAt(t.replica, t.origin, Tail(t), Applied(t))
  {
    var k: nat :| ReplicaAt(t.replica, t.origin, Tail(t), k);
    assert k == Applied(t);
  }

  /** Exactly-once, in order: what the replica holds is a prefix of what the primary committed. */
  lemma SyncIsPrefix(t: Tier)
    requires Sync(t)
    ensures t.replica.data <= t.primary.data
    ensures t.replica.data + t.replica.relay <= t.primary.data
  {
    SyncAt(t);
    assert t.primary.data == t.origin.data + Tail(t);
    AppliedIsPrefix(t.replica, t.origin, Tail(t), Applied(t));
  }

  lemma AppliedIsPrefix(r: Server, o: Dump, tail: seq<Txn>, k: nat)
    requires ReplicaAt(r, o, tail, k)
    ensures r.data <= o.data + tail && r.data + r.relay <= o.data + tail
  {
    assert tail[..k] + tail[k..k + |r.relay|] == tail[..k + |r.relay|];
  }

  // ---- one step -----------------------------------------------------------------------------------

  lemma FreshSnoc(tail: seq<Txn>, gtids: set<Gtid>, x: Txn)
    requires Fresh(tail, gtids) && x.gtid !in gtids + Ids(tail)
    ensures Fresh(tail + [x], gtids)
  {
    assert forall i :: 0 <= i < |tail| ==> tail[i].gtid in Ids(tail);
  }

  lemma PrimaryCommits(p: Server, o: Dump, x: Txn)
    requires PrimaryFrom(p, o) && x.gtid !in p.executed
    ensures PrimaryFrom(Executes(p, x), o)
    ensures Executes(p, x).data[|o.data|..] == p.data[|o.data|..] + [x]
  {
    var tail, q := p.data[|o.data|..], Executes(p, x);
    FreshSnoc(tail, o.gtids, x);
    IdsConcat(tail, [x]);
    assert q.data[|o.data|..] == tail + [x] && q.data[..|o.data|] == p.data[..|o.data|];
    assert q.binlog == (tail + [x])[|tail| - |p.binlog|..];
  }

  lemma TailGrows(r: Server, o: Dump, tail: seq<Txn>, k: nat, x: Txn)
    requires ReplicaAt(r, o, tail, k)
    ensures ReplicaAt(r, o, tail + [x], k)
  {
    assert (tail + [x])[..k] == tail[..k];
    assert (tail + [x])[k..k + |r.relay|] == tail[k..k + |r.relay|];
  }

  lemma CommitKeeps(t: Tier, n: nat, body: int)
    requires Sync(t) && Gtid(FromPrimary, n) !in t.primary.executed
    ensures Sync(Do(t, Commit(n, body)))
  {
    SyncAt(t);
    var x := Txn(Gtid(FromPrimary, n), body);
    PrimaryCommits(t.primary, t.origin, x);
    TailGrows(t.replica, t.origin, Tail(t), Applied(t), x);
    var u := Do(t, Commit(n, body));
    assert ReplicaAt(u.replica, u.origin, Tail(u), Applied(t));
  }

  lemma ExpireKeeps(t: Tier, n: nat)
    requires Sync(t) && n <= |t.primary.binlog|
    ensures Sync(Do(t, ExpireBinlog(n)))
  {
    SyncAt(t);
    var u := Do(t, ExpireBinlog(n));
    assert Tail(u) == Tail(t);
    assert ReplicaAt(u.replica, u.origin, Tail(u), Applied(t));
  }

  lemma {:induction false} FirstMissingAt(binlog: seq<Txn>, have: set<Gtid>, i: nat)
    requires i <= |binlog|
    requires forall j :: 0 <= j < i ==> binlog[j].gtid in have
    requires i < |binlog| ==> binlog[i].gtid !in have
    ensures FirstMissing(binlog, have) == if i < |binlog| then Some(binlog[i]) else None
  {
    if i > 0 { FirstMissingAt(binlog[1..], have, i - 1); }
  }

  lemma NotBefore(tail: seq<Txn>, gtids: set<Gtid>, q: nat)
    requires Fresh(tail, gtids) && q <= |tail|
    ensures forall i :: q <= i < |tail| ==> tail[i].gtid !in gtids + Ids(tail[..q])
  {}

  lemma NotAfter(tail: seq<Txn>, gtids: set<Gtid>, e: nat)
    requires Fresh(tail, gtids) && e <= |tail|
    ensures forall i :: 0 <= i < e ==> tail[i].gtid !in Ids(tail[e..])
  {}

  /** If nothing was expired but what the first q commits cover, the binlog starts no later than at q. */
  lemma ExpiredBound(tail: seq<Txn>, gtids: set<Gtid>, e: nat, q: nat)
    requires Fresh(tail, gtids) && e <= |tail| && q <= |tail|
    requires gtids + Ids(tail) - Ids(tail[e..]) <= gtids + Ids(tail[..q])
    ensures e <= q
  {
    NotBefore(tail, gtids, q);
    NotAfter(tail, gtids, e);
    if q < |tail| {
      assert tail[q].gtid in Ids(tail);
      assert tail[q].gtid in Ids(tail[e..]);
    }
  }

  lemma MissingInTail(tail: seq<Txn>, gtids: set<Gtid>, e: nat, q: nat, binlog: seq<Txn>, have: set<Gtid>)
    requires Fresh(tail, gtids) && e <= q <= |tail|
    requires binlog == tail[e..] && have == gtids + Ids(tail[..q])
    ensures FirstMissing(binlog, have) == if q < |tail| then Some(tail[q]) else None
  {
    NotBefore(tail, gtids, q);
    forall j | 0 <= j < q - e ensures binlog[j].gtid in have {
      assert tail[..q][e + j] == binlog[j];
    }
    FirstMissingAt(binlog, have, q - e);
  }

  lemma MissingAfter(p: Server, o: Dump, q: nat, have: set<Gtid>)
    requires PrimaryFrom(p, o) && |p.data| - |o.data| - |p.binlog| <= q <= |p.data| - |o.data|
    requires have == o.gtids + Ids(p.data[|o.data|..][..q])
    ensures FirstMissing(p.binlog, have) == if q < |p.data| - |o.data| then Some(p.data[|o.data|..][q]) else None
  {
    var tail := p.data[|o.data|..];
    MissingInTail(tail, o.gtids, |tail| - |p.binlog|, q, p.binlog, have);
  }

  /** What the replica reports is the origin and the commits up to the last one received. */
  lemma HaveIsReceived(t: Tier)
    requires Sync(t)
    ensures 0 <= Applied(t) && Applied(t) + |t.replica.relay| <= |Tail(t)|
    ensures Have(t.replica) == t.origin.gtids + Ids(Tail(t)[..Applied(t) + |t.replica.relay|])
  {
    SyncAt(t);
    var tail, k := Tail(t), Applied(t);
    var q := k + |t.replica.relay|;
    assert tail[..k] + tail[k..q] == tail[..q];
    IdsConcat(tail[..k], tail[k..q]);
  }

  lemma StreamBound(t: Tier)
    requires Sync(t) && Purged(t.primary) <= Have(t.replica)
    ensures 0 <= |Tail(t)| - |t.primary.binlog| <= Applied(t) + |t.replica.relay| <= |Tail(t)|
  {
    HaveIsReceived(t);
    ExpiredBound(Tail(t), t.origin.gtids, |Tail(t)| - |t.primary.binlog|, Applied(t) + |t.replica.relay|);
  }

  /** What the IO thread gets next is the commit after the last one received. */
  lemma NextFetch(t: Tier)
    requires Sync(t) && Purged(t.primary) <= Have(t.replica)
    ensures var q := Applied(t) + |t.replica.relay|;
            && 0 <= q <= |Tail(t)|
            && FirstMissing(t.primary.binlog, Have(t.replica)) == if q < |Tail(t)| then Some(Tail(t)[q]) else None
  {
    StreamBound(t);
    HaveIsReceived(t);
    MissingAfter(t.primary, t.origin, Applied(t) + |t.replica.relay|, Have(t.replica));
  }

  lemma FetchKeeps(t: Tier)
    requires Sync(t)
    ensures Sync(Do(t, Fetch))
  {
    if CanStream(t) {
      NextFetch(t);
      if Applied(t) + |t.replica.relay| < |Tail(t)| {
        ReceiveKeeps(t, t.replica.(relay := t.replica.relay + [Tail(t)[Applied(t) + |t.replica.relay|]]));
      }
    }
  }

  lemma ReceiveKeeps(t: Tier, r: Server)
    requires Sync(t) && 0 <= Applied(t) && Applied(t) + |t.replica.relay| < |Tail(t)|
    requires r == t.replica.(relay := t.replica.relay + [Tail(t)[Applied(t) + |t.replica.relay|]])
    ensures Sync(t.(replica := r))
  {
    SyncAt(t);
    var tail, k := Tail(t), Applied(t);
    var q := k + |t.replica.relay|;
    assert tail[k..q] + [tail[q]] == tail[k..q + 1];
    assert ReplicaAt(r, t.origin, tail, k);
    assert Tail(t.(replica := r)) == tail;
  }

  lemma ApplyKeeps(t: Tier)
    requires Sync(t)
    ensures Sync(Do(t, ApplyNext))
  {
    SyncAt(t);
    var r, tail, k := t.replica, Tail(t), Applied(t);
    if r.source && r.sql && r.relay != [] {
      ApplyAdvances(r, t.origin, tail, k);
      ReplacesReplica(t, ApplyHead(r), k + 1);
    }
  }

  /** The head of the relay log is the next commit, not executed before. */
  lemma ApplyAdvances(r: Server, o: Dump, tail: seq<Txn>, k: nat)
    requires Fresh(tail, o.gtids) && ReplicaAt(r, o, tail, k) && r.relay != []
    ensures r.relay[0].gtid !in r.executed && ReplicaAt(ApplyHead(r), o, tail, k + 1)
  {
    assert r.relay[0] == tail[k];
    NotBefore(tail, o.gtids, k);
    assert tail[..k + 1] == tail[..k] + [tail[k]];
    IdsConcat(tail[..k], [tail[k]]);
    assert r.relay[1..] == tail[k + 1..k + |r.relay|];
  }

  lemma ReplacesReplica(t: Tier, r: Server, k: nat)
    requires Sync(t) && ReplicaAt(r, t.origin, Tail(t), k)
    ensures Sync(t.(replica := r))
  {
    assert Tail(t.(replica := r)) == Tail(t);
  }

  /** Steps that touch only threads, settings and flags, or discard the relay log. */
  lemma SettingsKeep(t: Tier, u: Tier)
    requires Sync(t) && u.primary == t.primary && u.origin == t.origin
    requires u.replica.data == t.replica.data && u.replica.executed == t.replica.executed
    requires u.replica.relay == t.replica.relay || u.replica.relay == []
    ensures Sync(u)
  {
    SyncAt(t);
    assert ReplicaAt(u.replica, u.origin, Tail(u), Applied(t));
  }

  predicate Armed(r: Server) { r.readOnly && r.superReadOnly && r.keptReadOnly && r.keptSuperReadOnly }

  /** Routine steps that leave the replica's protection on. */
  predicate Arming(a: Step) {
    Routine(a) && a != PersistReadOnly(false) && a != PersistSuperReadOnly(false)
  }

  lemma StepKeepsSync(t: Tier, a: Step)
    requires Sync(t) && Routine(a) && (a.WriteReplica? ==> t.replica.readOnly)
    ensures Sync(Do(t, a))
  {
    match a {
      case Commit(n, body) => if Gtid(FromPrimary, n) !in t.primary.executed { CommitKeeps(t, n, body); }
      case WriteReplica(_, _) =>
      case ExpireBinlog(n) => if n <= |t.primary.binlog| { ExpireKeeps(t, n); }
      case Fetch => FetchKeeps(t);
      case ApplyNext => ApplyKeeps(t);
      case _ => SettingsKeep(t, Do(t, a));
    }
  }

  lemma StepKeepsArmed(t: Tier, a: Step)
    requires Armed(t.replica) && Arming(a)
    ensures Armed(Do(t, a).replica)
  {}

  // ---- whole runs ---------------------------------------------------------------------------------

  /** Every interleaving of commits, fetches, applies, binlog expiry, broken connections, restarts and
      setup commands (complete, repeated or cut short) keeps the replica an exactly-once, in-order prefix,
      as long as clients write only to the primary. */
  lemma {:induction false} RunsKeepSync(t: Tier, steps: seq<Step>)
    requires Sync(t) && forall i :: 0 <= i < |steps| ==> Routine(steps[i]) && !steps[i].WriteReplica?
    ensures Sync(Run(t, steps)) && Run(t, steps).replica.data <= Run(t, steps).primary.data
  {
    if steps != [] {
      RunsKeepSync(t, steps[..|steps| - 1]);
      StepKeepsSync(Run(t, steps[..|steps| - 1]), steps[|steps| - 1]);
    }
    SyncIsPrefix(Run(t, steps));
  }

  /** An armed replica needs no such discipline of its clients: their writes bounce, across any number of
      restarts and setup runs, so it stays armed and in sync. */
  lemma {:induction false} ArmedRunsKeepSync(t: Tier, steps: seq<Step>)
    requires Sync(t) && Armed(t.replica) && forall i :: 0 <= i < |steps| ==> Arming(steps[i])
    ensures Sync(Run(t, steps)) && Armed(Run(t, steps).replica)
    ensures Run(t, steps).replica.data <= Run(t, steps).primary.data
  {
    if steps != [] {
      var u := Run(t, steps[..|steps| - 1]);
      ArmedRunsKeepSync(t, steps[..|steps| - 1]);
      StepKeepsSync(u, steps[|steps| - 1]);
      StepKeepsArmed(u, steps[|steps| - 1]);
    }
    SyncIsPrefix(Run(t, steps));
  }

  /** No transaction is in the server's data twice, and none that is there is unknown to its executed set. */
  ghost predicate AppliedOnce(s: Server) {
    && (forall i, j :: 0 <= i < j < |s.data| ==> s.data[i].gtid != s.data[j].gtid)
    && (forall i :: 0 <= i < |s.data| ==> s.data[i].gtid in s.executed)
  }

  /** In sync or not, with clients writing wherever they are let: no server executes a transaction twice, also
      when one is fetched again. */
  lemma {:induction false} RunsApplyOnce(t: Tier, steps: seq<Step>)
    requires AppliedOnce(t.primary) && AppliedOnce(t.replica) && forall i :: 0 <= i < |steps| ==> Routine(steps[i])
    ensures AppliedOnce(Run(t, steps).primary) && AppliedOnce(Run(t, steps).replica)
  {
    if steps != [] {
      RunsApplyOnce(t, steps[..|steps| - 1]);
      StepAppliesOnce(Run(t, steps[..|steps| - 1]), steps[|steps| - 1]);
    }
  }

  lemma StepAppliesOnce(t: Tier, a: Step)
    requires AppliedOnce(t.primary) && AppliedOnce(t.replica) && Routine(a)
    ensures AppliedOnce(Do(t, a).primary) && AppliedOnce(Do(t, a).replica)
  {
    var p, r := t.primary, t.replica;
    match a
    case Commit(n, body) =>
      if Gtid(FromPrimary, n) !in p.executed { ExecutesOnce(p, Txn(Gtid(FromPrimary, n), body)); }
    case WriteReplica(n, body) =>
      if Gtid(FromReplica, n) !in r.executed { ExecutesOnce(r, Txn(Gtid(FromReplica, n), body)); }
    case ApplyNext =>
      if r.relay != [] {
        var rest := r.(relay := r.relay[1..]);
        assert AppliedOnce(rest);
        if r.relay[0].gtid !in r.executed { ExecutesOnce(rest, r.relay[0]); }
      }
    case _ =>
  }

  lemma ExecutesOnce(s: Server, x: Txn)
    requires AppliedOnce(s) && x.gtid !in s.executed
    ensures AppliedOnce(Executes(s, x))
  {
    assert forall i :: 0 <= i < |s.data| ==> s.data[i].gtid != x.gtid;
  }

  /** Everything fetched and drained means equal data, and only that. */
  lemma DrainedIffEqual(t: Tier)
    requires Sync(t) && Purged(t.primary) <= Have(t.replica)
    ensures t.replica.data == t.primary.data <==> FirstMissing(t.primary.binlog, Have(t.replica)).None? && t.replica.relay == []
  {
    NextFetch(t);
    HaveIsReceived(t);
    LevelWhenAllApplied(t);
  }

  predicate FetchOrApply(steps: seq<Step>) {
    forall i :: 0 <= i < |steps| ==> steps[i] == Fetch || steps[i] == ApplyNext
  }

  /** A replica that lags applies the next commit after at most one fetch. */
  lemma Advances(t: Tier) returns (steps: seq<Step>, u: Tier)
    requires Sync(t) && CanStream(t) && t.replica.sql && t.replica.data != t.primary.data
    ensures u == Run(t, steps) && FetchOrApply(steps) && |steps| <= 2
    ensures Sync(u) && CanStream(u) && u.replica.sql && u.primary == t.primary
    ensures |u.replica.data| == |t.replica.data| + 1
  {
    if t.replica.relay == [] {
      steps, u := FetchesAndApplies(t);
    } else {
      u := Applies(t);
      steps := [ApplyNext];
      RunOne(t, ApplyNext);
    }
  }

  lemma FetchesAndApplies(t: Tier) returns (steps: seq<Step>, u: Tier)
    requires Sync(t) && CanStream(t) && t.replica.sql && t.replica.data != t.primary.data && t.replica.relay == []
    ensures u == Run(t, steps) && FetchOrApply(steps) && |steps| <= 2
    ensures Sync(u) && CanStream(u) && u.replica.sql && u.primary == t.primary
    ensures |u.replica.data| == |t.replica.data| + 1
  {
    var t1 := Fetches(t);
    u := Applies(t1);
    steps := TwoSteps(t, t1, u);
  }

  lemma TwoSteps(t: Tier, t1: Tier, u: Tier) returns (steps: seq<Step>)
    requires t1 == Do(t, Fetch) && u == Do(t1, ApplyNext)
    ensures u == Run(t, steps) && FetchOrApply(steps) && |steps| == 2
  {
    steps := [Fetch, ApplyNext];
    RunTwo(t, Fetch, ApplyNext);
  }

  lemma RunOne(t: Tier, a: Step)
    ensures Run(t, [a]) == Do(t, a)
  {
    assert [a][..0] == [];
  }

  lemma RunTwo(t: Tier, a: Step, b: Step)
    ensures Run(t, [a, b]) == Do(Do(t, a), b)
  {
    RunOne(t, a);
    assert [a, b][..1] == [a];
  }

  lemma Fetches(t: Tier) returns (u: Tier)
    requires Sync(t) && CanStream(t) && t.replica.data != t.primary.data && t.replica.relay == []
    ensures u == Do(t, Fetch) && Sync(u) && CanStream(u) && u.replica.relay != []
    ensures u.primary == t.primary && u.replica.data == t.replica.data && u.replica.sql == t.replica.sql
  {
    u := Do(t, Fetch);
    NextFetch(t);
    FetchKeeps(t);
    LevelWhenAllApplied(t);
    assert Have(t.replica) <= Have(u.replica);
  }

  /** The replica holds the primary's data exactly when it has applied every commit since the origin. */
  lemma LevelWhenAllApplied(t: Tier)
    requires Sync(t)
    ensures Applied(t) == |Tail(t)| <==> t.replica.data == t.primary.data
  {
    SyncAt(t);
    assert t.primary.data == t.origin.data + Tail(t);
    assert Tail(t)[..|Tail(t)|] == Tail(t);
  }

  function ApplyHead(r: Server): Server
    requires r.relay != []
  {
    Executes(r.(relay := r.relay[1..]), r.relay[0])
  }

  lemma Applies(t: Tier) returns (u: Tier)
    requires Sync(t) && CanStream(t) && t.replica.sql && t.replica.relay != []
    ensures u == Do(t, ApplyNext) && Sync(u) && CanStream(u) && u.replica.sql && u.primary == t.primary
    ensures |u.replica.data| == |t.replica.data| + 1
  {
    ApplyKeeps(t);
    ApplyDoes(t);
    StillStreams(t);
    u := t.(replica := ApplyHead(t.replica));
  }

  lemma ApplyDoes(t: Tier)
    requires Sync(t) && t.replica.source && t.replica.sql && t.replica.relay != []
    ensures Do(t, ApplyNext) == t.(replica := ApplyHead(t.replica))
  {
    HeadIsNew(t);
  }

  lemma StillStreams(t: Tier)
    requires CanStream(t) && t.replica.relay != []
    ensures CanStream(t.(replica := ApplyHead(t.replica)))
  {
    HaveAfterApply(t.replica);
  }

  lemma HeadIsNew(t: Tier)
    requires Sync(t) && t.replica.relay != []
    ensures t.replica.relay[0].gtid !in t.replica.executed
  {
    SyncAt(t);
    NotBefore(Tail(t), t.origin.gtids, Applied(t));
    assert t.replica.relay[0] == Tail(t)[Applied(t)];
  }

  lemma HaveAfterApply(r: Server)
    requires r.relay != []
    ensures Have(ApplyHead(r)) == Have(r)
  {
    IdsSplit(r.relay, 1);
    assert r.relay[..1] == [r.relay[0]];
  }

  /** While the threads run and the source has not expired what is missing, at most two steps per lagging
      commit bring the replica level. */
  lemma {:induction false} CatchesUp(t: Tier) returns (steps: seq<Step>)
    requires Sync(t) && CanStream(t) && t.replica.sql
    ensures FetchOrApply(steps) && |steps| <= 2 * (|t.primary.data| - |t.replica.data|)
    ensures Run(t, steps).replica.data == Run(t, steps).primary.data == t.primary.data
    decreases |t.primary.data| - |t.replica.data|
  {
    SyncIsPrefix(t);
    if t.replica.data == t.primary.data {
      steps := [];
    } else {
      var first, u := Advances(t);
      SyncIsPrefix(u);
      var rest := CatchesUp(u);
      steps := first + rest;
      RunConcat(t, first, rest);
    }
  }

  lemma {:induction false} RunConcat(t: Tier, a: seq<Step>, b: seq<Step>)
    ensures Run(t, a + b) == Run(Run(t, a), b)
  {
    if b == [] {
      assert a + b == a;
    } else {
      assert (a + b)[..|a + b| - 1] == a + b[..|b| - 1];
      RunConcat(t, a, b[..|b| - 1]);
    }
  }

  // ---- divergence ---------------------------------------------------------------------------------

  /** GTID `x.gtid` names `x` on the replica and another transaction on the primary. */
  ghost predicate Diverged(t: Tier, x: Txn) {
    && x in t.replica.data && x.gtid in t.replica.executed
    && x.gtid in t.primary.executed && x !in t.primary.data
  }

  /** Divergence outlives every continuation without another restore: replication never reconciles it. */
  lemma {:induction false} DivergencePersists(t: Tier, x: Txn, steps: seq<Step>)
    requires Diverged(t, x) && forall i :: 0 <= i < |steps| ==> Routine(steps[i])
    ensures Diverged(Run(t, steps), x) && !(Run(t, steps).replica.data <= Run(t, steps).primary.data)
  {
    if steps != [] {
      DivergencePersists(t, x, steps[..|steps| - 1]);
      DivergedStep(Run(t, steps[..|steps| - 1]), x, steps[|steps| - 1]);
    }
  }

  lemma DivergedStep(t: Tier, x: Txn, a: Step)
    requires Diverged(t, x) && Routine(a)
    ensures Diverged(Do(t, a), x)
  {
    match a
    case Commit(n, body) =>
    case WriteReplica(n, body) =>
    case ApplyNext =>
    case _ =>
  }
}
