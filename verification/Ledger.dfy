/** The S3 deployment ledger: the bounded history and the search that picks a rollback target
    (deploy/common.py:298-325, deploy/rollback.py:87-98). */
module Ledger {
  import opened Basics

  type Tag = string

  datatype Status = Success | Failure

  /** One element of `deployments/history.json`; `live` is its `live_color`. */
  datatype Entry = Entry(tag: Tag, status: Status, live: Option<Color>)

  /** `deployments/last-good.json`. */
  datatype LastGood = LastGood(tag: Tag, color: Color, port: string)

  const MAX_HISTORY_ENTRIES := 200

  function Truncated(h: seq<Entry>): seq<Entry> {
    if |h| <= MAX_HISTORY_ENTRIES then h else h[|h| - MAX_HISTORY_ENTRIES..]
  }

  /** What one `append_history` call stores over the history it read. */
  function Appended(stored: seq<Entry>, e: Entry): seq<Entry> {
    Truncated(stored + [e])
  }

  /** The stored history after a whole run of appends, oldest first. */
  function StoredAfter(appends: seq<Entry>): seq<Entry> {
    if appends == [] then []
    else Appended(StoredAfter(appends[..|appends| - 1]), appends[|appends| - 1])
  }

  predicate Candidate(e: Entry, live: Tag) {
    e.status == Success && e.tag != "" && e.tag != live
  }

  /** `previous_good_tag`: the newest successful entry that does not name `live`. */
  function PreviousGood(h: seq<Entry>, live: Tag): (r: Option<Tag>)
    ensures r.None? <==> forall i :: 0 <= i < |h| ==> !Candidate(h[i], live)
    ensures r.Some? ==> exists i :: 0 <= i < |h| && Candidate(h[i], live) && h[i].tag == r.value
                                    && forall j :: i < j < |h| ==> !Candidate(h[j], live)
  {
    if h == [] then None
    else if Candidate(h[|h| - 1], live) then Some(h[|h| - 1].tag)
    else PreviousGood(h[..|h| - 1], live)
  }

  /** The store keeps exactly the last min(200, n) entries of the unbounded append log. */
  lemma {:induction false} StoredIsSuffix(appends: seq<Entry>)
    ensures StoredAfter(appends) == Truncated(appends)
  {
    if appends != [] {
      var n := |appends|;
      StoredIsSuffix(appends[..n - 1]);
      AppendTruncates(appends[..n - 1], appends[n - 1]);
      assert appends[..n - 1] + [appends[n - 1]] == appends;
    }
  }

  lemma AppendTruncates(full: seq<Entry>, e: Entry)
    ensures Appended(Truncated(full), e) == Truncated(full + [e])
  {}

  /** The position of the newest candidate, or -1. */
  function NewestCandidate(h: seq<Entry>, live: Tag): (i: int)
    ensures -1 <= i < |h|
    ensures i >= 0 ==> Candidate(h[i], live) && PreviousGood(h, live) == Some(h[i].tag)
    ensures forall j :: i < j < |h| ==> !Candidate(h[j], live)
    ensures i == -1 ==> PreviousGood(h, live) == None
  {
    if h == [] then -1
    else if Candidate(h[|h| - 1], live) then |h| - 1
    else NewestCandidate(h[..|h| - 1], live)
  }

  /** On the bounded store the search answers as on the unbounded log, or finds nothing: it never
      names another tag. It agrees exactly when the log has no candidate or its newest one is among
      the last 200 entries. */
  lemma PreviousGoodRefinesUnbounded(full: seq<Entry>, live: Tag)
    ensures var bounded := PreviousGood(StoredAfter(full), live);
            var unbounded := PreviousGood(full, live);
            var i := NewestCandidate(full, live);
            && (bounded == unbounded || bounded == None)
            && (bounded == unbounded <==> i == -1 || |full| - i <= MAX_HISTORY_ENTRIES)
  {
    StoredIsSuffix(full);
    var i := NewestCandidate(full, live);
    if |full| - |Truncated(full)| <= i { WindowFinds(full, live, i); } else { WindowMisses(full, live, i); }
  }

  lemma WindowFinds(full: seq<Entry>, live: Tag, i: int)
    requires |full| - |Truncated(full)| <= i < |full| && Candidate(full[i], live)
    requires forall j :: i < j < |full| ==> !Candidate(full[j], live)
    ensures PreviousGood(Truncated(full), live) == Some(full[i].tag)
  {
    var t := Truncated(full);
    var cut := |full| - |t|;
    assert t[i - cut] == full[i];
    forall j | i - cut < j < |t| ensures !Candidate(t[j], live) { assert t[j] == full[cut + j]; }
  }

  lemma WindowMisses(full: seq<Entry>, live: Tag, i: int)
    requires -1 <= i < |full| - |Truncated(full)|
    requires forall j :: i < j < |full| ==> !Candidate(full[j], live)
    ensures PreviousGood(Truncated(full), live) == None
  {
    var t := Truncated(full);
    forall j | 0 <= j < |t| ensures !Candidate(t[j], live) { assert t[j] == full[|full| - |t| + j]; }
  }

  /** A consistent ledger for `live` with `alt` as the next rollback target: the newest success names
      `live`, and the newest success naming another tag names `alt`. */
  ghost predicate Swappable(h: seq<Entry>, live: Tag, alt: Tag) {
    && live != "" && alt != "" && live != alt
    && |h| <= MAX_HISTORY_ENTRIES
    && exists i, j :: Swap(h, live, alt, i, j)
  }

  ghost predicate Swap(h: seq<Entry>, live: Tag, alt: Tag, i: int, j: int) {
    && 0 <= i < j < |h|
    && Candidate(h[i], live) && h[i].tag == alt
    && Candidate(h[j], alt) && h[j].tag == live
    && (forall k :: i < k < j ==> !Candidate(h[k], live))
    && (forall k :: j < k < |h| ==> !Candidate(h[k], ""))
  }

  /** One recorded rollback turns a ledger that swaps to `alt` into one that swaps back, even when
      the append pushes the oldest entry out. */
  lemma SwapRoundTrip(h: seq<Entry>, live: Tag, alt: Tag, e: Entry)
    requires Swappable(h, live, alt)
    requires e.tag == alt && e.status == Success
    ensures PreviousGood(h, live) == Some(alt)
    ensures Swappable(Appended(h, e), alt, live)
  {
    var i, j :| Swap(h, live, alt, i, j);
    SwapTarget(h, live, alt, i, j);
    SwapBack(h, live, alt, i, j, e);
  }

  lemma SwapTarget(h: seq<Entry>, live: Tag, alt: Tag, i: int, j: int)
    requires live != alt && Swap(h, live, alt, i, j)
    ensures PreviousGood(h, live) == Some(alt)
  {
    assert Candidate(h[i], live);
    forall k | i < k < |h| ensures !Candidate(h[k], live) {
      if k > j { assert !Candidate(h[k], ""); }
    }
  }

  lemma SwapBack(h: seq<Entry>, live: Tag, alt: Tag, i: int, j: int, e: Entry)
    requires live != alt && alt != "" && live != "" && Swap(h, live, alt, i, j) && |h| <= MAX_HISTORY_ENTRIES
    requires e.tag == alt && e.status == Success
    ensures |Appended(h, e)| <= MAX_HISTORY_ENTRIES
    ensures exists k, l :: Swap(Appended(h, e), alt, live, k, l)
  {
    var cut := if |h| == MAX_HISTORY_ENTRIES then 1 else 0;
    assert Appended(h, e) == (h + [e])[cut..] == h[cut..] + [e];
    SwapShifted(h[cut..], alt, live, j - cut, e);
  }

  lemma SwapShifted(g: seq<Entry>, alt: Tag, live: Tag, k: int, e: Entry)
    requires 0 <= k < |g| && Candidate(g[k], alt) && g[k].tag == live
    requires forall l :: k < l < |g| ==> !Candidate(g[l], "")
    requires live != "" && alt != "" && live != alt && e.tag == alt && e.status == Success
    ensures Swap(g + [e], alt, live, k, |g|)
  {
    forall l | k < l < |g| ensures !Candidate((g + [e])[l], alt) { assert !Candidate(g[l], ""); }
  }
}
