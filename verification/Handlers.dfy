/** The handlers `shorten` and `follow` in place, on the table and the cache, and what each request gets
    (app/main.py:46-85, app/db.py:87-111, app/cache.py:33-45). */
module Handlers {
  import opened Basics
  import opened Shortener

  // ---- the handlers in place -----------------------------------------------------------------------

  /** The actions of one `shorten` with the given draws and outcomes, when nothing interleaves. */
  function ShortenActions(id: Id, url: Url, valid: bool, draws: seq<(Code, Outcome)>, stored: bool): seq<Action> {
    [Submit(id, url, valid)] + Draws(id, draws) + [Make(id, Publish(stored))] + [Make(id, Send)]
  }

  function Draws(id: Id, draws: seq<(Code, Outcome)>): seq<Action> {
    seq(|draws|, i requires 0 <= i < |draws| => Make(id, TryInsert(draws[i].0, draws[i].1)))
  }

  function FollowActions(id: Id, code: Code, up: bool, dbUp: bool, stored: bool, o: Outcome): seq<Action> {
    LookupActions(id, code, up, dbUp, stored, o) + [Make(id, Send)]
  }

  function LookupActions(id: Id, code: Code, up: bool, dbUp: bool, stored: bool, o: Outcome): seq<Action> {
    FindActions(id, code, up, dbUp, stored) + [Make(id, Count(o))]
  }

  function FindActions(id: Id, code: Code, up: bool, dbUp: bool, stored: bool): seq<Action> {
    [Request(id, code), Make(id, Look(up)), Make(id, Fetch(dbUp)), Make(id, Fill(stored))]
  }

  lemma RunSnoc(key: Collation, s: Shop, actions: seq<Action>, a: Action)
    ensures Run(key, s, actions + [a]) == Next(key, Run(key, s, actions), a)
  {
    Unsnoc(actions, a);
  }

  lemma {:induction false} RunStates(key: Collation, s: Shop, actions: seq<Action>, states: seq<Shop>)
    requires |states| == |actions| + 1 && states[0] == s
    requires forall i :: 0 <= i < |actions| ==> states[i + 1] == Next(key, states[i], actions[i])
    ensures Run(key, s, actions) == states[|actions|]
  {
    if actions != [] {
      RunStates(key, s, actions[..|actions| - 1], states[..|actions|]);
    }
  }

  lemma RunOneMore(key: Collation, s: Shop, start: seq<Action>, all: seq<Action>, i: nat)
    requires i < |all|
    ensures Run(key, s, start + all[..i + 1]) == Next(key, Run(key, s, start + all[..i]), all[i])
  {
    assert start + all[..i + 1] == (start + all[..i]) + [all[i]];
    RunSnoc(key, s, start + all[..i], all[i]);
  }

  /** Actions of a request that is past them change nothing. */
  lemma {:induction false} DrawsStutter(key: Collation, s: Shop, before: seq<Action>, id: Id, draws: seq<(Code, Outcome)>, i: nat)
    requires i <= |draws|
    requires var t := Run(key, s, before + Draws(id, draws)[..i]); id !in t.tasks || !t.tasks[id].Inserting?
    ensures Run(key, s, before + Draws(id, draws)) == Run(key, s, before + Draws(id, draws)[..i])
    decreases |draws| - i
  {
    var all := Draws(id, draws);
    if i == |draws| {
      assert all[..i] == all;
    } else {
      RunOneMore(key, s, before, all, i);
      DrawsStutter(key, s, before, id, draws, i + 1);
    }
  }

  // ---- what a request should get ----------------------------------------------------------------------

  /** One of the first `n` draws inserted a row of key `k` without `shorten` being told. */
  ghost predicate Lost(key: Collation, draws: seq<(Code, Outcome)>, n: nat, k: string) {
    exists j :: 0 <= j < n && j < |draws| && draws[j].1 == ReplyLost && key(draws[j].0) == k
  }

  /** Draw `i` meets no failure, no row of the table, and no row an earlier draw left without knowing. */
  ghost predicate Succeeds(key: Collation, rows: map<string, Row>, draws: seq<(Code, Outcome)>, i: nat) {
    && i < |draws| && draws[i].1 == Works
    && key(draws[i].0) !in rows && !Lost(key, draws, i, key(draws[i].0))
  }

  /** None of the first `n` draws succeeds. */
  ghost predicate NoneOf(key: Collation, rows: map<string, Row>, draws: seq<(Code, Outcome)>, n: nat) {
    forall j: nat | j < n :: !Succeeds(key, rows, draws, j)
  }

  /** The response to a submission: 400 to an invalid URL and to no other, 201 with the first draw that
      succeeds, 503 when none does. */
  ghost predicate Deserved(key: Collation, rows: map<string, Row>, url: Url, valid: bool, draws: seq<(Code, Outcome)>, reply: Reply) {
    match reply
    case BadUrl => !valid
    case Created(code, u) =>
      valid && u == url && exists i: nat | Succeeds(key, rows, draws, i) :: NoneOf(key, rows, draws, i) && code == draws[i].0
    case Unallocated => valid && NoneOf(key, rows, draws, |draws|)
    case _ => false
  }

  /** The table has the rows it had; the new ones hold `url` and no clicks. */
  ghost predicate Grown(before: map<string, Row>, after: map<string, Row>, url: Url) {
    && (forall k :: k in before ==> k in after && after[k] == before[k])
    && (forall k :: k in after && k !in before ==> after[k].url == url && after[k].clicks == 0)
  }

  /** After `n` draws, none of which succeeded, the table has gained the rows they left. */
  ghost predicate StillTrying(key: Collation, before: map<string, Row>, now: map<string, Row>, url: Url, draws: seq<(Code, Outcome)>, n: nat) {
    && NoneOf(key, before, draws, n) && Grown(before, now, url)
    && forall k :: k in now <==> k in before || Lost(key, draws, n, k)
  }

  /** Draw `n` succeeded, the first to do so. */
  ghost predicate HasRow(key: Collation, before: map<string, Row>, now: map<string, Row>, url: Url, draws: seq<(Code, Outcome)>, n: nat) {
    && Succeeds(key, before, draws, n) && NoneOf(key, before, draws, n) && Grown(before, now, url)
    && key(draws[n].0) in now && now[key(draws[n].0)] == Row(draws[n].0, url, 0)
  }

  /** What `insert_link` leaves of the rows. */
  function Inserted(key: Collation, rows: map<string, Row>, code: Code, url: Url, o: Outcome): map<string, Row> {
    if o == Fails || key(code) in rows then rows else rows[key(code) := Row(code, url, 0)]
  }

  lemma OneMoreDraw(key: Collation, before: map<string, Row>, now: map<string, Row>, url: Url, draws: seq<(Code, Outcome)>, n: nat)
    requires n < |draws| && StillTrying(key, before, now, url, draws, n)
    ensures var (code, o) := draws[n];
      var after := Inserted(key, now, code, url, o);
      if o == Works && key(code) !in now then HasRow(key, before, after, url, draws, n)
      else StillTrying(key, before, after, url, draws, n + 1)
  {
    var (code, o) := draws[n];
    assert Succeeds(key, before, draws, n) <==> o == Works && key(code) !in now;
    forall k ensures Lost(key, draws, n + 1, k) <==> Lost(key, draws, n, k) || (o == ReplyLost && key(code) == k) {}
  }

  /** No second response is deserved. */
  lemma OneReplyDeserved(key: Collation, rows: map<string, Row>, url: Url, valid: bool, draws: seq<(Code, Outcome)>, a: Reply, b: Reply)
    requires Deserved(key, rows, url, valid, draws, a) && Deserved(key, rows, url, valid, draws, b)
    ensures a == b
  {
  }

  /** `follow` finds the URL in the cache if it can, else in the table. */
  function Found(key: Collation, rows: map<string, Row>, cache: map<Code, Url>, code: Code, up: bool, dbUp: bool): Option<Url> {
    if up && code in cache then Some(cache[code])
    else if dbUp && key(code) in rows then Some(rows[key(code)].url)
    else None
  }

  /** The response to a request: 404 only to a code that neither the cache nor the table knows, 302 with the
      URL that was found once its click is counted, 500 when the table is out of reach or the count fails. */
  ghost predicate Owed(key: Collation, rows: map<string, Row>, cache: map<Code, Url>, code: Code, up: bool, dbUp: bool, o: Outcome, reply: Reply) {
    var found := Found(key, rows, cache, code, up, dbUp);
    match reply
    case Redirect(c, url) => c == code && found == Some(url) && o == Works
    case NotFound(c) => c == code && found == None && dbUp
    case ServerError(c, counted) =>
      && c == code && (if found.Some? then o != Works else !dbUp)
      && (counted <==> found.Some? && o == ReplyLost && key(code) in rows)
    case _ => false
  }

  /** The clicks after it. */
  function Counted(key: Collation, rows: map<string, Row>, code: Code, o: Outcome): map<string, Row> {
    if o != Fails && key(code) in rows then rows[key(code) := rows[key(code)].(clicks := rows[key(code)].clicks + 1)] else rows
  }

  lemma OneReplyOwed(key: Collation, rows: map<string, Row>, cache: map<Code, Url>, code: Code, up: bool, dbUp: bool, o: Outcome, a: Reply, b: Reply)
    requires Owed(key, rows, cache, code, up, dbUp, o, a) && Owed(key, rows, cache, code, up, dbUp, o, b)
    ensures a == b
  {
  }

  /** The table, the cache, and where each handler stands. */
  class Service {
    const key: Collation
    var rows: map<string, Row>
    var cache: map<Code, Url>
    ghost var committed: seq<Statement>
    ghost var tasks: map<Id, Task>
    ghost var issued: set<Id>
    ghost var answers: seq<Answer>
    ghost var unsent: seq<Reply>

    ghost function State(): Shop
      reads this
    {
      Shop(Db(rows, committed), cache, tasks, issued, answers, unsent)
    }

    constructor (key: Collation)
      ensures this.key == key && State() == OPENING
    {
      this.key := key;
      rows, cache, committed, tasks, issued, answers, unsent := map[], map[], [], map[], {}, [], [];
    }

    method InsertLink(id: Id, code: Code, url: Url, o: Outcome) returns (raised: bool)
      modifies this`rows, this`committed
      ensures (State().db, raised) == InsertRow(key, old(State().db), id, code, url, o)
    {
      if o == Fails || key(code) in rows { return true; }
      rows := rows[key(code) := Row(code, url, 0)];
      committed := committed + [Insert(id, code, url)];
      raised := o == ReplyLost;
    }

    method GetLink(code: Code) returns (row: Option<Row>)
      ensures row == FindRow(key, State().db, code)
    {
      row := if key(code) in rows then Some(rows[key(code)]) else None;
    }

    method IncrementClicks(code: Code, o: Outcome) returns (raised: bool)
      modifies this`rows, this`committed
      ensures (State().db, raised) == Bump(key, old(State().db), code, o)
    {
      if o == Fails { return true; }
      if key(code) in rows {
        var row := rows[key(code)];
        rows := rows[key(code) := row.(clicks := row.clicks + 1)];
        committed := committed + [Click(code)];
      }
      raised := o == ReplyLost;
    }

    method GetUrl(code: Code, up: bool) returns (url: Option<Url>)
      ensures url == if up && code in cache then Some(cache[code]) else None
    {
      url := if up && code in cache then Some(cache[code]) else None;
    }

    method SetUrl(code: Code, url: Url, stored: bool)
      modifies this`cache
      ensures cache == Cached(old(cache), code, url, stored)
    {
      if stored { cache := cache[code := url]; }
    }

    ghost method Advance(id: Id, task: Task)
      modifies this`tasks
      ensures State() == Goto(old(State()), id, task)
    {
      tasks := tasks[id := task];
    }

    ghost method Settle(id: Id, reply: Reply)
      modifies this`tasks, this`answers
      ensures State() == Finish(old(State()), id, reply)
    {
      tasks, answers := tasks - {id}, answers + [Answer(id, reply)];
    }

    /** One pass of the loop in `shorten`. */
    method Attempt(id: Id, url: Url, failed: nat, code: Code, o: Outcome) returns (raised: bool)
      requires id in tasks && tasks[id] == Inserting(url, failed)
      modifies this
      ensures State() == Next(key, old(State()), Make(id, TryInsert(code, o)))
      ensures issued == old(issued)
      ensures answers == old(answers) && id in tasks && tasks[id] == AfterTry(Inserting(url, failed), code, raised)
      ensures cache == old(cache) && (raised <==> o != Works || key(code) in old(rows))
      ensures rows == Inserted(key, old(rows), code, url, o)
    {
      ghost var s0 := State();
      raised := InsertLink(id, code, url, o);
      Advance(id, AfterTry(Inserting(url, failed), code, raised));
      assert State() == TryInsertStep(key, s0, id, Inserting(url, failed), code, o);
    }

    /** The loop of `shorten`; `s0` and `start` are the state before the request and the actions so far. */
    method Allocate(id: Id, url: Url, draws: seq<(Code, Outcome)>, ghost s0: Shop, ghost start: seq<Action>)
      returns (placed: bool, code: Code)
      requires |draws| == ATTEMPTS && id in tasks && tasks[id] == Inserting(url, 0)
      requires State() == Run(key, s0, start)
      modifies this
      ensures State() == Run(key, s0, start + Draws(id, draws))
      ensures placed ==> answers == old(answers) && id in tasks && tasks[id] == Publishing(code, url)
      ensures !placed ==> answers == old(answers) && id in tasks && tasks[id] == Replying(Unallocated)
      ensures cache == old(cache) && Grown(old(rows), rows, url)
      ensures Deserved(key, old(rows), url, true, draws, if placed then Created(code, url) else Unallocated)
      ensures placed ==> key(code) in rows && rows[key(code)] == Row(code, url, 0)
    {
      ghost var all := Draws(id, draws);
      assert start + all[..0] == start;
      var i := 0;
      code, placed := "", false;
      while i < ATTEMPTS && !placed
        decreases ATTEMPTS - i
        invariant 0 <= i <= ATTEMPTS
        invariant State() == Run(key, s0, start + all[..i])
        invariant placed ==> answers == old(answers) && id in tasks && tasks[id] == Publishing(code, url)
        invariant !placed && i < ATTEMPTS ==> answers == old(answers) && id in tasks && tasks[id] == Inserting(url, i)
        invariant !placed && i == ATTEMPTS ==> answers == old(answers) && id in tasks && tasks[id] == Replying(Unallocated)
        invariant cache == old(cache) && (placed ==> i > 0 && code == draws[i - 1].0)
        invariant !placed ==> StillTrying(key, old(rows), rows, url, draws, i)
        invariant placed ==> HasRow(key, old(rows), rows, url, draws, i - 1)
      {
        RunOneMore(key, s0, start, all, i);
        OneMoreDraw(key, old(rows), rows, url, draws, i);
        code := draws[i].0;
        var raised := Attempt(id, url, i, code, draws[i].1);
        placed, i := !raised, i + 1;
      }
      DrawsStutter(key, s0, start, id, draws, i);
    }

    /** `POST /shorten`: up to five draws, then the cache. */
    method Shorten(id: Id, url: Url, valid: bool, draws: seq<(Code, Outcome)>, stored: bool) returns (reply: Reply)
      requires id !in issued && id !in tasks && |draws| == ATTEMPTS
      modifies this
      ensures State() == Run(key, old(State()), ShortenActions(id, url, valid, draws, stored))
      ensures answers == old(answers) + [Answer(id, reply)]
      ensures Deserved(key, old(rows), url, valid, draws, reply)
      ensures Grown(old(rows), rows, url) && (!valid ==> rows == old(rows))
      ensures reply.Created? ==> key(reply.code) in rows && rows[key(reply.code)] == Row(reply.code, url, 0)
      ensures cache == if reply.Created? && stored then old(cache)[reply.code := url] else old(cache)
    {
      reply := Decide(id, url, valid, draws, stored);
      RunSnoc(key, old(State()), [Submit(id, url, valid)] + Draws(id, draws) + [Make(id, Publish(stored))], Make(id, Send));
      Settle(id, reply);
    }

    /** The handler up to its response. */
    method Decide(id: Id, url: Url, valid: bool, draws: seq<(Code, Outcome)>, stored: bool) returns (reply: Reply)
      requires id !in issued && id !in tasks && |draws| == ATTEMPTS
      modifies this
      ensures State() == Run(key, old(State()), [Submit(id, url, valid)] + Draws(id, draws) + [Make(id, Publish(stored))])
      ensures answers == old(answers) && id in tasks && tasks[id] == Replying(reply)
      ensures Deserved(key, old(rows), url, valid, draws, reply)
      ensures Grown(old(rows), rows, url) && (!valid ==> rows == old(rows))
      ensures reply.Created? ==> key(reply.code) in rows && rows[key(reply.code)] == Row(reply.code, url, 0)
      ensures cache == if reply.Created? && stored then old(cache)[reply.code := url] else old(cache)
    {
      ghost var s0, start := State(), [Submit(id, url, valid)];
      assert start == [] + start;
      RunSnoc(key, s0, [], start[0]);
      RunSnoc(key, s0, start + Draws(id, draws), Make(id, Publish(stored)));
      issued := issued + {id};
      if !valid {
        Advance(id, Replying(BadUrl));
        assert start + Draws(id, draws)[..0] == start;
        DrawsStutter(key, s0, start, id, draws, 0);
        return BadUrl;
      }
      Advance(id, Inserting(url, 0));
      var placed, code := Allocate(id, url, draws, s0, start);
      if !placed { return Unallocated; }
      SetUrl(code, url, stored);
      Advance(id, Replying(Created(code, url)));
      return Created(code, url);
    }

    /** The cache read of `follow`. */
    method ReadCache(id: Id, code: Code, up: bool) returns (url: Option<Url>)
      requires id in tasks && tasks[id] == Looking(code)
      modifies this`tasks
      ensures State() == Next(key, old(State()), Make(id, Look(up)))
      ensures id in tasks && tasks[id] == match url case None => Fetching(code) case Some(u) => Counting(code, u)
      ensures url == if up && code in cache then Some(cache[code]) else None
    {
      ghost var s0 := State();
      url := GetUrl(code, up);
      Advance(id, if url.Some? then Counting(code, url.value) else Fetching(code));
      assert State() == LookStep(s0, id, code, up);
    }

    /** The database read of `follow`, and the caching of its result; the reply is for the failures. */
    method Load(id: Id, code: Code, dbUp: bool, stored: bool) returns (url: Option<Url>, reply: Reply)
      requires id in tasks && tasks[id] == Fetching(code)
      modifies this
      ensures State() == Next(key, Next(key, old(State()), Make(id, Fetch(dbUp))), Make(id, Fill(stored)))
      ensures url.Some? ==> answers == old(answers) && id in tasks && tasks[id] == Counting(code, url.value)
      ensures url.None? ==> answers == old(answers) && id in tasks && tasks[id] == Replying(reply)
      ensures url == if dbUp && key(code) in rows then Some(rows[key(code)].url) else None
      ensures url.None? ==> reply == if dbUp then NotFound(code) else ServerError(code, false)
      ensures rows == old(rows) && cache == if url.Some? && stored then old(cache)[code := url.value] else old(cache)
    {
      ghost var s0 := State();
      url, reply := None, NotFound(code);
      if !dbUp {
        reply := ServerError(code, false);
        Advance(id, Replying(reply));
        assert State() == FetchStep(key, s0, id, code, dbUp);
        return;
      }
      var row := GetLink(code);
      if row.None? {
        Advance(id, Replying(reply));
        assert State() == FetchStep(key, s0, id, code, dbUp);
        return;
      }
      url := Some(row.value.url);
      Advance(id, Filling(code, row.value.url));
      assert State() == FetchStep(key, s0, id, code, dbUp);
      SetUrl(code, row.value.url, stored);
      Advance(id, Counting(code, row.value.url));
    }

    /** The click of `follow`, which decides its response. */
    method CountClick(id: Id, code: Code, url: Url, o: Outcome) returns (reply: Reply)
      requires id in tasks && tasks[id] == Counting(code, url)
      modifies this
      ensures State() == Next(key, old(State()), Make(id, Count(o)))
      ensures answers == old(answers) && id in tasks && tasks[id] == Replying(reply)
      ensures rows == Counted(key, old(rows), code, o) && cache == old(cache)
      ensures reply == if o == Works then Redirect(code, url) else ServerError(code, o == ReplyLost && key(code) in old(rows))
    {
      ghost var s0 := State();
      var raised := IncrementClicks(code, o);
      reply := if raised then ServerError(code, o != Fails && key(code) in rows) else Redirect(code, url);
      Advance(id, Replying(reply));
      assert State() == CountStep(key, s0, id, s0.tasks[id], o);
    }

    /** `GET /<code>`. */
    method Follow(id: Id, code: Code, up: bool, dbUp: bool, stored: bool, o: Outcome) returns (reply: Reply)
      requires id !in issued && id !in tasks
      modifies this
      ensures State() == Run(key, old(State()), FollowActions(id, code, up, dbUp, stored, o))
      ensures answers == old(answers) + [Answer(id, reply)]
      ensures Owed(key, old(rows), old(cache), code, up, dbUp, o, reply)
      ensures var found := Found(key, old(rows), old(cache), code, up, dbUp);
        && rows == (if found.Some? then Counted(key, old(rows), code, o) else old(rows))
        && cache == if found.Some? && !(up && code in old(cache)) && stored then old(cache)[code := found.value] else old(cache)
    {
      reply := Resolve(id, code, up, dbUp, stored, o);
      RunSnoc(key, old(State()), LookupActions(id, code, up, dbUp, stored, o), Make(id, Send));
      Settle(id, reply);
    }

    /** The handler up to its response. */
    method Resolve(id: Id, code: Code, up: bool, dbUp: bool, stored: bool, o: Outcome) returns (reply: Reply)
      requires id !in issued && id !in tasks
      modifies this
      ensures State() == Run(key, old(State()), LookupActions(id, code, up, dbUp, stored, o))
      ensures answers == old(answers) && id in tasks && tasks[id] == Replying(reply)
      ensures Owed(key, old(rows), old(cache), code, up, dbUp, o, reply)
      ensures var found := Found(key, old(rows), old(cache), code, up, dbUp);
        && rows == (if found.Some? then Counted(key, old(rows), code, o) else old(rows))
        && cache == if found.Some? && !(up && code in old(cache)) && stored then old(cache)[code := found.value] else old(cache)
    {
      var url: Option<Url>;
      url, reply := Find(id, code, up, dbUp, stored);
      RunSnoc(key, old(State()), FindActions(id, code, up, dbUp, stored), Make(id, Count(o)));
      if url.Some? { reply := CountClick(id, code, url.value, o); }
    }

    /** The part of `follow` that finds the URL, or the response to a failure. */
    method Find(id: Id, code: Code, up: bool, dbUp: bool, stored: bool) returns (url: Option<Url>, reply: Reply)
      requires id !in issued && id !in tasks
      modifies this
      ensures State() == Run(key, old(State()), FindActions(id, code, up, dbUp, stored))
      ensures answers == old(answers) && id in tasks
      ensures tasks[id] == match url case None => Replying(reply) case Some(u) => Counting(code, u)
      ensures url == Found(key, old(rows), old(cache), code, up, dbUp) && rows == old(rows)
      ensures url.None? ==> reply == if dbUp then NotFound(code) else ServerError(code, false)
      ensures cache == if url.Some? && !(up && code in old(cache)) && stored then old(cache)[code := url.value] else old(cache)
    {
      ghost var s0, all := State(), FindActions(id, code, up, dbUp, stored);
      ghost var s1 := Next(key, s0, all[0]);
      ghost var s2 := Next(key, s1, all[1]);
      ghost var s3 := Next(key, s2, all[2]);
      RunStates(key, s0, all, [s0, s1, s2, s3, Next(key, s3, all[3])]);
      issued := issued + {id};
      Advance(id, Looking(code));
      reply := NotFound(code);
      url := ReadCache(id, code, up);
      if url.None? { url, reply := Load(id, code, dbUp, stored); }
    }
  }
}
