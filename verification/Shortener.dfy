/** The shortener under concurrent handlers: every database and cache call of `shorten` and `follow` is
    one atomic step, and the steps of different requests interleave freely
    (app/main.py:46-85, app/db.py:87-111, app/cache.py:33-45). */
module Shortener {
  import opened Basics

  type Code = string
  type Url = string
  type Id = nat

  /** Which codes the primary key of `links` takes for equal: codes are equal when their keys are. The
      table names no collation, so this is the server's default and need not be exact spelling. */
  type Collation = Code -> string

  datatype Row = Row(code: Code, url: Url, clicks: nat)

  /** A statement that committed; `id` is the request that issued the insert. */
  datatype Statement = Insert(id: Id, code: Code, url: Url) | Click(code: Code)

  /** The table, and the statements that made it. */
  datatype Db = Db(rows: map<string, Row>, committed: seq<Statement>)

  /** A write that works unless MySQL refuses it, one that fails without effect, one that takes effect
      and whose reply is lost. */
  datatype Outcome = Works | Fails | ReplyLost

  /** The responses 400, 201, 503, 302, 404 and 500; `counted` records whether the click was committed. */
  datatype Reply =
    | BadUrl
    | Created(code: Code, url: Url)
    | Unallocated
    | Redirect(code: Code, url: Url)
    | NotFound(code: Code)
    | ServerError(code: Code, counted: bool)

  datatype Answer = Answer(id: Id, reply: Reply)

  /** Where a handler stands: before an insert attempt, before it caches the new code, before the cache
      read, before the row read, before it caches what it read, before it counts the click, with its
      response decided but not sent. */
  datatype Task =
    | Inserting(url: Url, failed: nat)
    | Publishing(code: Code, url: Url)
    | Looking(code: Code)
    | Fetching(code: Code)
    | Filling(code: Code, url: Url)
    | Counting(code: Code, url: Url)
    | Replying(reply: Reply)

  /** `unsent` are responses whose worker died before it sent them. */
  datatype Shop = Shop(db: Db, cache: map<Code, Url>, tasks: map<Id, Task>, issued: set<Id>,
                       answers: seq<Answer>, unsent: seq<Reply>)

  /** One call of a handler, with its outcome. */
  datatype Call =
    | TryInsert(code: Code, outcome: Outcome)
    | Publish(stored: bool)
    | Look(up: bool)
    | Fetch(up: bool)
    | Fill(stored: bool)
    | Count(outcome: Outcome)
    | Send

  /** A request arrives, a handler makes its next call, a worker dies, Redis drops an entry. */
  datatype Action =
    | Submit(id: Id, url: Url, valid: bool)
    | Request(id: Id, code: Code)
    | Make(id: Id, call: Call)
    | Die(id: Id)
    | Evict(code: Code)

  const ATTEMPTS := 5

  // ---- the calls ----------------------------------------------------------------------------------

  /** `insert_link`; true when it raises. */
  function InsertRow(key: Collation, db: Db, id: Id, code: Code, url: Url, o: Outcome): (Db, bool) {
    if o == Fails || key(code) in db.rows then (db, true)
    else (Db(db.rows[key(code) := Row(code, url, 0)], db.committed + [Insert(id, code, url)]), o == ReplyLost)
  }

  /** `get_link` on the primary. */
  function FindRow(key: Collation, db: Db, code: Code): Option<Row> {
    if key(code) in db.rows then Some(db.rows[key(code)]) else None
  }

  /** `increment_clicks`; true when it raises. */
  function Bump(key: Collation, db: Db, code: Code, o: Outcome): (Db, bool) {
    if o == Fails then (db, true)
    else if key(code) !in db.rows then (db, o == ReplyLost)
    else
      var row := db.rows[key(code)];
      (Db(db.rows[key(code) := row.(clicks := row.clicks + 1)], db.committed + [Click(code)]), o == ReplyLost)
  }

  /** `set_url`: an error is only logged, so nothing but the store itself shows whether it worked. */
  function Cached(cache: map<Code, Url>, code: Code, url: Url, stored: bool): map<Code, Url> {
    if stored then cache[code := url] else cache
  }

  // ---- the handlers, one call at a time -------------------------------------------------------------

  function Finish(s: Shop, id: Id, reply: Reply): Shop {
    s.(tasks := s.tasks - {id}, answers := s.answers + [Answer(id, reply)])
  }

  function Goto(s: Shop, id: Id, task: Task): Shop { s.(tasks := s.tasks[id := task]) }

  /** The worker of `id` dies, with its response if it had decided one. */
  function Kill(s: Shop, id: Id): Shop {
    s.(tasks := s.tasks - {id},
       unsent := if id in s.tasks && s.tasks[id].Replying? then s.unsent + [s.tasks[id].reply] else s.unsent)
  }

  function TryInsertStep(key: Collation, s: Shop, id: Id, task: Task, code: Code, o: Outcome): Shop
    requires task.Inserting?
  {
    var (db, raised) := InsertRow(key, s.db, id, code, task.url, o);
    Goto(s.(db := db), id, AfterTry(task, code, raised))
  }

  /** Break out of the loop, run out of attempts, or try again. */
  function AfterTry(task: Task, code: Code, raised: bool): Task
    requires task.Inserting?
  {
    if !raised then Publishing(code, task.url)
    else if task.failed + 1 >= ATTEMPTS then Replying(Unallocated)
    else Inserting(task.url, task.failed + 1)
  }

  function LookStep(s: Shop, id: Id, code: Code, up: bool): Shop {
    Goto(s, id, if up && code in s.cache then Counting(code, s.cache[code]) else Fetching(code))
  }

  function FetchStep(key: Collation, s: Shop, id: Id, code: Code, up: bool): Shop {
    if !up then Goto(s, id, Replying(ServerError(code, false)))
    else
      match FindRow(key, s.db, code)
      case None => Goto(s, id, Replying(NotFound(code)))
      case Some(row) => Goto(s, id, Filling(code, row.url))
  }

  function CountStep(key: Collation, s: Shop, id: Id, task: Task, o: Outcome): Shop
    requires task.Counting?
  {
    var (db, raised) := Bump(key, s.db, task.code, o);
    Goto(s.(db := db), id,
         Replying(if raised then ServerError(task.code, db != s.db) else Redirect(task.code, task.url)))
  }

  /** The handler `id`, standing at `task`, makes a call; one that does not fit changes nothing. */
  function CallStep(key: Collation, s: Shop, id: Id, task: Task, call: Call): Shop {
    match call
    case TryInsert(code, o) => if task.Inserting? then TryInsertStep(key, s, id, task, code, o) else s
    case Publish(stored) =>
      if task.Publishing? then
        Goto(s.(cache := Cached(s.cache, task.code, task.url, stored)), id, Replying(Created(task.code, task.url)))
      else s
    case Look(up) => if task.Looking? then LookStep(s, id, task.code, up) else s
    case Fetch(up) => if task.Fetching? then FetchStep(key, s, id, task.code, up) else s
    case Fill(stored) =>
      if task.Filling? then
        Goto(s.(cache := Cached(s.cache, task.code, task.url, stored)), id, Counting(task.code, task.url))
      else s
    case Count(o) => if task.Counting? then CountStep(key, s, id, task, o) else s
    case Send => if task.Replying? then Finish(s, id, task.reply) else s
  }

  function Next(key: Collation, s: Shop, a: Action): Shop {
    match a
    case Submit(id, url, valid) =>
      if id in s.issued then s
      else
        Goto(s.(issued := s.issued + {id}), id, if valid then Inserting(url, 0) else Replying(BadUrl))
    case Request(id, code) =>
      if id in s.issued then s else Goto(s.(issued := s.issued + {id}), id, Looking(code))
    case Make(id, call) => if id in s.tasks then CallStep(key, s, id, s.tasks[id], call) else s
    case Die(id) => Kill(s, id)
    case Evict(code) => s.(cache := s.cache - {code})
  }

  function Run(key: Collation, s: Shop, actions: seq<Action>): Shop {
    if actions == [] then s
    else Next(key, Run(key, s, actions[..|actions| - 1]), actions[|actions| - 1])
  }

  const OPENING := Shop(Db(map[], []), map[], map[], {}, [], [])

  // ---- what the statements say, independently of the table --------------------------------------------

  /** The insert that created the row of key `k`. */
  function Creator(key: Collation, log: seq<Statement>, k: string): Option<Statement> {
    if log == [] then None
    else
      var last := log[|log| - 1];
      if last.Insert? && key(last.code) == k then Some(last) else Creator(key, log[..|log| - 1], k)
  }

  function Inserts(key: Collation, log: seq<Statement>, k: string): nat {
    if log == [] then 0
    else
      var last := log[|log| - 1];
      Inserts(key, log[..|log| - 1], k) + (if last.Insert? && key(last.code) == k then 1 else 0)
  }

  function Clicks(key: Collation, log: seq<Statement>, k: string): nat {
    if log == [] then 0
    else
      var last := log[|log| - 1];
      Clicks(key, log[..|log| - 1], k) + (if last.Click? && key(last.code) == k then 1 else 0)
  }

  /** 302s for codes of key `k`. */
  function Redirects(key: Collation, answers: seq<Answer>, k: string): nat {
    if answers == [] then 0
    else
      var last := answers[|answers| - 1].reply;
      Redirects(key, answers[..|answers| - 1], k) + (if last.Redirect? && key(last.code) == k then 1 else 0)
  }

  /** 500s for codes of key `k` whose click had been committed. */
  function LostClicks(key: Collation, answers: seq<Answer>, k: string): nat {
    if answers == [] then 0
    else
      var last := answers[|answers| - 1].reply;
      LostClicks(key, answers[..|answers| - 1], k)
      + (if last.ServerError? && last.counted && key(last.code) == k then 1 else 0)
  }

  /** The response stands for a committed click on the row of key `k`: a 302, or a 500 whose increment had
      committed. */
  predicate Credits(key: Collation, reply: Reply, k: string) {
    (reply.Redirect? || (reply.ServerError? && reply.counted)) && key(reply.code) == k
  }

  /** Such responses that died with their worker. */
  function DeadClicks(key: Collation, unsent: seq<Reply>, k: string): nat {
    if unsent == [] then 0
    else DeadClicks(key, unsent[..|unsent| - 1], k) + (if Credits(key, unsent[|unsent| - 1], k) then 1 else 0)
  }

  /** Requests that hold such a response. */
  ghost function Waiting(key: Collation, tasks: map<Id, Task>, k: string): set<Id> {
    set id | id in tasks && tasks[id].Replying? && Credits(key, tasks[id].reply, k)
  }

  /** The row of key `k` exists when an insert created it; it was created once, by the insert the log
      holds, and counts the log's clicks. */
  ghost predicate RowOk(key: Collation, db: Db, k: string) {
    match Creator(key, db.committed, k)
    case None => k !in db.rows && Clicks(key, db.committed, k) == 0 && Inserts(key, db.committed, k) == 0
    case Some(ins) =>
      && ins.Insert? && k in db.rows
      && db.rows[k] == Row(ins.code, ins.url, Clicks(key, db.committed, k))
      && Inserts(key, db.committed, k) == 1
  }

  ghost predicate RowsOk(key: Collation, db: Db) { forall k :: RowOk(key, db, k) }

  /** The row that `code` denotes was created with `url`. */
  ghost predicate Leads(key: Collation, log: seq<Statement>, code: Code, url: Url) {
    var ins := Creator(key, log, key(code));
    ins.Some? && ins.value.Insert? && ins.value.url == url
  }

  ghost predicate CacheOk(key: Collation, log: seq<Statement>, cache: map<Code, Url>) {
    forall c :: c in cache ==> Leads(key, log, c, cache[c])
  }

  ghost predicate TaskOk(key: Collation, log: seq<Statement>, id: Id, task: Task) {
    match task
    case Inserting(_, failed) => failed < ATTEMPTS
    case Publishing(c, u) => Creator(key, log, key(c)) == Some(Insert(id, c, u))
    case Filling(c, u) => Leads(key, log, c, u)
    case Counting(c, u) => Leads(key, log, c, u)
    case Replying(reply) => AnswerOk(key, log, Answer(id, reply))
    case _ => true
  }

  ghost predicate TasksOk(key: Collation, log: seq<Statement>, tasks: map<Id, Task>) {
    forall id :: id in tasks ==> TaskOk(key, log, id, tasks[id])
  }

  ghost predicate AnswerOk(key: Collation, log: seq<Statement>, a: Answer) {
    match a.reply
    case Created(c, u) => Creator(key, log, key(c)) == Some(Insert(a.id, c, u))
    case Redirect(c, u) => Leads(key, log, c, u)
    case _ => true
  }

  ghost predicate AnswersOk(key: Collation, log: seq<Statement>, answers: seq<Answer>) {
    forall i :: 0 <= i < |answers| ==> AnswerOk(key, log, answers[i])
  }

  ghost predicate AnsweredOnce(tasks: map<Id, Task>, issued: set<Id>, answers: seq<Answer>) {
    && (forall id :: id in tasks ==> id in issued)
    && (forall i :: 0 <= i < |answers| ==> answers[i].id in issued && answers[i].id !in tasks)
    && (forall i, j :: 0 <= i < j < |answers| ==> answers[i].id != answers[j].id)
  }

  /** Every committed click is accounted for by a response that was sent, died, or is about to be sent. */
  ghost predicate Accounted(key: Collation, s: Shop) {
    forall k :: Clicks(key, s.db.committed, k)
      == Redirects(key, s.answers, k) + LostClicks(key, s.answers, k) + DeadClicks(key, s.unsent, k) + |Waiting(key, s.tasks, k)|
  }

  ghost predicate Inv(key: Collation, s: Shop) {
    && RowsOk(key, s.db)
    && CacheOk(key, s.db.committed, s.cache)
    && TasksOk(key, s.db.committed, s.tasks)
    && AnswersOk(key, s.db.committed, s.answers)
    && AnsweredOnce(s.tasks, s.issued, s.answers)
    && Accounted(key, s)
  }

  // ---- one statement ------------------------------------------------------------------------------

  /** Rows, once created, keep their creator. */
  ghost predicate Extends(key: Collation, log: seq<Statement>, longer: seq<Statement>) {
    forall k :: Creator(key, log, k).Some? ==> Creator(key, longer, k) == Creator(key, log, k)
  }

  lemma Unsnoc<T>(s: seq<T>, x: T)
    ensures (s + [x])[..|s + [x]| - 1] == s && (s + [x])[|s + [x]| - 1] == x
  {
  }

  /** An insert never takes over an existing row. */
  lemma InsertKeepsRows(key: Collation, db: Db, id: Id, code: Code, url: Url, o: Outcome)
    requires RowsOk(key, db)
    ensures var (after, raised) := InsertRow(key, db, id, code, url, o);
      && RowsOk(key, after) && Extends(key, db.committed, after.committed)
      && (!raised ==> Creator(key, after.committed, key(code)) == Some(Insert(id, code, url)))
      && (forall k :: Clicks(key, after.committed, k) == Clicks(key, db.committed, k))
  {
    Unsnoc(db.committed, Insert(id, code, url));
    var (after, _) := InsertRow(key, db, id, code, url, o);
    assert after == db || (key(code) !in db.rows && after.committed == db.committed + [Insert(id, code, url)]);
    assert RowOk(key, db, key(code));
    forall k
      ensures RowOk(key, after, k)
      ensures Creator(key, db.committed, k).Some? ==> Creator(key, after.committed, k) == Creator(key, db.committed, k)
    {
      assert RowOk(key, db, k);
    }
  }

  lemma BumpKeepsRows(key: Collation, db: Db, code: Code, o: Outcome)
    requires RowsOk(key, db)
    ensures var (after, raised) := Bump(key, db, code, o);
      && RowsOk(key, after) && Extends(key, db.committed, after.committed)
      && (forall k :: Clicks(key, after.committed, k)
                      == Clicks(key, db.committed, k) + (if after != db && k == key(code) then 1 else 0))
  {
    Unsnoc(db.committed, Click(code));
    var (after, _) := Bump(key, db, code, o);
    assert after != db ==> after.committed == db.committed + [Click(code)];
    assert RowOk(key, db, key(code));
    forall k
      ensures RowOk(key, after, k)
      ensures Creator(key, db.committed, k).Some? ==> Creator(key, after.committed, k) == Creator(key, db.committed, k)
    {
      assert RowOk(key, db, k);
    }
  }

  // ---- one step -----------------------------------------------------------------------------------

  /** Redirects and lost clicks as they grow by one answer. */
  lemma AnswerCounts(key: Collation, answers: seq<Answer>, id: Id, reply: Reply)
    ensures forall k :: Redirects(key, answers + [Answer(id, reply)], k)
                        == Redirects(key, answers, k) + (if reply.Redirect? && key(reply.code) == k then 1 else 0)
    ensures forall k :: LostClicks(key, answers + [Answer(id, reply)], k)
                        == LostClicks(key, answers, k)
                           + (if reply.ServerError? && reply.counted && key(reply.code) == k then 1 else 0)
  {
    Unsnoc(answers, Answer(id, reply));
  }

  /** Everything but the table survives a longer log. */
  lemma LongerLog(key: Collation, s: Shop, db: Db)
    requires Inv(key, s) && Extends(key, s.db.committed, db.committed)
    ensures CacheOk(key, db.committed, s.cache)
    ensures TasksOk(key, db.committed, s.tasks)
    ensures AnswersOk(key, db.committed, s.answers)
  {
    var log, longer := s.db.committed, db.committed;
    forall c | c in s.cache ensures Leads(key, longer, c, s.cache[c]) {
      assert Leads(key, log, c, s.cache[c]);
    }
    forall id | id in s.tasks ensures TaskOk(key, longer, id, s.tasks[id]) {
      assert TaskOk(key, log, id, s.tasks[id]);
    }
    forall i | 0 <= i < |s.answers| ensures AnswerOk(key, longer, s.answers[i]) {
      assert AnswerOk(key, log, s.answers[i]);
    }
  }

  predicate Credited(key: Collation, task: Task, k: string) { task.Replying? && Credits(key, task.reply, k) }

  lemma WaitingWithout(key: Collation, tasks: map<Id, Task>, id: Id, k: string)
    requires id in tasks
    ensures |Waiting(key, tasks, k)| == |Waiting(key, tasks - {id}, k)| + (if Credited(key, tasks[id], k) then 1 else 0)
  {
    var rest := Waiting(key, tasks - {id}, k);
    assert Waiting(key, tasks, k) == if Credited(key, tasks[id], k) then rest + {id} else rest;
  }

  /** Waiting requests when one task is replaced. */
  lemma WaitingPut(key: Collation, tasks: map<Id, Task>, id: Id, task: Task, k: string)
    ensures |Waiting(key, tasks[id := task], k)| == |Waiting(key, tasks, k)|
      + (if Credited(key, task, k) then 1 else 0) - (if id in tasks && Credited(key, tasks[id], k) then 1 else 0)
  {
    assert tasks[id := task] - {id} == tasks - {id};
    WaitingWithout(key, tasks[id := task], id, k);
    if id in tasks { WaitingWithout(key, tasks, id, k); } else { assert tasks - {id} == tasks; }
  }

  /** Sending a response moves it from the waiting ones to the sent ones. */
  lemma SendKeeps(key: Collation, s: Shop, id: Id)
    requires Inv(key, s) && id in s.tasks && s.tasks[id].Replying?
    ensures Inv(key, Finish(s, id, s.tasks[id].reply))
  {
    assert TaskOk(key, s.db.committed, id, s.tasks[id]);
    SendAccounts(key, s, id);
  }

  lemma SendAccounts(key: Collation, s: Shop, id: Id)
    requires Accounted(key, s) && id in s.tasks && s.tasks[id].Replying?
    ensures Accounted(key, Finish(s, id, s.tasks[id].reply))
  {
    var reply := s.tasks[id].reply;
    var t := Finish(s, id, reply);
    AnswerCounts(key, s.answers, id, reply);
    forall k ensures Clicks(key, t.db.committed, k)
      == Redirects(key, t.answers, k) + LostClicks(key, t.answers, k) + DeadClicks(key, t.unsent, k) + |Waiting(key, t.tasks, k)|
    {
      WaitingWithout(key, s.tasks, id, k);
    }
  }

  /** A dying worker takes its response along, and with it the trace of its click. */
  lemma KillKeeps(key: Collation, s: Shop, id: Id, t: Shop)
    requires Inv(key, s) && id in s.tasks && t == Kill(s, id)
    ensures Inv(key, t)
  {
    KillAccounts(key, s, id);
  }

  lemma KillAccounts(key: Collation, s: Shop, id: Id)
    requires Accounted(key, s) && id in s.tasks
    ensures Accounted(key, Kill(s, id))
  {
    var t := Kill(s, id);
    if s.tasks[id].Replying? { Unsnoc(s.unsent, s.tasks[id].reply); }
    forall k ensures Clicks(key, t.db.committed, k)
      == Redirects(key, t.answers, k) + LostClicks(key, t.answers, k) + DeadClicks(key, t.unsent, k) + |Waiting(key, t.tasks, k)|
    {
      WaitingWithout(key, s.tasks, id, k);
    }
  }

  /** A handler moves on without a click. */
  lemma GotoKeeps(key: Collation, s: Shop, id: Id, task: Task)
    requires Inv(key, s) && TaskOk(key, s.db.committed, id, task)
    requires id in s.issued && (forall i :: 0 <= i < |s.answers| ==> s.answers[i].id != id)
    requires forall k :: !Credited(key, task, k) && !(id in s.tasks && Credited(key, s.tasks[id], k))
    ensures Inv(key, Goto(s, id, task))
  {
    forall k ensures |Waiting(key, Goto(s, id, task).tasks, k)| == |Waiting(key, s.tasks, k)| {
      WaitingPut(key, s.tasks, id, task, k);
    }
  }

  lemma InsertKeeps(key: Collation, s: Shop, id: Id, code: Code, url: Url, o: Outcome)
    requires Inv(key, s)
    ensures var (db, raised) := InsertRow(key, s.db, id, code, url, o);
      Inv(key, s.(db := db)) && (!raised ==> Creator(key, db.committed, key(code)) == Some(Insert(id, code, url)))
  {
    InsertKeepsRows(key, s.db, id, code, url, o);
    LongerLog(key, s, InsertRow(key, s.db, id, code, url, o).0);
  }

  lemma TryInsertKeeps(key: Collation, s: Shop, id: Id, code: Code, o: Outcome)
    requires Inv(key, s) && id in s.tasks && s.tasks[id].Inserting?
    ensures Inv(key, TryInsertStep(key, s, id, s.tasks[id], code, o))
  {
    var task := s.tasks[id];
    var (db, raised) := InsertRow(key, s.db, id, code, task.url, o);
    InsertKeeps(key, s, id, code, task.url, o);
    assert TaskOk(key, db.committed, id, AfterTry(task, code, raised));
    GotoKeeps(key, s.(db := db), id, AfterTry(task, code, raised));
  }

  lemma CountKeeps(key: Collation, s: Shop, id: Id, o: Outcome)
    requires Inv(key, s) && id in s.tasks && s.tasks[id].Counting?
    ensures Inv(key, CountStep(key, s, id, s.tasks[id], o))
  {
    var task := s.tasks[id];
    assert TaskOk(key, s.db.committed, id, task);
    BumpKeepsRows(key, s.db, task.code, o);
    var (db, raised) := Bump(key, s.db, task.code, o);
    LongerLog(key, s, db);
    var reply := if raised then ServerError(task.code, db != s.db) else Redirect(task.code, task.url);
    assert Leads(key, db.committed, task.code, task.url);
    assert RowOk(key, s.db, key(task.code));
    CountAccounts(key, s, id, db, reply);
  }

  lemma CountAccounts(key: Collation, s: Shop, id: Id, db: Db, reply: Reply)
    requires Accounted(key, s) && id in s.tasks && !s.tasks[id].Replying?
    requires forall k :: Clicks(key, db.committed, k) == Clicks(key, s.db.committed, k) + (if Credits(key, reply, k) then 1 else 0)
    ensures Accounted(key, Goto(s.(db := db), id, Replying(reply)))
  {
    var t := Goto(s.(db := db), id, Replying(reply));
    forall k ensures Clicks(key, t.db.committed, k)
      == Redirects(key, t.answers, k) + LostClicks(key, t.answers, k) + DeadClicks(key, t.unsent, k) + |Waiting(key, t.tasks, k)|
    {
      WaitingPut(key, s.tasks, id, Replying(reply), k);
    }
  }

  lemma CacheKeeps(key: Collation, s: Shop, code: Code, url: Url, stored: bool)
    requires Inv(key, s) && Leads(key, s.db.committed, code, url)
    ensures Inv(key, s.(cache := Cached(s.cache, code, url, stored)))
  {
  }

  lemma FetchKeeps(key: Collation, s: Shop, id: Id, code: Code, up: bool)
    requires Inv(key, s) && id in s.tasks && !s.tasks[id].Replying?
    ensures Inv(key, FetchStep(key, s, id, code, up))
  {
    var row := FindRow(key, s.db, code);
    assert RowOk(key, s.db, key(code));
    if !up { GotoKeeps(key, s, id, Replying(ServerError(code, false))); }
    else if row.None? { GotoKeeps(key, s, id, Replying(NotFound(code))); }
    else { GotoKeeps(key, s, id, Filling(code, row.value.url)); }
  }

  lemma ArrivalKeeps(key: Collation, s: Shop, id: Id, task: Task)
    requires Inv(key, s) && id !in s.issued && TaskOk(key, s.db.committed, id, task)
    requires forall k :: !Credited(key, task, k)
    ensures Inv(key, Goto(s.(issued := s.issued + {id}), id, task))
  {
    var t := s.(issued := s.issued + {id});
    assert Inv(key, t);
    GotoKeeps(key, t, id, task);
  }

  lemma NextKeeps(key: Collation, s: Shop, a: Action, t: Shop)
    requires Inv(key, s) && t == Next(key, s, a)
    ensures Inv(key, t)
  {
    match a
    case Submit(id, url, valid) =>
      if id !in s.issued { ArrivalKeeps(key, s, id, if valid then Inserting(url, 0) else Replying(BadUrl)); }
    case Request(id, code) => if id !in s.issued { ArrivalKeeps(key, s, id, Looking(code)); }
    case Make(id, call) => if id in s.tasks { CallKeeps(key, s, id, call); }
    case Die(id) => if id in s.tasks { KillKeeps(key, s, id, Kill(s, id)); } else { assert s.tasks - {id} == s.tasks; }
    case Evict(code) =>
  }

  lemma CallKeeps(key: Collation, s: Shop, id: Id, call: Call)
    requires Inv(key, s) && id in s.tasks
    ensures Inv(key, CallStep(key, s, id, s.tasks[id], call))
  {
    var task := s.tasks[id];
    assert TaskOk(key, s.db.committed, id, task);
    match call
    case TryInsert(code, o) => if task.Inserting? { TryInsertKeeps(key, s, id, code, o); }
    case Publish(stored) =>
      if task.Publishing? {
        CacheKeeps(key, s, task.code, task.url, stored);
        GotoKeeps(key, s.(cache := Cached(s.cache, task.code, task.url, stored)), id, Replying(Created(task.code, task.url)));
      }
    case Look(up) =>
      if task.Looking? {
        var code := task.code;
        GotoKeeps(key, s, id, if up && code in s.cache then Counting(code, s.cache[code]) else Fetching(code));
      }
    case Fetch(up) => if task.Fetching? { FetchKeeps(key, s, id, task.code, up); }
    case Fill(stored) =>
      if task.Filling? {
        CacheKeeps(key, s, task.code, task.url, stored);
        GotoKeeps(key, s.(cache := Cached(s.cache, task.code, task.url, stored)), id, Counting(task.code, task.url));
      }
    case Count(o) => if task.Counting? { CountKeeps(key, s, id, o); }
    case Send => if task.Replying? { SendKeeps(key, s, id); }
  }

  lemma {:induction false} RunKeeps(key: Collation, s: Shop, actions: seq<Action>)
    requires Inv(key, s)
    ensures Inv(key, Run(key, s, actions))
  {
    if actions != [] {
      RunKeeps(key, s, actions[..|actions| - 1]);
      NextKeeps(key, Run(key, s, actions[..|actions| - 1]), actions[|actions| - 1], Run(key, s, actions));
    }
  }

  // ---- what clients may rely on, in every interleaving ---------------------------------------------

  lemma ReachableIsSound(key: Collation, actions: seq<Action>)
    ensures Inv(key, Run(key, OPENING, actions))
  {
    RunKeeps(key, OPENING, actions);
  }

  /** The row a code denotes, and the one insert that made it. */
  lemma RowOfCode(key: Collation, s: Shop, code: Code, url: Url)
    requires RowsOk(key, s.db) && Leads(key, s.db.committed, code, url)
    ensures FindRow(key, s.db, code).Some? && FindRow(key, s.db, code).value.url == url
    ensures Inserts(key, s.db.committed, key(code)) == 1
    ensures Creator(key, s.db.committed, key(code)).Some? && Creator(key, s.db.committed, key(code)).value in s.db.committed
  {
    assert RowOk(key, s.db, key(code));
    CreatorIsInLog(key, s.db.committed, key(code));
  }

  lemma {:induction false} CreatorIsInLog(key: Collation, log: seq<Statement>, k: string)
    ensures var c := Creator(key, log, k); c.Some? ==> c.value in log && c.value.Insert? && key(c.value.code) == k
  {
    if log != [] {
      CreatorIsInLog(key, log[..|log| - 1], k);
    }
  }

  /** Whatever the cache holds is the URL of the row its code denotes. */
  lemma CacheAgreesWithTable(key: Collation, actions: seq<Action>, s: Shop, code: Code)
    requires s == Run(key, OPENING, actions) && code in s.cache
    ensures FindRow(key, s.db, code).Some? && FindRow(key, s.db, code).value.url == s.cache[code]
  {
    ReachableIsSound(key, actions);
    assert Leads(key, s.db.committed, code, s.cache[code]);
    RowOfCode(key, s, code, s.cache[code]);
  }

  /** A 302 leads to the URL of the one insert that created the row, and the row still has that URL. */
  lemma RedirectsLeadHome(key: Collation, actions: seq<Action>, s: Shop, i: nat)
    requires s == Run(key, OPENING, actions) && i < |s.answers| && s.answers[i].reply.Redirect?
    ensures var r := s.answers[i].reply;
      && Inserts(key, s.db.committed, key(r.code)) == 1
      && (exists ins :: ins in s.db.committed && ins.Insert? && key(ins.code) == key(r.code) && ins.url == r.url)
      && FindRow(key, s.db, r.code).Some? && FindRow(key, s.db, r.code).value.url == r.url
  {
    ReachableIsSound(key, actions);
    var r := s.answers[i].reply;
    assert AnswerOk(key, s.db.committed, s.answers[i]);
    RowOfCode(key, s, r.code, r.url);
    CreatorIsInLog(key, s.db.committed, key(r.code));
  }

  /** Two 201s never name the same row, nor even the same code up to collation; each names a row that
      its own request inserted. */
  lemma CreatedCodesAreDistinct(key: Collation, actions: seq<Action>, s: Shop, i: nat, j: nat)
    requires s == Run(key, OPENING, actions) && i < j < |s.answers|
    requires s.answers[i].reply.Created? && s.answers[j].reply.Created?
    ensures var (x, y) := (s.answers[i], s.answers[j]);
      && key(x.reply.code) != key(y.reply.code)
      && Insert(x.id, x.reply.code, x.reply.url) in s.db.committed
      && Insert(y.id, y.reply.code, y.reply.url) in s.db.committed
  {
    ReachableIsSound(key, actions);
    var (x, y) := (s.answers[i], s.answers[j]);
    assert AnswerOk(key, s.db.committed, x) && AnswerOk(key, s.db.committed, y);
    RowOfCode(key, s, x.reply.code, x.reply.url);
    RowOfCode(key, s, y.reply.code, y.reply.url);
  }

  /** A row's clicks are the committed increments: its 302s, the 500s whose increment had committed, and the
      committed increments whose response died with the worker or is still to be sent. */
  lemma ClicksAreAccounted(key: Collation, actions: seq<Action>, s: Shop, k: string)
    requires s == Run(key, OPENING, actions) && k in s.db.rows
    ensures s.db.rows[k].clicks == Clicks(key, s.db.committed, k)
    ensures s.db.rows[k].clicks
         == Redirects(key, s.answers, k) + LostClicks(key, s.answers, k) + DeadClicks(key, s.unsent, k) + |Waiting(key, s.tasks, k)|
  {
    ReachableIsSound(key, actions);
    assert RowOk(key, s.db, k);
  }

  /** So no row counts fewer clicks than it had 302s, and in a quiet moment the two agree exactly when no
      committed increment ended in a 500 or lost its worker. */
  lemma ClicksCoverRedirects(key: Collation, actions: seq<Action>, s: Shop, k: string)
    requires s == Run(key, OPENING, actions) && k in s.db.rows
    ensures s.db.rows[k].clicks >= Redirects(key, s.answers, k)
    ensures s.tasks == map[] ==>
      (s.db.rows[k].clicks == Redirects(key, s.answers, k)
       <==> LostClicks(key, s.answers, k) == 0 && DeadClicks(key, s.unsent, k) == 0)
  {
    ClicksAreAccounted(key, actions, s, k);
    assert s.tasks == map[] ==> Waiting(key, s.tasks, k) == {};
  }

  /** When Redis drops an entry the next lookup finds the same URL in the table. */
  lemma EvictionIsInvisible(key: Collation, s: Shop, id: Id, code: Code, up: bool)
    requires Inv(key, s) && code in s.cache && id in s.tasks && s.tasks[id] == Looking(code)
    ensures var t := Next(key, Next(key, s, Evict(code)), Make(id, Look(up)));
      code !in t.cache && t.tasks == s.tasks[id := Fetching(code)]
      && Next(key, t, Make(id, Fetch(true))).tasks[id] == Filling(code, s.cache[code])
  {
    RowOfCode(key, s, code, s.cache[code]);
  }

  /** A worker killed between the commit and the response leaves a click without a 302: from every state with a
      request about to count. */
  lemma DeathAfterCommit(key: Collation, s: Shop, id: Id, k: string)
    requires Inv(key, s) && id in s.tasks && s.tasks[id].Counting? && k == key(s.tasks[id].code)
    ensures var t := Next(key, Next(key, s, Make(id, Count(Works))), Die(id));
      && k in s.db.rows && k in t.db.rows && t.db.rows[k].clicks == s.db.rows[k].clicks + 1
      && t.answers == s.answers && id !in t.tasks
      && DeadClicks(key, t.unsent, k) == DeadClicks(key, s.unsent, k) + 1
  {
    var task := s.tasks[id];
    assert TaskOk(key, s.db.committed, id, task);
    RowOfCode(key, s, task.code, task.url);
    Unsnoc(s.unsent, Redirect(task.code, task.url));
  }

  /** `id` has decided on a 404 for the row of key `k`. */
  ghost predicate Missed(key: Collation, tasks: map<Id, Task>, id: Id, k: string) {
    id in tasks && tasks[id].Replying? && tasks[id].reply.NotFound? && key(tasks[id].reply.code) == k
  }

  /** Every 404 for `k` sent from `from` on, or still to be sent, had been decided in `before`. */
  ghost predicate OnlyMissedBefore(key: Collation, before: map<Id, Task>, t: Shop, from: nat, k: string) {
    && (forall i :: from <= i < |t.answers| && t.answers[i].reply.NotFound? && key(t.answers[i].reply.code) == k
          ==> Missed(key, before, t.answers[i].id, k))
    && (forall id :: Missed(key, t.tasks, id, k) ==> Missed(key, before, id, k))
  }

  /** Once a code's row exists, in particular once its 201 was sent, a request for it is answered 404 only if
      it had read the table before: one that arrives later never is. */
  lemma {:induction false} NoNotFoundOnceCreated(key: Collation, s: Shop, actions: seq<Action>, k: string)
    requires k in s.db.rows
    ensures var t := Run(key, s, actions);
      && k in t.db.rows && |s.answers| <= |t.answers| && t.db.rows[k].url == s.db.rows[k].url
      && OnlyMissedBefore(key, s.tasks, t, |s.answers|, k)
  {
    if actions != [] {
      var front := actions[..|actions| - 1];
      NoNotFoundOnceCreated(key, s, front, k);
      NextNotFound(key, s.tasks, Run(key, s, front), actions[|actions| - 1], |s.answers|, k);
    }
  }

  lemma NextNotFound(key: Collation, before: map<Id, Task>, s: Shop, a: Action, from: nat, k: string)
    requires k in s.db.rows && from <= |s.answers| && OnlyMissedBefore(key, before, s, from, k)
    ensures var t := Next(key, s, a);
      && k in t.db.rows && t.db.rows[k].url == s.db.rows[k].url && |s.answers| <= |t.answers|
      && OnlyMissedBefore(key, before, t, from, k)
  {
    NextMisses(key, s, a, k);
    var t := Next(key, s, a);
    forall i | from <= i < |t.answers| && t.answers[i].reply.NotFound? && key(t.answers[i].reply.code) == k
      ensures Missed(key, before, t.answers[i].id, k)
    {
      if i == |s.answers| { assert Missed(key, s.tasks, t.answers[i].id, k); } else { assert t.answers[i] == s.answers[i]; }
    }
  }

  /** With the row in place a step decides on no 404, and sends only one already decided on. */
  lemma NextMisses(key: Collation, s: Shop, a: Action, k: string)
    requires k in s.db.rows
    ensures var t := Next(key, s, a);
      && k in t.db.rows && t.db.rows[k].url == s.db.rows[k].url
      && (forall id :: Missed(key, t.tasks, id, k) ==> Missed(key, s.tasks, id, k))
      && (t.answers == s.answers
          || exists x: Answer :: t.answers == s.answers + [x] && x.id in s.tasks && s.tasks[x.id] == Replying(x.reply))
  {
    match a
    case Submit(id, url, valid) =>
    case Request(id, code) =>
    case Make(id, call) =>
      if id in s.tasks {
        CallMisses(key, s, id, call, k);
      }
    case Die(id) =>
    case Evict(code) =>
  }

  lemma CallMisses(key: Collation, s: Shop, id: Id, call: Call, k: string)
    requires k in s.db.rows && id in s.tasks
    ensures var t := CallStep(key, s, id, s.tasks[id], call);
      && k in t.db.rows && t.db.rows[k].url == s.db.rows[k].url
      && (forall id :: Missed(key, t.tasks, id, k) ==> Missed(key, s.tasks, id, k))
      && (t.answers == s.answers
          || exists x: Answer :: t.answers == s.answers + [x] && x.id in s.tasks && s.tasks[x.id] == Replying(x.reply))
  {
    match call
    case TryInsert(_, _) => case Publish(_) => case Look(_) => case Fetch(_) => case Fill(_) => case Count(_) =>
    case Send =>
      if s.tasks[id].Replying? {
        var x := Answer(id, s.tasks[id].reply);
        assert CallStep(key, s, id, s.tasks[id], call).answers == s.answers + [x];
      }
  }

  /** No request is answered twice. */
  lemma OneAnswerEach(key: Collation, actions: seq<Action>, s: Shop, i: nat, j: nat)
    requires s == Run(key, OPENING, actions) && i < j < |s.answers|
    ensures s.answers[i].id != s.answers[j].id
  {
    ReachableIsSound(key, actions);
  }

  // ---- every response fits its request -----------------------------------------------------------------

  /** The action that brought request `id` in: the first submission or request under that number. */
  function Arrival(actions: seq<Action>, id: Id): Option<Action> {
    if actions == [] then None
    else
      var before, a := Arrival(actions[..|actions| - 1], id), actions[|actions| - 1];
      if before.Some? then before
      else if (a.Submit? || a.Request?) && a.id == id then Some(a)
      else None
  }

  /** `reply` answers what `a` asked for: 400 an invalid URL, 201 and 503 a valid one, the rest a code. */
  predicate Fits(a: Option<Action>, id: Id, reply: Reply) {
    match reply
    case BadUrl => a.Some? && a.value.Submit? && a.value.id == id && !a.value.valid
    case Created(_, url) => a == Some(Submit(id, url, true))
    case Unallocated => a.Some? && a.value.Submit? && a.value.id == id && a.value.valid
    case Redirect(code, _) => a == Some(Request(id, code))
    case NotFound(code) => a == Some(Request(id, code))
    case ServerError(code, _) => a == Some(Request(id, code))
  }

  predicate TaskFits(a: Option<Action>, id: Id, task: Task) {
    match task
    case Inserting(url, _) => a == Some(Submit(id, url, true))
    case Publishing(_, url) => a == Some(Submit(id, url, true))
    case Looking(code) => a == Some(Request(id, code))
    case Fetching(code) => a == Some(Request(id, code))
    case Filling(code, _) => a == Some(Request(id, code))
    case Counting(code, _) => a == Some(Request(id, code))
    case Replying(reply) => Fits(a, id, reply)
  }

  /** Requests, tasks, answers and inserted rows all go back to what clients asked for. */
  ghost predicate Traced(actions: seq<Action>, s: Shop) {
    && (forall id :: id in s.issued <==> Arrival(actions, id).Some?)
    && (forall id :: id in s.tasks ==> TaskFits(Arrival(actions, id), id, s.tasks[id]))
    && (forall i :: 0 <= i < |s.answers| ==> Fits(Arrival(actions, s.answers[i].id), s.answers[i].id, s.answers[i].reply))
    && (forall i :: 0 <= i < |s.db.committed| ==> InsertFits(actions, s.db.committed[i]))
  }

  predicate InsertFits(actions: seq<Action>, st: Statement) {
    st.Insert? ==> Arrival(actions, st.id) == Some(Submit(st.id, st.url, true))
  }

  lemma ArrivalGrows(actions: seq<Action>, a: Action)
    ensures forall id :: Arrival(actions, id).Some? ==> Arrival(actions + [a], id) == Arrival(actions, id)
    ensures forall id :: Arrival(actions, id).None? ==>
      Arrival(actions + [a], id) == (if (a.Submit? || a.Request?) && a.id == id then Some(a) else None)
  {
    Unsnoc(actions, a);
  }

  /** What one more action leaves of the trace. */
  lemma TraceSurvives(actions: seq<Action>, a: Action, s: Shop)
    requires Traced(actions, s) && !((a.Submit? || a.Request?) && a.id !in s.issued)
    ensures Traced(actions + [a], s)
  {
    ArrivalGrows(actions, a);
    assert forall id :: Arrival(actions + [a], id) == Arrival(actions, id);
  }

  lemma ArrivalTraced(key: Collation, actions: seq<Action>, a: Action, s: Shop)
    requires Traced(actions, s) && (a.Submit? || a.Request?) && a.id !in s.issued
    requires forall id :: id in s.tasks ==> id in s.issued
    ensures Traced(actions + [a], Next(key, s, a))
  {
    ArrivalGrows(actions, a);
    var t := Next(key, s, a);
    assert Arrival(actions + [a], a.id) == Some(a);
    forall i | 0 <= i < |t.db.committed| ensures InsertFits(actions + [a], t.db.committed[i]) {
      assert InsertFits(actions, s.db.committed[i]);
    }
  }

  lemma GotoTraced(actions: seq<Action>, s: Shop, id: Id, task: Task)
    requires Traced(actions, s) && TaskFits(Arrival(actions, id), id, task)
    ensures Traced(actions, Goto(s, id, task))
  {
  }

  lemma CallTraced(key: Collation, actions: seq<Action>, s: Shop, id: Id, call: Call)
    requires Traced(actions, s) && id in s.tasks
    ensures Traced(actions, CallStep(key, s, id, s.tasks[id], call))
  {
    var task := s.tasks[id];
    assert TaskFits(Arrival(actions, id), id, task);
    match call
    case TryInsert(code, o) => if task.Inserting? { InsertTraced(key, actions, s, id, code, o); }
    case Publish(_) => StoreTraced(key, actions, s, id, call);
    case Look(_) => case Fetch(_) =>
    case Fill(_) => StoreTraced(key, actions, s, id, call);
    case Count(o) => if task.Counting? { CountTraced(key, actions, s, id, o); }
    case Send => if task.Replying? { SendTraced(actions, s, id); }
  }

  lemma StoreTraced(key: Collation, actions: seq<Action>, s: Shop, id: Id, call: Call)
    requires Traced(actions, s) && id in s.tasks && (call.Publish? || call.Fill?)
    ensures Traced(actions, CallStep(key, s, id, s.tasks[id], call))
  {
    var task := s.tasks[id];
    assert TaskFits(Arrival(actions, id), id, task);
    if task.Publishing? || task.Filling? {
      var t := s.(cache := Cached(s.cache, task.code, task.url, call.stored));
      assert Traced(actions, t);
    }
  }

  lemma InsertTraced(key: Collation, actions: seq<Action>, s: Shop, id: Id, code: Code, o: Outcome)
    requires Traced(actions, s) && id in s.tasks && s.tasks[id].Inserting?
    ensures Traced(actions, TryInsertStep(key, s, id, s.tasks[id], code, o))
  {
    var task := s.tasks[id];
    var (db, raised) := InsertRow(key, s.db, id, code, task.url, o);
    assert TaskFits(Arrival(actions, id), id, task);
    assert Traced(actions, s.(db := db));
    GotoTraced(actions, s.(db := db), id, AfterTry(task, code, raised));
  }

  lemma CountTraced(key: Collation, actions: seq<Action>, s: Shop, id: Id, o: Outcome)
    requires Traced(actions, s) && id in s.tasks && s.tasks[id].Counting?
    ensures Traced(actions, CountStep(key, s, id, s.tasks[id], o))
  {
    var task := s.tasks[id];
    var (db, raised) := Bump(key, s.db, task.code, o);
    assert TaskFits(Arrival(actions, id), id, task);
    assert Traced(actions, s.(db := db));
    GotoTraced(actions, s.(db := db), id,
               Replying(if raised then ServerError(task.code, db != s.db) else Redirect(task.code, task.url)));
  }

  lemma SendTraced(actions: seq<Action>, s: Shop, id: Id)
    requires Traced(actions, s) && id in s.tasks && s.tasks[id].Replying?
    ensures Traced(actions, Finish(s, id, s.tasks[id].reply))
  {
    assert TaskFits(Arrival(actions, id), id, s.tasks[id]);
  }

  lemma {:induction false} RunTraced(key: Collation, actions: seq<Action>)
    ensures Traced(actions, Run(key, OPENING, actions))
  {
    if actions != [] {
      var front, a := actions[..|actions| - 1], actions[|actions| - 1];
      RunTraced(key, front);
      ReachableIsSound(key, front);
      assert actions == front + [a];
      NextTraced(key, front, a, Run(key, OPENING, front));
    }
  }

  lemma NextTraced(key: Collation, actions: seq<Action>, a: Action, s: Shop)
    requires Traced(actions, s) && forall id :: id in s.tasks ==> id in s.issued
    ensures Traced(actions + [a], Next(key, s, a))
  {
    if (a.Submit? || a.Request?) && a.id !in s.issued {
      ArrivalTraced(key, actions, a, s);
    } else {
      TraceSurvives(actions, a, s);
      if a.Make? && a.id in s.tasks { CallTraced(key, actions + [a], s, a.id, a.call); }
    }
  }

  /** In every interleaving each response fits the request it answers: a 400 answers an invalid URL and an
      invalid URL gets nothing else, a 201 names the URL that was submitted, and 302, 404 and 500 the code
      that was asked for. */
  lemma RepliesFitRequests(key: Collation, actions: seq<Action>, s: Shop, i: nat)
    requires s == Run(key, OPENING, actions) && i < |s.answers|
    ensures Fits(Arrival(actions, s.answers[i].id), s.answers[i].id, s.answers[i].reply)
  {
    RunTraced(key, actions);
  }

  /** And every row comes from a request with a valid URL, namely the URL of the row. */
  lemma RowsComeFromValidUrls(key: Collation, actions: seq<Action>, s: Shop, st: Statement)
    requires s == Run(key, OPENING, actions) && st in s.db.committed && st.Insert?
    ensures Arrival(actions, st.id) == Some(Submit(st.id, st.url, true))
  {
    RunTraced(key, actions);
    assert InsertFits(actions, st);
  }
}
