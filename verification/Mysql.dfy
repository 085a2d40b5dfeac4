/** Two MySQL servers as far as the database scripts rely on them. Each step is one SQL command or one move
    of a server, taken as atomic: auto-position skips executed GTIDs, RESET REPLICA ALL discards the relay
    log, SET PERSIST survives a restart, RESET MASTER empties the executed set. */
module Mysql {
  import opened Basics

  datatype Origin = FromPrimary | FromReplica
  datatype Gtid = Gtid(server: Origin, n: nat)
  datatype Txn = Txn(gtid: Gtid, body: int)

  /** `data` is the database as the list of transactions it is the replay of. The `kept…` flags are those in
      mysqld-auto.cnf. `source`, `io` and `sql` are the replication settings and threads. */
  datatype Server = Server(
    data: seq<Txn>, executed: set<Gtid>, binlog: seq<Txn>, relay: seq<Txn>,
    source: bool, io: bool, sql: bool,
    readOnly: bool, superReadOnly: bool, keptReadOnly: bool, keptSuperReadOnly: bool)

  /** What `mysqldump --single-transaction --set-gtid-purged=ON` captures. */
  datatype Dump = Dump(data: seq<Txn>, gtids: set<Gtid>)

  /** `origin` records the dump both servers descend from; empty for a fresh pair. */
  datatype Tier = Tier(primary: Server, replica: Server, origin: Dump)

  /** `IoBreaks` stops the IO thread with an error. A connection that is lost and retried is a stretch without
      `Fetch`. */
  datatype Step =
    // servers and clients
    | Commit(n: nat, body: int)
    | WriteReplica(n: nat, body: int)
    | ExpireBinlog(k: nat)
    | Fetch
    | ApplyNext
    | IoBreaks
    | RestartReplica
    // SQL on the replica
    | StopReplica
    | StopIo
    | ResetReplicaAll
    | ChangeSource
    | StartReplica
    | PersistReadOnly(on: bool)
    | PersistSuperReadOnly(on: bool)
    // SQL of a restore
    | ResetPrimary
    | LoadPrimary(dump: Dump)
    | ResetReplica
    | LoadReplica(dump: Dump)

  function Ids(s: seq<Txn>): set<Gtid> { set t | t in s :: t.gtid }

  function Snapshot(s: Server): Dump { Dump(s.data, s.executed) }

  function Purged(s: Server): set<Gtid> { s.executed - Ids(s.binlog) }

  /** GTIDs the replica reports when it asks for what it has not seen. */
  function Have(r: Server): set<Gtid> { r.executed + Ids(r.relay) }

  function FirstMissing(binlog: seq<Txn>, have: set<Gtid>): Option<Txn> {
    if binlog == [] then None
    else if binlog[0].gtid !in have then Some(binlog[0])
    else FirstMissing(binlog[1..], have)
  }

  /** The IO thread gets something only while the source still has every transaction the replica lacks. */
  predicate CanStream(t: Tier) {
    t.replica.source && t.replica.io && Purged(t.primary) <= Have(t.replica)
  }

  function Executes(s: Server, x: Txn): Server {
    s.(data := s.data + [x], executed := s.executed + {x.gtid}, binlog := s.binlog + [x])
  }

  /** One step; a step that is not possible, or that the server rejects, changes nothing. */
  function Do(t: Tier, a: Step): Tier {
    var p, r := t.primary, t.replica;
    match a
    case Commit(n, body) =>
      if Gtid(FromPrimary, n) in p.executed then t else t.(primary := Executes(p, Txn(Gtid(FromPrimary, n), body)))
    case WriteReplica(n, body) =>
      if r.readOnly || Gtid(FromReplica, n) in r.executed then t
      else t.(replica := Executes(r, Txn(Gtid(FromReplica, n), body)))
    case ExpireBinlog(k) => if k > |p.binlog| then t else t.(primary := p.(binlog := p.binlog[k..]))
    case Fetch =>
      if CanStream(t) && FirstMissing(p.binlog, Have(r)).Some?
      then t.(replica := r.(relay := r.relay + [FirstMissing(p.binlog, Have(r)).value])) else t
    case ApplyNext =>
      if r.source && r.sql && r.relay != [] then
        var rest := r.(relay := r.relay[1..]);
        t.(replica := if r.relay[0].gtid in r.executed then rest else Executes(rest, r.relay[0]))
      else t
    case IoBreaks => t.(replica := r.(io := false))
    case RestartReplica =>
      t.(replica := r.(io := false, sql := false, readOnly := r.keptReadOnly, superReadOnly := r.keptSuperReadOnly))
    case StopReplica => t.(replica := r.(io := false, sql := false))
    case StopIo => t.(replica := r.(io := false))
    case ResetReplicaAll => if r.io || r.sql then t else t.(replica := r.(source := false, relay := []))
    case ChangeSource => if r.io || r.sql then t else t.(replica := r.(source := true))
    case StartReplica => if r.source then t.(replica := r.(io := true, sql := true)) else t
    case PersistReadOnly(on) =>
      // switching read_only off switches super_read_only off as well
      t.(replica := if on then r.(readOnly := true, keptReadOnly := true)
                    else r.(readOnly := false, keptReadOnly := false, superReadOnly := false))
    case PersistSuperReadOnly(on) =>
      // switching super_read_only on switches read_only on as well
      t.(replica := if on then r.(superReadOnly := true, keptSuperReadOnly := true, readOnly := true)
                    else r.(superReadOnly := false, keptSuperReadOnly := false))
    case ResetPrimary => t.(primary := p.(executed := {}, binlog := []))
    case LoadPrimary(d) =>
      // the GTID_PURGED in a dump is accepted only on an empty executed set
      if p.executed != {} then t else t.(primary := p.(data := d.data, executed := d.gtids), origin := d)
    case ResetReplica => t.(replica := r.(executed := {}, binlog := []))
    case LoadReplica(d) =>
      if r.executed != {} || r.superReadOnly then t else t.(replica := r.(data := d.data, executed := d.gtids))
  }

  function Run(t: Tier, steps: seq<Step>): Tier {
    if steps == [] then t else Do(Run(t, steps[..|steps| - 1]), steps[|steps| - 1])
  }

  /** Everything but the four commands of a restore. */
  predicate Routine(a: Step) {
    !a.ResetPrimary? && !a.LoadPrimary? && !a.ResetReplica? && !a.LoadReplica?
  }
}
