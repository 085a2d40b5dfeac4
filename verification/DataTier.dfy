/** The database scripts in place: setup_replication.sh, promote_replica.sh, restore_db.sh and backup_db.sh
    on two servers, a bucket and the application's configuration. */
module DataTier {
  import opened Basics
  import opened Mysql
  import opened Scripts

  /** A backup file: its size, whether gzip accepts it, whether its text creates a table, and what loading it
      gives. */
  datatype File = File(size: nat, gzip: bool, creates: bool, dump: Dump)

  predicate Verified(f: File) { f.size > 0 && f.gzip && f.creates }

  /** Where a promotion dies: before it stops the IO thread, after so many polls of the relay log, or before its
      n-th command, where the fifth is the edit that points the application at the promoted server and the
      sixth stands for the restart of the application that follows; a later one means that it does not. */
  datatype Death = BeforeIoStop | InPoll(polls: nat) | BeforeCommand(n: nat)

  /** mysql-primary, mysql-replica, the backup bucket and DB_HOST of the application. */
  class Pair {
    var primary: Server
    var replica: Server
    var origin: Dump
    var bucket: map<string, File>
    var latest: Option<string>
    var appHost: Origin

    ghost function State(): Tier
      reads this
    {
      Tier(primary, replica, origin)
    }

    /** The pointer backup_db.sh maintains names a backup that passed every check. */
    ghost predicate Published()
      reads this
    {
      latest.Some? ==> latest.value in bucket && Verified(bucket[latest.value])
    }

    constructor (primary: Server, replica: Server)
      ensures State() == Tier(primary, replica, Dump([], {})) && Published() && appHost == FromPrimary
      ensures forall key :: Chosen(key).None?
    {
      this.primary, this.replica, origin := primary, replica, Dump([], {});
      bucket, latest, appHost := map[], None, FromPrimary;
    }

    /** One SQL command, or one step of the world. */
    method Sql(a: Step)
      modifies this`primary, this`replica, this`origin
      ensures State() == Do(old(State()), a)
    {
      var t := Do(Tier(primary, replica, origin), a);
      primary, replica, origin := t.primary, t.replica, t.origin;
    }

    /** Time passes. */
    method Others(steps: seq<Step>)
      modifies this`primary, this`replica, this`origin
      ensures State() == Run(old(State()), steps)
    {
      var i := 0;
      while i < |steps|
        invariant 0 <= i <= |steps|
        invariant State() == Run(old(State()), steps[..i])
      {
        Sql(steps[i]);
        assert steps[..i + 1][..i] == steps[..i];
        i := i + 1;
      }
      assert steps[..i] == steps;
    }

    /** One command, after what happens before it. */
    method Command(a: Step, before: seq<Step>) returns (accepted: bool)
      modifies this`primary, this`replica, this`origin
      ensures (State(), accepted) == Once(old(State()), before, a)
    {
      Others(before);
      accepted := !Rejected(Tier(primary, replica, origin), a);
      if accepted { Sql(a); }
    }

    /** The first `upTo` commands of a script, up to one the server rejects. */
    method Commands(cmds: seq<Step>, env: seq<seq<Step>>, from: nat, upTo: nat) returns (done: nat)
      requires upTo <= |cmds|
      modifies this`primary, this`replica, this`origin
      ensures (State(), done) == RunCommands(old(State()), cmds, env, from, upTo)
    {
      done := 0;
      ghost var t := State();
      while done < upTo
        invariant 0 <= done <= upTo
        invariant (State(), done) == RunCommands(t, cmds, env, from, done)
      {
        RunNext(t, cmds, env, from, done, State(), Once(State(), At(env, from + done), cmds[done]));
        var accepted := Command(cmds[done], At(env, from + done));
        if !accepted {
          RejectionEnds(t, cmds, env, from, done + 1, upTo);
          return;
        }
        done := done + 1;
      }
    }

    /** scripts/db/setup_replication.sh. */
    method SetupReplication(force: bool, env: seq<seq<Step>>, cut: nat) returns (exit: ScriptExit)
      modifies this`primary, this`replica, this`origin
      ensures (State(), exit) == Setup(old(State()), force, env, cut)
    {
      Others(At(env, 0));
      if !force && replica.io { return AlreadyRunning; }
      SetupCommands(env, Min(cut, |SETUP|));
      if cut < |SETUP| { return Died; }
      AwaitSqlThread(env, 7, 30);
      exit := if replica.sql then Done else Died;
    }

    method SetupCommands(env: seq<seq<Step>>, n: nat)
      requires n <= |SETUP|
      modifies this`primary, this`replica, this`origin
      ensures State() == AfterCommands(old(State()), SETUP, env, 1, n)
    {
      NeverRejected(State(), SETUP, env, 1, n);
      var _ := Commands(SETUP, env, 1, n);
    }

    /** The loop of setup_replication.sh:75-80. */
    method AwaitSqlThread(env: seq<seq<Step>>, from: nat, limit: nat)
      modifies this`primary, this`replica, this`origin
      ensures State() == AwaitSql(old(State()), env, from, limit)
    {
      var polls, next := limit, from;
      while polls > 0 && !replica.sql
        invariant AwaitSql(State(), env, next, polls) == AwaitSql(old(State()), env, from, limit)
      {
        Others(At(env, next));
        polls, next := polls - 1, next + 1;
      }
    }

    /** promote_replica.sh:36, whose failure is ignored. */
    method StopIoThread(fails: bool, env: seq<seq<Step>>)
      modifies this`primary, this`replica, this`origin
      ensures State() == IoStopped(old(State()), fails, env)
    {
      Others(At(env, 0));
      if !fails { Sql(StopIo); }
    }

    /** promote_replica.sh:46-52, up to the n-th command. */
    method Promote(env: seq<seq<Step>>, n: nat)
      requires n <= |PROMOTE|
      modifies this`primary, this`replica, this`origin
      ensures State() == AfterCommands(old(State()), PROMOTE, env, 31, n)
    {
      NeverRejected(State(), PROMOTE, env, 31, n);
      var _ := Commands(PROMOTE, env, 31, n);
    }

    /** The loop of promote_replica.sh:37-43. */
    method DrainRelayLog(env: seq<seq<Step>>, from: nat, limit: nat) returns (drained: bool)
      modifies this`primary, this`replica, this`origin
      ensures (State(), drained) == AwaitDrain(old(State()), env, from, limit)
    {
      var polls, next := limit, from;
      while polls > 0
        invariant AwaitDrain(State(), env, next, polls) == AwaitDrain(old(State()), env, from, limit)
      {
        if replica.sql && replica.relay == [] { return true; }
        Others(At(env, next));
        polls, next := polls - 1, next + 1;
      }
      drained := false;
    }

    /** scripts/db/promote_replica.sh: needs --confirm and a reachable replica, and dies at `death`. */
    method PromoteReplica(confirm: bool, reachable: bool, ioStopFails: bool, env: seq<seq<Step>>, death: Death)
      returns (exit: ScriptExit, drained: bool)
      modifies this`primary, this`replica, this`origin, this`appHost
      ensures !confirm || !reachable ==> exit == Died && State() == old(State()) && appHost == old(appHost)
      ensures confirm && reachable ==>
        match death
        case BeforeIoStop => exit == Died && State() == Run(old(State()), At(env, 0)) && appHost == old(appHost)
        case InPoll(polls) =>
          && exit == Died && appHost == old(appHost)
          && (State(), drained) == AwaitDrain(IoStopped(old(State()), ioStopFails, env), env, 1, Min(polls, 30))
        case BeforeCommand(n) =>
          && State() == Promoting(old(State()), ioStopFails, env, Min(n, |PROMOTE|))
          && drained == PromoteDrained(old(State()), ioStopFails, env).1
          && exit == (if n <= |PROMOTE| + 1 then Died else Done)
          && appHost == (if n <= |PROMOTE| then old(appHost) else FromReplica)
    {
      drained := false;
      if !confirm || !reachable { return Died, drained; }
      if death.BeforeIoStop? {
        Others(At(env, 0));
        return Died, drained;
      }
      StopIoThread(ioStopFails, env);
      drained := DrainRelayLog(env, 1, if death.InPoll? then Min(death.polls, 30) else 30);
      if death.InPoll? { return Died, drained; }
      Promote(env, Min(death.n, |PROMOTE|));
      if death.n <= |PROMOTE| { return Died, drained; }
      appHost := FromReplica;
      exit := if death.n <= |PROMOTE| + 1 then Died else Done;
    }

    /** The dump a restore of `key` ("": the latest backup) would load. */
    function Chosen(key: string): Option<Dump>
      reads this
    {
      var k := if key == "" then latest else Some(key);
      if k.Some? && k.value in bucket && bucket[k.value].gzip then Some(bucket[k.value].dump) else None
    }

    /** scripts/db/restore_db.sh: without --confirm, without a backup or with one that fails its integrity check it
        touches nothing. */
    method RestoreDb(confirm: bool, key: string, replicaUp: bool, env: seq<seq<Step>>, cut: nat) returns (exit: ScriptExit)
      modifies this`primary, this`replica, this`origin
      ensures !confirm || Chosen(key).None? ==> exit == Died && State() == old(State())
      ensures confirm && Chosen(key).Some? ==>
                (State(), exit) == Restore(old(State()), Chosen(key).value, replicaUp, env, cut)
    {
      if !confirm { return Died; }
      var k := if key == "" then latest else Some(key);
      if k.None? || k.value !in bucket { return Died; }
      if !bucket[k.value].gzip { return Died; }
      var d := bucket[k.value].dump;
      var done := Commands(RestorePrimary(d), env, 0, Min(cut, |RestorePrimary(d)|));
      if done < |RestorePrimary(d)| { return Died; }
      if !replicaUp { return Done; }
      done := Commands(RestoreReplica(d), env, 2, Min(cut - 2, |RestoreReplica(d)|));
      exit := if done < |RestoreReplica(d)| then Died else Done;
    }

    /** scripts/db/backup_db.sh: dumps the replica, or the primary when the replica is down; checks the file
        before it uploads and moves the pointer last. `dumps`, `uploads` and `points` are the outcomes of
        mysqldump and of the two puts, the rest is what ended up in the file. */
    method BackupDb(key: string, replicaUp: bool, dumps: bool, size: nat, gzip: bool, creates: bool, uploads: bool, points: bool)
      returns (exit: ScriptExit)
      requires Published()
      modifies this`bucket, this`latest
      ensures Published()
      ensures var file := File(size, gzip, creates, Snapshot(if replicaUp then replica else primary));
              var sound := dumps && Verified(file);
              && (exit == Done <==> sound && uploads && points)
              && bucket == (if sound && uploads then old(bucket)[key := file] else old(bucket))
              && latest == (if exit == Done then Some(key) else old(latest))
              && (exit == Done ==> Chosen("") == Some(file.dump))
              && (sound && uploads && key != "" ==> Chosen(key) == Some(file.dump))
      ensures forall k :: k != "" && k != key ==> Chosen(k) == old(Chosen(k))
    {
      var source := if replicaUp then replica else primary;
      if !dumps { return Died; }
      var file := File(size, gzip, creates, Snapshot(source));
      if file.size == 0 { return Died; }
      if !file.gzip { return Died; }
      if !file.creates { return Died; }
      if !uploads { return Died; }
      bucket := bucket[key := file];
      if !points { return Died; }
      latest := Some(key);
      exit := Done;
    }
  }
}
