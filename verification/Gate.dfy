/** The health gate: what a container answers on `/health` (app/main.py:103-139) and the retry loop
    that accepts or rejects it (scripts/healthcheck.sh:25-68). */
module Gate {
  import opened Basics

  type Tag = string

  datatype AppStatus = Ok | Degraded | Error

  /** A response as `curl` sees it; `NoAnswer` is its code 000. */
  datatype Answer = NoAnswer | Http(code: int, status: AppStatus, version: Tag)

  /** What surrounds a probe: whether the app answers at all, how long it takes, which dependencies
      answer their pings. */
  datatype ProbeEnv = ProbeEnv(answers: bool, seconds: nat, primaryUp: bool, replicaUp: bool, redisUp: bool)

  /** The application inside a container; `broken` is BREAK_HEALTHCHECK. */
  datatype App = App(version: Tag, broken: bool)

  const PROBE_TIMEOUT := 5

  /** `health()`: only a reachable primary is required, the other two merely degrade. */
  function Health(app: App, env: ProbeEnv): (a: Answer)
    ensures a.Http?
    ensures a.code == 200 <==> !app.broken && env.primaryUp
    ensures a.code == 200 <==> a.status != Error
    ensures a.code in {200, 500, 503} && (a.code == 500 <==> app.broken)
    ensures a.status == Ok <==> !app.broken && env.primaryUp && env.replicaUp && env.redisUp
    ensures a.version == app.version
  {
    if app.broken then Http(500, Error, app.version)
    else if !env.primaryUp then Http(503, Error, app.version)
    else if !(env.replicaUp && env.redisUp) then Http(200, Degraded, app.version)
    else Http(200, Ok, app.version)
  }

  /** One probe of a slot's port; an empty slot, a silent app and a timeout all read as code 000. */
  function Probe(app: Option<App>, env: ProbeEnv): Answer {
    if app.Some? && env.answers && env.seconds < PROBE_TIMEOUT then Health(app.value, env) else NoAnswer
  }

  /** The acceptance test of one attempt. */
  predicate Accepts(a: Answer, expected: Tag) {
    a.Http? && a.code == 200 && a.status != Error && a.version == expected
  }

  /** The environment of attempt `i` (from 1); past the end of the list nothing answers. */
  function EnvAt(envs: seq<ProbeEnv>, i: int): ProbeEnv {
    if 1 <= i <= |envs| then envs[i - 1] else ProbeEnv(false, 0, false, false, false)
  }

  ghost predicate PassesAt(app: Option<App>, expected: Tag, envs: seq<ProbeEnv>, i: int) {
    Accepts(Probe(app, EnvAt(envs, i)), expected)
  }

  /** Some attempt within the budget is accepted. */
  ghost predicate Passes(app: Option<App>, expected: Tag, retries: int, envs: seq<ProbeEnv>) {
    exists i :: 1 <= i <= retries && PassesAt(app, expected, envs, i)
  }

  /** Seconds one `curl --max-time 5` takes. */
  function ProbeSeconds(env: ProbeEnv): (t: nat)
    ensures t <= PROBE_TIMEOUT && t <= env.seconds
    ensures t == PROBE_TIMEOUT || t == env.seconds
  {
    if env.seconds < PROBE_TIMEOUT then env.seconds else PROBE_TIMEOUT
  }

  /** Seconds the first `n` probes take. */
  function ProbeTime(envs: seq<ProbeEnv>, n: nat): (t: nat)
    ensures t <= n * PROBE_TIMEOUT
    ensures (forall i :: 1 <= i <= n ==> EnvAt(envs, i).seconds >= PROBE_TIMEOUT) ==> t == n * PROBE_TIMEOUT
  {
    if n == 0 then 0 else ProbeTime(envs, n - 1) + ProbeSeconds(EnvAt(envs, n))
  }

  /** Seconds of `n` probes and the pauses between them, and of one pause more if `again`. */
  function Spent(envs: seq<ProbeEnv>, n: nat, interval: nat, again: bool): nat {
    ProbeTime(envs, n) + (if n == 0 || again then n else n - 1) * interval
  }

  lemma SpentNext(envs: seq<ProbeEnv>, n: nat, interval: nat)
    ensures Spent(envs, n + 1, interval, false) == Spent(envs, n, interval, true) + ProbeSeconds(EnvAt(envs, n + 1))
    ensures Spent(envs, n + 1, interval, true) == Spent(envs, n + 1, interval, false) + interval
    ensures Spent(envs, 0, interval, true) == 0
  {
  }

  lemma SpentWithinBudget(envs: seq<ProbeEnv>, n: nat, interval: nat, retries: int)
    requires 1 <= retries && n <= retries
    ensures Spent(envs, n, interval, false) <= retries * PROBE_TIMEOUT + (retries - 1) * interval
  {
    if n > 0 { assert (retries - n) * interval >= 0 && (retries - n) * PROBE_TIMEOUT >= 0; }
  }

  /** `scripts/healthcheck.sh`: exits 0 exactly when an attempt within the budget is accepted, and
      stops at the first such attempt. */
  method HealthCheck(app: Option<App>, expected: Tag, retries: int, interval: nat, envs: seq<ProbeEnv>)
    returns (healthy: bool, probes: nat, sleeps: nat, elapsed: nat)
    ensures healthy <==> Passes(app, expected, retries, envs)
    ensures healthy ==> probes >= 1 && PassesAt(app, expected, envs, probes)
                        && forall i :: 1 <= i < probes ==> !PassesAt(app, expected, envs, i)
    ensures !healthy ==> probes == if retries >= 1 then retries else 0
    ensures probes <= if retries >= 1 then retries else 0
    ensures sleeps == if probes >= 1 then probes - 1 else 0
    ensures elapsed == ProbeTime(envs, probes) + sleeps * interval
    ensures retries >= 1 ==> elapsed <= retries * PROBE_TIMEOUT + (retries - 1) * interval
  {
    var attempt := 1;
    healthy, probes, sleeps, elapsed := false, 0, 0, 0;
    while attempt <= retries
      invariant attempt == probes + 1
      invariant probes <= if retries >= 1 then retries else 0
      invariant forall i :: 1 <= i < attempt ==> !PassesAt(app, expected, envs, i)
      invariant sleeps == if attempt <= retries || probes == 0 then probes else probes - 1
      invariant elapsed == Spent(envs, probes, interval, attempt <= retries)
    {
      var env := EnvAt(envs, attempt);
      var answer := Probe(app, env);
      SpentNext(envs, probes, interval);
      probes := probes + 1;
      elapsed := elapsed + ProbeSeconds(env);
      if Accepts(answer, expected) {
        assert PassesAt(app, expected, envs, attempt);
        healthy := true;
        break;
      }
      attempt := attempt + 1;
      if attempt <= retries {
        sleeps := sleeps + 1;
        elapsed := elapsed + interval;
      }
    }
    if retries >= 1 { SpentWithinBudget(envs, probes, interval, retries); }
  }

  /** The environment in which a sound build answers 200 in time: Redis and the replica do not matter. */
  predicate Serves(env: ProbeEnv) {
    env.answers && env.seconds < PROBE_TIMEOUT && env.primaryUp
  }

  /** The gate passes exactly when the slot holds a non-drill build of the expected version and, at some
      attempt within the budget, it answered in time with the primary reachable. In particular a drill
      build fails for every budget and every environment. */
  lemma PassMeansServing(app: Option<App>, expected: Tag, retries: int, envs: seq<ProbeEnv>)
    ensures Passes(app, expected, retries, envs) <==>
              && app.Some? && app.value.version == expected && !app.value.broken
              && exists i :: 1 <= i <= retries && Serves(EnvAt(envs, i))
  {
    forall i: int
      ensures PassesAt(app, expected, envs, i) <==>
                app.Some? && app.value.version == expected && !app.value.broken && Serves(EnvAt(envs, i))
    {}
    if Passes(app, expected, retries, envs) {
      var i :| 1 <= i <= retries && PassesAt(app, expected, envs, i);
      assert Serves(EnvAt(envs, i));
    }
  }
}
