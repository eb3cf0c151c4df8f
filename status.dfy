/**
 * The liveness/readiness holder of operational/status.go: two flags, each
 * set and read on its own. Go stores them in atomics; here they are plain
 * fields, read and written one call at a time.
 */
module Status {

  /** The abstract state of a Status: the two flags. */
  datatype Flags = Flags(alive: bool, ready: bool)

  /** State after `NewStatus`: the process runs but is not ready yet. */
  const Initial: Flags := Flags(true, false)

  function WithReady(f: Flags, ready: bool): (g: Flags)
    ensures g.ready == ready && g.alive == f.alive
  {
    f.(ready := ready)
  }

  function WithAlive(f: Flags, alive: bool): (g: Flags)
    ensures g.alive == alive && g.ready == f.ready
  {
    f.(alive := alive)
  }

  /** Setting a flag twice to the same value is the same as setting it once. */
  lemma SettersIdempotent(f: Flags, b: bool)
    ensures WithReady(WithReady(f, b), b) == WithReady(f, b)
    ensures WithAlive(WithAlive(f, b), b) == WithAlive(f, b)
  {
  }

  /** The flags are independent: the order of a SetReady and a SetAlive does not matter. */
  lemma SettersCommute(f: Flags, ready: bool, alive: bool)
    ensures WithAlive(WithReady(f, ready), alive) == WithReady(WithAlive(f, alive), ready)
  {
  }

  /** A later set of the same flag overrides an earlier one. */
  lemma LastSetWins(f: Flags, b1: bool, b2: bool)
    ensures WithReady(WithReady(f, b1), b2) == WithReady(f, b2)
    ensures WithAlive(WithAlive(f, b1), b2) == WithAlive(f, b2)
  {
  }

  /** Every combination of the two flags can be reached from the initial state. */
  lemma AllCombinationsReachable(alive: bool, ready: bool)
    ensures WithAlive(WithReady(Initial, ready), alive) == Flags(alive, ready)
  {
  }

  class Status {
    var ready: bool
    var alive: bool

    function State(): Flags
      reads this
    {
      Flags(alive, ready)
    }

    /** `NewStatus`. */
    constructor ()
      ensures State() == Initial
    {
      ready := false;
      alive := true;
    }

    method IsReady() returns (r: bool)
      ensures r == State().ready
    {
      r := ready;
    }

    method IsAlive() returns (r: bool)
      ensures r == State().alive
    {
      r := alive;
    }

    method SetReady(b: bool)
      modifies this`ready
      ensures State() == WithReady(old(State()), b)
    {
      ready := b;
    }

    method SetAlive(b: bool)
      modifies this`alive
      ensures State() == WithAlive(old(State()), b)
    {
      alive := b;
    }
  }

  const StatusOK: int := 200
  const StatusServiceUnavailable: int := 503

  /** The HTTP status the /health and /ready handlers answer for a flag. */
  function ProbeCode(up: bool): (code: int)
    ensures code == StatusOK <==> up
    ensures code == StatusServiceUnavailable <==> !up
  {
    if up then StatusOK else StatusServiceUnavailable
  }

  /** `handleHealth`: 200 while alive, 503 otherwise. */
  method HandleHealth(s: Status) returns (code: int)
    ensures code == ProbeCode(s.State().alive)
  {
    var alive := s.IsAlive();
    code := ProbeCode(alive);
  }

  /** `handleReady`: 200 while ready, 503 otherwise. */
  method HandleReady(s: Status) returns (code: int)
    ensures code == ProbeCode(s.State().ready)
  {
    var ready := s.IsReady();
    code := ProbeCode(ready);
  }

  /** A fresh Status answers /health with 200 and /ready with 503 until SetReady(true). */
  method FreshStatusProbes() returns (health: int, readyBefore: int, readyAfter: int)
    ensures health == StatusOK && readyBefore == StatusServiceUnavailable && readyAfter == StatusOK
  {
    var s := new Status();
    health := HandleHealth(s);
    readyBefore := HandleReady(s);
    s.SetReady(true);
    readyAfter := HandleReady(s);
  }
}
