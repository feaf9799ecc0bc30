/** The time debounce every collision handler applies: a contact is ignored
    when it comes less than `cooldown` seconds after the last accepted one. */
module Contact {

  predicate Accepted(now: real, last: real, cooldown: real) {
    !(now - last < cooldown)
  }

  /** A `lastHitRef` with its cooldown: the hazard handlers of both rigs
      (0.6 s) and the boss's contact handler (0.8 s). */
  class Cooldown {
    const period: real
    var last: real

    constructor (period: real)
      ensures this.period == period && last == 0.0
    {
      this.period := period;
      last := 0.0;
    }

    /** Accepts a contact at `now` and records it, or ignores it. */
    method Try(now: real) returns (accepted: bool)
      modifies this
      ensures accepted == Accepted(now, old(last), period)
      ensures last == if accepted then now else old(last)
    {
      if now - last < period {
        return false;
      }
      last := now;
      return true;
    }
  }

  /** Three contacts at 1.0 s, 1.5 s and 1.7 s against a 0.6 s cooldown: the
      second comes too soon, the third is 0.7 s after the first and counts. */
  method HazardScenario() returns (first: bool, second: bool, third: bool)
    ensures first && !second && third
  {
    var c := new Cooldown(0.6);
    first := c.Try(1.0);
    second := c.Try(1.5);
    third := c.Try(1.7);
  }

  /** A contact within the cooldown of time 0 is ignored: the very first
      contact must come at least `period` seconds after start-up. */
  method EarlyContactIgnored() returns (accepted: bool)
    ensures !accepted
  {
    var c := new Cooldown(0.8);
    accepted := c.Try(0.5);
  }
}
