/**
 The reporter as the driver holds it, an object on a shared Redis stream, and the driver that
 turns every way an execution can end into one terminal event and an exit code.
 */
module Runtime {
  import opened Wrappers
  import opened Events
  import opened Reporters

  class Redis {
    const maxLength: nat
    var stream: Stream

    constructor (maxLength: nat)
      ensures this.maxLength == maxLength && stream == EMPTY
    {
      this.maxLength, stream := maxLength, EMPTY;
    }

    // The atomic script: look at the newest entry, then append and trim.
    method Eval(e: Event, call: Kind) returns (reply: Reply)
      modifies this
      ensures (stream, reply) == Script(old(stream), e, call, maxLength)
    {
      var newest := if |stream.retained| > 0 then Some(stream.retained[|stream.retained| - 1]) else None;
      if newest.Some? {
        if Terminal(newest.value.kind) {
          return Closed;
        }
        if call == ACCEPTED {
          return Late;
        }
      }
      stream := Append(stream, e, maxLength);
      reply := Appended;
    }
  }

  lemma RestoreStep(r: Reporter, es: seq<Event>)
    requires es != []
    ensures Restore(r, es) == Restore(RestoreEntry(r, es[|es| - 1]), es[..|es| - 1])
  {
  }

  lemma RestoreEnds(r: Reporter)
    ensures Restore(r, []) == r
  {
  }

  class KnovaReporter {
    const redis: Redis
    const op: Operation
    const cancellable: bool
    var terminal: bool
    var snapshot: Fields
    var currentPhase: Phase
    var deadline: Option<int>
    var received: Option<int>

    // The value this object stands for.
    function State(): Reporter
      reads this
    {
      Reporter(op, cancellable, terminal, snapshot, currentPhase, deadline, received)
    }

    // A reporter attaches by reading back what the stream still holds.
    constructor (redis: Redis, op: Operation, cancellable: bool, deadline: Option<int>, received: Option<int>)
      ensures this.redis == redis
      ensures State() == Restore(Fresh(op, cancellable, deadline, received), Trim(redis.stream.retained, redis.maxLength))
    {
      this.redis, this.op, this.cancellable, this.deadline, this.received := redis, op, cancellable, deadline, received;
      terminal, snapshot, currentPhase := false, map[], FirstPhase(op);
      new;
      RestoreSnapshot();
    }

    // Newest entry first; only fields not seen yet are filled in.
    method RestoreSnapshot()
      modifies this
      ensures State() == Restore(old(State()), Trim(redis.stream.retained, redis.maxLength))
    {
      hide Restore;
      var es := Trim(redis.stream.retained, redis.maxLength);
      while es != []
        invariant Restore(State(), es) == Restore(old(State()), Trim(redis.stream.retained, redis.maxLength))
        decreases |es|
      {
        var e := es[|es| - 1];
        RestoreStep(State(), es);
        if snapshot == map[] && CurrentPhase in e.fields {
          currentPhase := e.fields[CurrentPhase].phase;
        }
        snapshot := e.fields + snapshot;
        if Terminal(e.kind) {
          terminal := true;
        }
        es := es[..|es| - 1];
      }
      RestoreEnds(State());
    }

    method CheckControl(phase: Option<Phase>, m: Moment) returns (interrupt: Option<Interrupt>)
      modifies this
      ensures (State(), interrupt) == Check(old(State()), phase, m)
    {
      if phase.Some? {
        currentPhase := PhaseName(op, phase.value);
      }
      interrupt := None;
      if !terminal {
        if cancellable && m.cancelled {
          interrupt := Some(Cancelled(currentPhase));
        } else if deadline.Some? && m.now >= deadline.value {
          interrupt := Some(TimedOut(currentPhase));
        }
      }
    }

    method ConfigureTimeout(limit: Option<int>, m: Moment)
      modifies this
      ensures State() == Configure(old(State()), limit, m)
    {
      if limit.Some? {
        if received.None? {
          received := Some(m.now - m.age);
        }
        var bound := received.value + limit.value;
        deadline := Some(if deadline.Some? && deadline.value < bound then deadline.value else bound);
      }
    }

    method Publish(call: Call, m: Moment) returns (o: Outcome)
      modifies this, redis
      ensures (State(), redis.stream, o) == Reporters.Publish(old(State()), old(redis.stream), call, m, redis.maxLength)
    {
      hide BuildEvent, Script;
      if call.kind == COMPLETED {
        var interrupt := CheckControl(None, m);
        if interrupt.Some? {
          return Interrupted(interrupt.value);
        }
      }
      var e := BuildEvent(State(), call);
      if !call.fits {
        return TooLarge;
      }
      o := Returned(e);
      if terminal || (call.kind == ACCEPTED && snapshot != map[]) {
        return;
      }
      var reply := redis.Eval(e, call.kind);
      if reply == Late {
        return;
      }
      if reply == Closed || Terminal(e.kind) {
        terminal := true;
        return;
      }
      if CurrentPhase in e.fields {
        currentPhase := e.fields[CurrentPhase].phase;
      }
      snapshot := snapshot + e.fields;
    }
  }
}
