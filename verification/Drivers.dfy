/**
 One execution as the Ray driver runs it: check, prepare, check again, dispatch, and on any
 exception publish what ended it.  Other reporters of the operation write in between.
 */
module Drivers {
  import opened Wrappers
  import opened Events
  import opened Reporters
  import opened Runtime

  // What can come out of the guarded part: a control error, a missing implementation, or any
  // other exception with the phase it carries, if it does.
  datatype Failure = Control(why: Interrupt) | Unavailable | Failing(phase: Option<Phase>)

  // What an execution does to its reporter before it completes, or how it gives up.
  datatype Step =
    | Emit(call: Call)
    | Checkpoint(phase: Option<Phase>)
    | Limit(limit: Option<int>)
    | Fault(failure: Failure)

  // The event that must end the stream.
  function Verdict(failure: Option<Failure>): Kind {
    if failure.None? then COMPLETED
    else if failure.value.Control? && failure.value.why.Cancelled? then CANCELLED
    else FAILED
  }

  function Notice(failure: Failure, current: Phase): Call {
    match failure
    case Control(why) => Call(Verdict(Some(failure)), map[], Some(why.phase), true)
    case Unavailable => Call(FAILED, map[], Some(PREPARING), true)
    case Failing(phase) => Call(FAILED, map[], Some(if phase.Some? then phase.value else current), true)
  }

  // An interrupt, or a failure that carries no phase, is reported in the phase the reporter is in.
  lemma NoticePhase(r: Reporter, failure: Failure)
    requires ProtocolPhase(r.op, r.phase)
    requires match failure case Control(why) => why.phase == r.phase case Failing(phase) => phase.None? case Unavailable => false
    ensures
      var e := BuildEvent(r, Notice(failure, r.phase));
      e.kind == Verdict(Some(failure)) && CurrentPhase in e.fields && e.fields[CurrentPhase] == At(r.phase)
  {
    hide BuildEvent, PhaseName;
    var call := Notice(failure, r.phase);
    EventShape(r, call);
    EventPhase(r, call);
    CallPhaseNamed(r, call);
  }

  // A completion that is too large fails a training run as an export, in the phase of evaluating;
  // for inference it is an exception like any other.
  function OversizedFailure(op: Operation): Failure {
    Failing(if op == Training then Some(EVALUATING) else None)
  }

  lemma OversizedPhase(r: Reporter)
    requires ProtocolPhase(r.op, r.phase)
    ensures
      var e := BuildEvent(r, Notice(OversizedFailure(r.op), r.phase));
      e.kind == FAILED && CurrentPhase in e.fields && e.fields[CurrentPhase] == At(if r.op == Training then EVALUATING else r.phase)
  {
    hide BuildEvent;
    var call := Notice(OversizedFailure(r.op), r.phase);
    EventShape(r, call);
    EventPhase(r, call);
    CallPhaseNamed(r, call);
  }

  predicate Last(s: Stream, k: Kind) {
    |s.history| > 0 && s.history[|s.history| - 1].kind == k
  }

  // How a run ended: completed past a check at `at`, stopped by a check at `at`, given up by the
  // execution itself, or with an event too large to publish.
  datatype End = Finished(at: Moment) | Stopped(at: Moment) | Gave(own: Failure) | Oversized

  // The exception that leaves the run, by how it ended.
  predicate EndMeans(end: End, failure: Option<Failure>, r: Reporter) {
    match end
    case Finished(_) => failure.None?
    case Stopped(at) =>
      && !InTime(r, at) && failure.Some? && failure.value.Control?
      && (failure.value.why.Cancelled? <==> r.cancellable && at.cancelled)
    case Gave(own) => failure == Some(own)
    case Oversized => failure.Some? && failure.value.Failing?
  }

  // The event is one of this operation for this call.
  ghost predicate Tells(op: Operation, call: Call, e: Event) {
    exists r: Reporter :: r.op == op && e == BuildEvent(r, call)
  }

  // Steps that publish something, whatever is there already.
  predicate Speaks(step: Step) {
    step.Emit? && step.call.kind != ACCEPTED
  }

  predicate Grew(h: seq<Event>, h': seq<Event>) {
    |h| <= |h'| && forall i :: 0 <= i < |h| ==> h'[i] == h[i]
  }

  // The first `|places|` steps are told in the history, in their order, from `start` on.
  ghost predicate Told(op: Operation, work: seq<Step>, places: seq<nat>, start: nat, h: seq<Event>) {
    && |places| <= |work|
    && (forall k :: 0 <= k < |places| && Speaks(work[k]) ==> start <= places[k] < |h| && Tells(op, work[k].call, h[places[k]]))
    && (forall j, k :: 0 <= j < k < |places| && Speaks(work[j]) && Speaks(work[k]) ==> places[j] < places[k])
  }

  lemma ToldLater(op: Operation, work: seq<Step>, places: seq<nat>, start: nat, h: seq<Event>, h': seq<Event>)
    requires Told(op, work, places, start, h) && Grew(h, h')
    ensures Told(op, work, places, start, h')
  {
  }

  lemma ToldMore(op: Operation, work: seq<Step>, places: seq<nat>, start: nat, h: seq<Event>, h': seq<Event>, place: nat)
    requires Told(op, work, places, start, h) && Grew(h, h') && start <= |h| && |places| < |work|
    requires Speaks(work[|places|]) ==> |h| <= place < |h'| && Tells(op, work[|places|].call, h'[place])
    ensures Told(op, work, places + [place], start, h')
  {
    hide Tells, Grew;
    ToldLater(op, work, places, start, h, h');
    GrewLength(h, h');
    var n, more := |places|, places + [place];
    forall k | 0 <= k < |more| && Speaks(work[k])
      ensures start <= more[k] < |h'| && Tells(op, work[k].call, h'[more[k]])
    {
      if k < n {
        assert more[k] == places[k];
      } else {
        assert more[n] == place;
      }
    }
    forall j, k | 0 <= j < k < |more| && Speaks(work[j]) && Speaks(work[k]) ensures more[j] < more[k] {
      assert more[j] == places[j];
      if k < n {
        assert more[k] == places[k];
      } else {
        assert more[n] == place && places[j] < |h|;
      }
    }
  }

  lemma GrewTwice(a: seq<Event>, b: seq<Event>, c: seq<Event>)
    requires Grew(a, b) && Grew(b, c)
    ensures Grew(a, c)
  {
  }

  // A deadline is never dropped or moved later, and the reception time, once known, is fixed.
  predicate Tightened(r: Reporter, r': Reporter) {
    && (r.deadline.Some? ==> r'.deadline.Some? && r'.deadline.value <= r.deadline.value)
    && (r.received.Some? ==> r'.received == r.received)
    && r'.cancellable == r.cancellable
  }

  predicate Bounded(r: Reporter, limit: int) {
    r.received.Some? && r.deadline.Some? && r.deadline.value <= r.received.value + limit
  }

  // Every limit among the first `n` steps holds for the reporter.
  predicate LimitsSet(r: Reporter, work: seq<Step>, n: nat) {
    forall k :: 0 <= k < n && k < |work| && work[k].Limit? && work[k].limit.Some? ==> Bounded(r, work[k].limit.value)
  }

  // A check passed at `m`.
  predicate InTime(r: Reporter, m: Moment) {
    !(r.cancellable && m.cancelled) && (r.deadline.Some? ==> m.now < r.deadline.value)
  }

  lemma CallKeeps(r: Reporter, s: Stream, call: Call, m: Moment, maxLength: nat)
    requires Sound(s) && maxLength >= 1 && (r.terminal ==> Ended(s.history))
    ensures
      var (r', s', o) := Publish(r, s, call, m, maxLength);
      && Sound(s') && (r'.terminal ==> Ended(s'.history)) && Tightened(r, r') && Tightened(r', r)
      && (Ended(s.history) ==> s' == s)
      && (!Terminal(call.kind) ==> (Ended(s'.history) <==> Ended(s.history)))
      && (!Ended(s.history) && s' != s ==> Last(s', BuildEvent(r, call).kind))
      && (o.Interrupted? ==> call.kind == COMPLETED && s' == s)
      && (o.TooLarge? ==> !call.fits && s' == s)
  {
    hide BuildEvent, Script, Sound, Publish;
    PublishCases(r, s, call, m, maxLength);
    EventShape(r, call);
    ScriptSound(s, BuildEvent(r, call), call.kind, maxLength);
    PublishFaults(r, s, call, m, maxLength);
  }

  lemma PublishFaults(r: Reporter, s: Stream, call: Call, m: Moment, maxLength: nat)
    ensures
      var (r', s', o) := Publish(r, s, call, m, maxLength);
      && (o.Interrupted? ==> call.kind == COMPLETED && s' == s && r' == r)
      && (o.TooLarge? ==> !call.fits && s' == s && r' == r)
  {
  }

  lemma PublishFits(r: Reporter, s: Stream, call: Call, m: Moment, maxLength: nat)
    ensures Publish(r, s, call, m, maxLength).2.Returned? ==> call.fits
  {
    hide BuildEvent, Script;
  }

  // A terminal call that fits, whose checks pass, ends the stream: with its own event unless
  // another writer was first.
  lemma CallEnds(r: Reporter, s: Stream, call: Call, m: Moment, maxLength: nat)
    requires Sound(s) && maxLength >= 1 && (r.terminal ==> Ended(s.history))
    requires Terminal(call.kind)
    ensures
      var (r', s', o) := Publish(r, s, call, m, maxLength);
      && (o.Returned? ==> Ended(s'.history) && (!Ended(s.history) ==> Last(s', call.kind)))
      && (!o.Returned? ==> s' == s && r' == r)
      && (call.kind == COMPLETED && o.Returned? && !r.terminal ==> InTime(r, m))
      && (call.kind != COMPLETED && call.fits ==> o.Returned?)
  {
    hide BuildEvent, Script, Sound;
    EventShape(r, call);
    ScriptSound(s, BuildEvent(r, call), call.kind, maxLength);
  }

  class Driver {
    const redis: Redis
    const reporter: KnovaReporter
    const alone: bool  // no other reporter ends this stream

    constructor (redis: Redis, reporter: KnovaReporter, alone: bool)
      ensures this.redis == redis && this.reporter == reporter && this.alone == alone
    {
      this.redis, this.reporter, this.alone := redis, reporter, alone;
    }

    ghost predicate Live()
      reads this, redis, reporter
    {
      && reporter.redis == redis && redis.maxLength >= 1
      && Sound(redis.stream)
      && (reporter.terminal ==> Ended(redis.stream.history))
    }

    // Other reporters of the operation, any number of calls through the same script.
    method Meanwhile()
      requires Live()
      modifies redis
      ensures Live() && Grew(old(redis.stream.history), redis.stream.history)
      ensures Ended(old(redis.stream.history)) ==> redis.stream == old(redis.stream)
      ensures alone && !Ended(old(redis.stream.history)) ==> !Ended(redis.stream.history)
    {
      hide Sound, Script, Append;
      var calls: int := *;
      while calls > 0
        invariant Live() && Grew(old(redis.stream.history), redis.stream.history)
        invariant Ended(old(redis.stream.history)) ==> redis.stream == old(redis.stream)
        invariant alone && !Ended(old(redis.stream.history)) ==> !Ended(redis.stream.history)
      {
        var e: Event, call: Kind := *, *;
        if !alone || !Terminal(e.kind) {
          ScriptSound(redis.stream, e, call, redis.maxLength);
          AppendAdds(redis.stream, e, redis.maxLength);
          var reply := redis.Eval(e, call);
        }
        calls := calls - 1;
      }
    }

    // One call of the execution on its reporter, or its own exception; `m` is when it looked and
    // `place` where its event is.
    method Do(step: Step) returns (failure: Option<Failure>, m: Moment, place: nat)
      requires Live()
      requires step.Emit? ==> !Terminal(step.call.kind)
      modifies redis, reporter
      ensures Live() && Tightened(old(reporter.State()), reporter.State())
      ensures Grew(old(redis.stream.history), redis.stream.history)
      ensures Ended(old(redis.stream.history)) ==> redis.stream == old(redis.stream)
      ensures alone && !Ended(old(redis.stream.history)) ==> !Ended(redis.stream.history)
      ensures step.Limit? && step.limit.Some? ==> Bounded(reporter.State(), step.limit.value)
      // Its exception is decided by the size of the event, by the check, or by itself.
      ensures step.Emit? ==> failure == if step.call.fits then None else Some(Failing(None))
      ensures step.Checkpoint? ==>
        && (failure.Some? <==> Stops(old(reporter.State()), m))
        && (failure.Some? ==> EndMeans(Stopped(m), failure, reporter.State()))
      ensures step == Checkpoint(None) ==> reporter.State() == old(reporter.State())
      ensures step.Limit? ==> failure.None?
      ensures step.Fault? ==> failure == Some(step.failure)
      // While the stream is open, what fits is in it.
      ensures Speaks(step) && step.call.fits && !Ended(redis.stream.history) ==>
        && |old(redis.stream.history)| <= place < |redis.stream.history|
        && redis.stream.history[place] == BuildEvent(old(reporter.State()), step.call)
    {
      hide Sound, Publish, BuildEvent, Check, Append;
      Meanwhile();
      m := *;
      failure, place := None, |redis.stream.history|;
      match step
      case Emit(call) =>
        CallKeeps(reporter.State(), redis.stream, call, m, redis.maxLength);
        PublishExact(reporter.State(), redis.stream, call, m, redis.maxLength);
        var o := reporter.Publish(call, m);
        if o.TooLarge? {
          failure := Some(Failing(None));
        }
      case Checkpoint(phase) =>
        CheckExact(reporter.State(), phase, m);
        var interrupt := reporter.CheckControl(phase, m);
        if interrupt.Some? {
          failure := Some(Control(interrupt.value));
        }
      case Limit(limit) =>
        reporter.ConfigureTimeout(limit, m);
      case Fault(f) =>
        failure := Some(f);
    }

    // The execution: its steps in order, then the completion as its last act.
    method Dispatch(work: seq<Step>, completion: Call) returns (failure: Option<Failure>, end: End, places: seq<nat>)
      requires Live() && completion.kind == COMPLETED
      requires forall k :: 0 <= k < |work| && work[k].Emit? ==> !Terminal(work[k].call.kind)
      modifies redis, reporter
      ensures Live() && Tightened(old(reporter.State()), reporter.State())
      ensures Grew(old(redis.stream.history), redis.stream.history)
      ensures Ended(old(redis.stream.history)) ==> redis.stream == old(redis.stream)
      ensures EndMeans(end, failure, reporter.State())
      ensures match end
        case Finished(_) => |places| == |work| && completion.fits && Ended(redis.stream.history)
                            && LimitsSet(reporter.State(), work, |work|)
        case Stopped(_) => true
        case Gave(own) => |places| < |work| && work[|places|] == Fault(own)
        case Oversized => if |places| < |work| then work[|places|].Emit? && !work[|places|].call.fits
                          else !completion.fits && failure == Some(OversizedFailure(reporter.op))
      ensures |places| <= |work| && forall k :: 0 <= k < |places| ==> !work[k].Fault? && (work[k].Emit? ==> work[k].call.fits)
      // A stream nobody else ends has the event of every step that was taken, and is completed
      // exactly when the run is.
      ensures alone && !Ended(old(redis.stream.history)) ==>
        && Told(reporter.op, work, places, |old(redis.stream.history)|, redis.stream.history)
        && if end.Finished? then Last(redis.stream, COMPLETED) && InTime(reporter.State(), end.at)
           else !Ended(redis.stream.history)
    {
      hide Sound, Publish, Tells, Told, Grew, Ended, BuildEvent;
      places := [];
      ghost var start := redis.stream.history;
      NothingTold(reporter.op, work, start);
      for i := 0 to |work|
        invariant Live() && Tightened(old(reporter.State()), reporter.State())
        invariant Grew(start, redis.stream.history) && |start| <= |redis.stream.history|
        invariant Ended(start) ==> redis.stream == old(redis.stream)
        invariant |places| == i && forall k :: 0 <= k < i ==> !work[k].Fault? && (work[k].Emit? ==> work[k].call.fits)
        invariant LimitsSet(reporter.State(), work, i)
        invariant alone && !Ended(start) ==>
          !Ended(redis.stream.history) && Told(reporter.op, work, places, |start|, redis.stream.history)
      {
        ghost var r, h := reporter.State(), redis.stream.history;
        var m, place;
        failure, m, place := Do(work[i]);
        GrewTwice(start, h, redis.stream.history);
        GrewLength(h, redis.stream.history);
        if alone && !Ended(start) {
          ToldLater(reporter.op, work, places, |start|, h, redis.stream.history);
        }
        if failure.Some? {
          end := match work[i]
            case Emit(_) => Oversized
            case Checkpoint(_) => Stopped(m)
            case _ => Gave(failure.value);
          return;
        }
        assert forall l :: Bounded(r, l) ==> Bounded(reporter.State(), l);
        if alone && !Ended(start) {
          if Speaks(work[i]) {
            assert Tells(reporter.op, work[i].call, redis.stream.history[place]) by { TellsItself(r, work[i].call); }
          }
          ToldMore(reporter.op, work, places, |start|, h, redis.stream.history, place);
        }
        places := places + [place];
      }
      ghost var h := redis.stream.history;
      failure, end := Complete(completion);
      GrewTwice(start, h, redis.stream.history);
      GrewLength(h, redis.stream.history);
      if alone && !Ended(start) {
        ToldLater(reporter.op, work, places, |start|, h, redis.stream.history);
      }
    }

    // The completion, which checks once more.
    method Complete(completion: Call) returns (failure: Option<Failure>, end: End)
      requires Live() && completion.kind == COMPLETED
      modifies redis, reporter
      ensures Live() && Tightened(old(reporter.State()), reporter.State()) && Tightened(reporter.State(), old(reporter.State()))
      ensures Grew(old(redis.stream.history), redis.stream.history)
      ensures Ended(old(redis.stream.history)) ==> redis.stream == old(redis.stream)
      ensures EndMeans(end, failure, reporter.State()) && !end.Gave?
      ensures end.Finished? ==> completion.fits && Ended(redis.stream.history)
      ensures end.Oversized? ==> !completion.fits && failure == Some(OversizedFailure(reporter.op))
      ensures alone && !Ended(old(redis.stream.history)) ==>
        if end.Finished? then Last(redis.stream, COMPLETED) && InTime(reporter.State(), end.at) else !Ended(redis.stream.history)
    {
      hide Sound, Publish, BuildEvent, Append;
      Meanwhile();
      var at: Moment := *;
      CallKeeps(reporter.State(), redis.stream, completion, at, redis.maxLength);
      CallEnds(reporter.State(), redis.stream, completion, at, redis.maxLength);
      PublishExact(reporter.State(), redis.stream, completion, at, redis.maxLength);
      InterruptExact(reporter.State(), redis.stream, completion, at, redis.maxLength);
      var o := reporter.Publish(completion, at);
      match o
      case Returned(_) => failure, end := None, Finished(at);
      case Interrupted(why) => failure, end := Some(Control(why)), Stopped(at);
      case TooLarge => failure, end := Some(OversizedFailure(reporter.op)), Oversized;
    }

    // The handlers: one terminal event for whatever came out.
    method Report(failure: Failure)
      requires Live()
      modifies redis, reporter
      ensures Live() && Tightened(old(reporter.State()), reporter.State()) && Tightened(reporter.State(), old(reporter.State()))
      ensures Ended(redis.stream.history) && Grew(old(redis.stream.history), redis.stream.history)
      ensures Ended(old(redis.stream.history)) ==> redis.stream == old(redis.stream)
      ensures alone && !Ended(old(redis.stream.history)) ==>
        Last(redis.stream, if failure.Control? && failure.why.Cancelled? then CANCELLED else FAILED)
    {
      hide Sound, Publish, BuildEvent, Append;
      Meanwhile();
      var m: Moment := *;
      var call := Notice(failure, reporter.currentPhase);
      CallKeeps(reporter.State(), redis.stream, call, m, redis.maxLength);
      CallEnds(reporter.State(), redis.stream, call, m, redis.maxLength);
      PublishExact(reporter.State(), redis.stream, call, m, redis.maxLength);
      var o := reporter.Publish(call, m);
    }

    // The guarded part, up to the exception that leaves it; it looks before and after preparing.
    method Attempt(setup: Option<Failure>, work: seq<Step>, completion: Call)
      returns (failure: Option<Failure>, end: End, opening: Moment, again: Option<Moment>, places: seq<nat>)
      requires Live() && completion.kind == COMPLETED
      requires forall k :: 0 <= k < |work| && work[k].Emit? ==> !Terminal(work[k].call.kind)
      modifies redis, reporter
      ensures Live() && Tightened(old(reporter.State()), reporter.State())
      ensures Grew(old(redis.stream.history), redis.stream.history)
      ensures Ended(old(redis.stream.history)) ==> redis.stream == old(redis.stream)
      ensures EndMeans(end, failure, reporter.State())
      ensures Stops(old(reporter.State()), opening) ==> end == Stopped(opening)
      ensures !Stops(old(reporter.State()), opening) && setup.Some? ==> end == Gave(setup.value)
      ensures !Stops(old(reporter.State()), opening) && setup.None? ==>
        again.Some? && (Stops(old(reporter.State()), again.value) ==> end == Stopped(again.value))
      ensures end.Gave? ==> setup == Some(end.own) || (|places| < |work| && work[|places|] == Fault(end.own))
      ensures end.Oversized? ==>
        if |places| < |work| then work[|places|].Emit? && !work[|places|].call.fits else !completion.fits
      ensures end.Finished? ==> setup.None? && |places| == |work| && Ended(redis.stream.history) && LimitsSet(reporter.State(), work, |work|)
      ensures alone && !Ended(old(redis.stream.history)) ==>
        && Told(reporter.op, work, places, |old(redis.stream.history)|, redis.stream.history)
        && if end.Finished? then Last(redis.stream, COMPLETED) && InTime(reporter.State(), end.at)
           else !Ended(redis.stream.history)
    {
      hide Sound, Tells, Told, Grew, Ended, BuildEvent;
      places := [];
      ghost var start := redis.stream.history;
      NothingTold(reporter.op, work, start);
      var place;
      failure, opening, place := Do(Checkpoint(None));
      again := None;
      end := Stopped(opening);
      ghost var h := redis.stream.history;
      if failure.None? && setup.Some? {
        failure, end := setup, Gave(setup.value);
      }
      if failure.None? {
        var look;
        failure, look, place := Do(Checkpoint(None));
        again := Some(look);
        GrewTwice(start, h, redis.stream.history);
        h := redis.stream.history;
        end := Stopped(look);
      }
      NothingTold(reporter.op, work, h);
      ToldLater(reporter.op, work, [], |start|, start, h);
      if failure.None? {
        failure, end, places := Dispatch(work, completion);
        GrewTwice(start, h, redis.stream.history);
        GrewLength(start, h);
        ToldFrom(reporter.op, work, places, |start|, |h|, redis.stream.history);
      }
    }

    // Exactly one terminal event ends the stream however the execution ends, and when nobody else
    // ends it that event and the exit code say how.
    method Drive(setup: Option<Failure>, work: seq<Step>, completion: Call)
      returns (code: int, end: End, opening: Moment, again: Option<Moment>, places: seq<nat>)
      requires Live() && completion.kind == COMPLETED
      requires forall k :: 0 <= k < |work| && work[k].Emit? ==> !Terminal(work[k].call.kind)
      modifies redis, reporter
      ensures Live() && Ended(redis.stream.history)
      ensures Ended(old(redis.stream.history)) ==> redis.stream == old(redis.stream)
      ensures code == if end.Finished? then 0 else 1
      // A cancel key or a deadline seen before or after preparing stops the run there.
      ensures Stops(old(reporter.State()), opening) ==> end == Stopped(opening)
      ensures !Stops(old(reporter.State()), opening) && setup.Some? ==> end == Gave(setup.value)
      ensures !Stops(old(reporter.State()), opening) && setup.None? ==>
        again.Some? && (Stops(old(reporter.State()), again.value) ==> end == Stopped(again.value))
      ensures end.Gave? ==> setup == Some(end.own) || (|places| < |work| && work[|places|] == Fault(end.own))
      ensures end.Oversized? ==>
        if |places| < |work| then work[|places|].Emit? && !work[|places|].call.fits else !completion.fits
      ensures end.Finished? ==> |places| == |work|
      ensures alone && !Ended(old(redis.stream.history)) ==>
        && (code == 0 <==> Last(redis.stream, COMPLETED))
        && Told(reporter.op, work, places, |old(redis.stream.history)|, redis.stream.history)
        && match end
           case Finished(at) => InTime(reporter.State(), at)
           // Cancelled exactly when the check that ended it saw the cancel key.
           case Stopped(at) =>
             !InTime(reporter.State(), at) && Last(redis.stream, if reporter.cancellable && at.cancelled then CANCELLED else FAILED)
           case Gave(own) => Last(redis.stream, if own.Control? && own.why.Cancelled? then CANCELLED else FAILED)
           case Oversized => Last(redis.stream, FAILED)
      // Completion respects the cancel key, the deadline it started with and every limit set.
      ensures alone && !Ended(old(redis.stream.history)) && end.Finished? ==>
        && !(reporter.cancellable && end.at.cancelled)
        && (old(reporter.deadline).Some? ==> end.at.now < old(reporter.deadline).value)
        && forall k :: 0 <= k < |work| && work[k].Limit? && work[k].limit.Some? ==>
             reporter.received.Some? && end.at.now < reporter.received.value + work[k].limit.value
    {
      hide Sound, Told, Grew;
      var failure;
      failure, end, opening, again, places := Attempt(setup, work, completion);
      if failure.None? {
        code := 0;
        assert forall l :: Bounded(reporter.State(), l) && InTime(reporter.State(), end.at) ==> end.at.now < reporter.received.value + l;
      } else {
        ghost var h, start := redis.stream.history, old(redis.stream.history);
        Report(failure.value);
        if alone && !Ended(start) {
          ToldLater(reporter.op, work, places, |start|, h, redis.stream.history);
        }
        code := 1;
      }
    }
  }

  lemma NothingTold(op: Operation, work: seq<Step>, h: seq<Event>)
    ensures Told(op, work, [], |h|, h) && Grew(h, h)
  {
  }

  lemma GrewLength(h: seq<Event>, h': seq<Event>)
    requires Grew(h, h')
    ensures |h| <= |h'|
  {
  }

  lemma TellsItself(r: Reporter, call: Call)
    ensures Tells(r.op, call, BuildEvent(r, call))
  {
  }

  lemma ToldFrom(op: Operation, work: seq<Step>, places: seq<nat>, start: nat, later: nat, h: seq<Event>)
    requires start <= later
    ensures Told(op, work, places, later, h) ==> Told(op, work, places, start, h)
  {
  }

  // An interrupted completion says what the check saw.
  lemma InterruptExact(r: Reporter, s: Stream, call: Call, m: Moment, maxLength: nat)
    ensures
      var (r', s', o) := Publish(r, s, call, m, maxLength);
      o.Interrupted? ==> r' == r && !InTime(r, m) && (o.why.Cancelled? <==> r.cancellable && m.cancelled)
  {
    hide BuildEvent, Script, PhaseName;
    CheckExact(r, None, m);
  }
}
