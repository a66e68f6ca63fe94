/**
 A reporter on values, and any number of them interleaving on one stream.  Between its reads of
 local state and the script nothing else of a reporter runs, so one call is one step.
 */
module Reporters {
  import opened Wrappers
  import opened Events

  datatype Reporter = Reporter(
    op: Operation,
    cancellable: bool,
    terminal: bool,
    snapshot: Fields,
    phase: Phase,
    deadline: Option<int>,
    received: Option<int>)

  // What a call sees of the world: wall clock and monotonic age in milliseconds, the cancel key.
  datatype Moment = Moment(now: int, age: int, cancelled: bool)

  datatype Interrupt = Cancelled(phase: Phase) | TimedOut(phase: Phase)

  // `fits`: the encoded event is within the configured size.
  datatype Call = Call(kind: Kind, payload: Fields, phase: Option<Phase>, fits: bool)

  datatype Outcome = Returned(event: Event) | Interrupted(why: Interrupt) | TooLarge

  // ---------------------------------------------------------------- events

  function PhaseName(op: Operation, p: Phase): Phase {
    match op
    case Training => (
      match p
      case ADMISSION | ADMITTED => QUEUED
      case PREPARING => LOADING_DATA
      case EXECUTING => TRAINING
      case MATERIALIZING | PUBLISHING => EVALUATING
      case _ => p)
    case Inference => (
      match p
      case QUEUED | ADMISSION | ADMITTED | PREPARING | FAILURE => INIT
      case EXECUTING | CANCELLATION => PREDICT
      case MATERIALIZING => WRITE_RESULT
      case PUBLISHING | DONE => CLEANUP
      case _ => p)
  }

  function FirstPhase(op: Operation): Phase {
    if op == Training then QUEUED else INIT
  }

  function Rows(payload: Fields, f: Field): Value {
    if f in payload then payload[f] else Count(0)
  }

  function Percentage(payload: Fields, f: Field): Value {
    if f in payload then payload[f] else Share(0.0)
  }

  function TrainingEvent(kind: Kind, payload: Fields, phase: Phase): Event {
    var base := map[CurrentPhase := At(phase)];
    match kind
    case ACCEPTED => Event(PHASE, map[CurrentPhase := At(QUEUED)])
    case METRICS => Event(METRICS, base[CurrentRound := Rows(payload, CurrentRound)][TotalRounds := Rows(payload, TotalRounds)]
                                       [ProgressPercent := Percentage(payload, ProgressPercent)])
    case COMPLETED => Event(COMPLETED, map[CurrentPhase := At(DONE), ProgressPercent := Share(100.0)])
    case PHASE | LOG | CANCELLED | FAILED => Event(kind, base)
    case _ => Event(LOG, base)
  }

  function Progress(payload: Fields): Fields {
    map[ProcessedRows := Rows(payload, ProcessedRows), TotalRows := Rows(payload, TotalRows),
        ResultRows := Rows(payload, ResultRows), Percent := Percentage(payload, Percent)]
  }

  function InferenceEvent(kind: Kind, payload: Fields, phase: Phase): Event {
    var base := map[CurrentPhase := At(phase)];
    match kind
    case STARTED => Event(STARTED, base[TotalRows := Rows(payload, TotalRows)])
    case PHASE | PROGRESS => Event(PROGRESS, base + Progress(payload))
    case COMPLETED => Event(COMPLETED, Progress(payload)[CurrentPhase := At(CLEANUP)][Percent := Share(100.0)])
    case CANCELLED => Event(CANCELLED, base + Progress(payload))
    case FAILED => Event(FAILED, base[ProcessedRows := Rows(payload, ProcessedRows)][ResultRows := Rows(payload, ResultRows)])
    case _ => Event(LOG, base)
  }

  // A failure or cancellation that names no phase of the work keeps the reporter's.
  function CallPhase(r: Reporter, call: Call): Phase {
    if call.kind in {FAILED, CANCELLED} && (call.phase.None? || call.phase.value in {FAILURE, CANCELLATION, EXECUTING})
    then PhaseName(r.op, r.phase)
    else if call.phase.None? then r.phase
    else PhaseName(r.op, call.phase.value)
  }

  function BuildEvent(r: Reporter, call: Call): Event {
    var payload: Fields := r.snapshot + call.payload;
    if r.op == Training then TrainingEvent(call.kind, payload, CallPhase(r, call))
    else InferenceEvent(call.kind, payload, CallPhase(r, call))
  }

  // The wire event is terminal exactly when the call is, and always says its phase.
  lemma EventShape(r: Reporter, call: Call)
    ensures Terminal(BuildEvent(r, call).kind) <==> Terminal(call.kind)
    ensures Terminal(call.kind) ==> BuildEvent(r, call).kind == call.kind
    ensures CurrentPhase in BuildEvent(r, call).fields
  {
  }

  function Zero(f: Field): Value
    requires f != CurrentPhase
  {
    if f in {Percent, ProgressPercent} then Share(0.0) else Count(0)
  }

  // Whatever progress an event carries is what the call said, or else what the reporter last
  // knew, or else nothing done; a completion is always at 100 percent.
  lemma EventCarries(r: Reporter, call: Call, f: Field)
    requires f != CurrentPhase && f in BuildEvent(r, call).fields
    ensures BuildEvent(r, call).fields[f] ==
      if call.kind == COMPLETED && f in {Percent, ProgressPercent} then Share(100.0)
      else if f in call.payload then call.payload[f]
      else if f in r.snapshot then r.snapshot[f]
      else Zero(f)
  {
    hide CallPhase, TrainingEvent, InferenceEvent, BuildEvent;
    EventCases(r, call);
    var payload: Fields := r.snapshot + call.payload;
    if r.op == Training {
      TrainingCarries(call.kind, payload, CallPhase(r, call), f);
    } else {
      InferenceCarries(call.kind, payload, CallPhase(r, call), f);
    }
  }

  // The value a field has in an event built from `payload`.
  function FieldValue(kind: Kind, payload: Fields, f: Field): Value
    requires f != CurrentPhase
  {
    if kind == COMPLETED && f in {Percent, ProgressPercent} then Share(100.0)
    else if f in payload then payload[f]
    else Zero(f)
  }

  lemma TrainingCarries(kind: Kind, payload: Fields, phase: Phase, f: Field)
    requires f != CurrentPhase && f in TrainingEvent(kind, payload, phase).fields
    ensures TrainingEvent(kind, payload, phase).fields[f] == FieldValue(kind, payload, f)
  {
  }

  lemma InferenceCarries(kind: Kind, payload: Fields, phase: Phase, f: Field)
    requires f != CurrentPhase && f in InferenceEvent(kind, payload, phase).fields
    ensures InferenceEvent(kind, payload, phase).fields[f] == FieldValue(kind, payload, f)
  {
    match kind
    case PHASE | PROGRESS | CANCELLED => ProgressCarries(kind, payload, f);
    case COMPLETED => ProgressCarries(CANCELLED, payload, f);
    case _ =>
  }

  lemma ProgressCarries(kind: Kind, payload: Fields, f: Field)
    requires f != CurrentPhase && kind != COMPLETED
    ensures f in Progress(payload) ==> Progress(payload)[f] == FieldValue(kind, payload, f)
  {
  }

  lemma EventCases(r: Reporter, call: Call)
    ensures
      var payload: Fields := r.snapshot + call.payload;
      BuildEvent(r, call) == if r.op == Training then TrainingEvent(call.kind, payload, CallPhase(r, call))
        else InferenceEvent(call.kind, payload, CallPhase(r, call))
  {
  }

  // An inference event that ends or reports the work carries all the row counts.
  lemma RowsCarried(r: Reporter, call: Call)
    requires r.op == Inference && call.kind in {PHASE, PROGRESS, COMPLETED, CANCELLED}
    ensures {ProcessedRows, ResultRows, TotalRows, Percent} <= BuildEvent(r, call).fields.Keys
  {
    hide CallPhase;
    EventCases(r, call);
  }

  lemma PhaseNameStable(op: Operation, p: Phase)
    ensures PhaseName(op, PhaseName(op, p)) == PhaseName(op, p)
  {
  }

  // A phase as the protocol names it.
  predicate ProtocolPhase(op: Operation, p: Phase) {
    PhaseName(op, p) == p
  }

  lemma CallPhaseNamed(r: Reporter, call: Call)
    requires ProtocolPhase(r.op, r.phase)
    ensures ProtocolPhase(r.op, CallPhase(r, call))
    ensures call.kind in {FAILED, CANCELLED} && (call.phase.None? || call.phase.value in {FAILURE, CANCELLATION, EXECUTING}) ==>
      CallPhase(r, call) == r.phase
  {
    hide PhaseName;
    if call.phase.Some? {
      PhaseNameStable(r.op, call.phase.value);
    }
  }

  // Any other call speaks of the phase it names, or of the reporter's.
  lemma CallPhaseGiven(r: Reporter, call: Call)
    requires call.kind !in {FAILED, CANCELLED} || (call.phase.Some? && call.phase.value !in {FAILURE, CANCELLATION, EXECUTING})
    ensures CallPhase(r, call) == if call.phase.Some? then PhaseName(r.op, call.phase.value) else r.phase
  {
  }

  // The broker's phases as the two protocols name them.
  lemma PhaseTable()
    ensures PhaseName(Training, ADMISSION) == PhaseName(Training, ADMITTED) == QUEUED
    ensures PhaseName(Training, PREPARING) == LOADING_DATA && PhaseName(Training, EXECUTING) == TRAINING
    ensures PhaseName(Training, MATERIALIZING) == PhaseName(Training, PUBLISHING) == EVALUATING
    ensures forall p :: p in {QUEUED, ADMISSION, ADMITTED, PREPARING, FAILURE} ==> PhaseName(Inference, p) == INIT
    ensures PhaseName(Inference, EXECUTING) == PhaseName(Inference, CANCELLATION) == PREDICT
    ensures PhaseName(Inference, MATERIALIZING) == WRITE_RESULT
    ensures PhaseName(Inference, PUBLISHING) == PhaseName(Inference, DONE) == CLEANUP
    ensures forall p :: p in {DONE, FAILURE, CANCELLATION, QUEUED} ==> PhaseName(Training, p) == p
    ensures forall op, name :: PhaseName(op, Named(name)) == Named(name)
    ensures FirstPhase(Training) == QUEUED && FirstPhase(Inference) == INIT
  {
  }

  lemma EventPhaseNamed(r: Reporter, call: Call)
    requires ProtocolPhase(r.op, r.phase)
    ensures var e := BuildEvent(r, call); CurrentPhase in e.fields && ProtocolPhase(r.op, e.fields[CurrentPhase].phase)
  {
    hide BuildEvent, CallPhase;
    EventPhase(r, call);
    CallPhaseNamed(r, call);
  }

  // A failure or cancellation that names no phase of its own is reported where the work stood,
  // and no call leaves a reporter with a phase the protocol would name otherwise.
  lemma PhaseKept(r: Reporter, s: Stream, call: Call, m: Moment, maxLength: nat)
    requires ProtocolPhase(r.op, r.phase)
    ensures call.kind in {FAILED, CANCELLED} && (call.phase.None? || call.phase.value in {FAILURE, CANCELLATION, EXECUTING}) ==>
      CurrentPhase in BuildEvent(r, call).fields && BuildEvent(r, call).fields[CurrentPhase] == At(r.phase)
    ensures var r' := Publish(r, s, call, m, maxLength).0; ProtocolPhase(r'.op, r'.phase)
  {
    hide Script, BuildEvent, Publish, CallPhase, PhaseName;
    PublishCases(r, s, call, m, maxLength);
    EventPhase(r, call);
    EventPhaseNamed(r, call);
    CallPhaseNamed(r, call);
  }

  // How an event is called on the wire.
  lemma WireKind(r: Reporter, call: Call)
    ensures BuildEvent(r, call).kind ==
      match r.op
      case Training => (if call.kind == ACCEPTED then PHASE else if call.kind in {PHASE, METRICS, COMPLETED, FAILED, CANCELLED} then call.kind else LOG)
      case Inference => (if call.kind in {PHASE, PROGRESS} then PROGRESS else if call.kind in {STARTED, COMPLETED, FAILED, CANCELLED} then call.kind else LOG)
  {
    hide CallPhase;
    EventCases(r, call);
  }

  // Metrics, starts and failures carry what they are about.
  lemma ReportsCarried(r: Reporter, call: Call)
    ensures r.op == Training && call.kind == METRICS ==> {CurrentRound, TotalRounds, ProgressPercent} <= BuildEvent(r, call).fields.Keys
    ensures r.op == Training && call.kind == COMPLETED ==> ProgressPercent in BuildEvent(r, call).fields
    ensures r.op == Inference && call.kind == STARTED ==> TotalRows in BuildEvent(r, call).fields
    ensures r.op == Inference && call.kind == FAILED ==> {ProcessedRows, ResultRows} <= BuildEvent(r, call).fields.Keys
  {
    hide CallPhase;
    EventCases(r, call);
  }

  lemma EventPhase(r: Reporter, call: Call)
    ensures CurrentPhase in BuildEvent(r, call).fields
    ensures BuildEvent(r, call).fields[CurrentPhase] ==
      if call.kind == ACCEPTED && r.op == Training then At(QUEUED)
      else if call.kind == COMPLETED then At(if r.op == Training then DONE else CLEANUP)
      else At(CallPhase(r, call))
  {
    hide CallPhase, BuildEvent, TrainingEvent, InferenceEvent;
    EventCases(r, call);
    var payload: Fields := r.snapshot + call.payload;
    TrainingPhase(call.kind, payload, CallPhase(r, call));
    InferencePhase(call.kind, payload, CallPhase(r, call));
  }

  lemma TrainingPhase(kind: Kind, payload: Fields, phase: Phase)
    ensures
      var e := TrainingEvent(kind, payload, phase);
      CurrentPhase in e.fields && e.fields[CurrentPhase] == At(if kind == ACCEPTED then QUEUED else if kind == COMPLETED then DONE else phase)
  {
  }

  lemma InferencePhase(kind: Kind, payload: Fields, phase: Phase)
    ensures
      var e := InferenceEvent(kind, payload, phase);
      CurrentPhase in e.fields && e.fields[CurrentPhase] == At(if kind == COMPLETED then CLEANUP else phase)
  {
  }

  // ---------------------------------------------------------------- calls

  function Check(r: Reporter, phase: Option<Phase>, m: Moment): (Reporter, Option<Interrupt>) {
    var r' := if phase.Some? then r.(phase := PhaseName(r.op, phase.value)) else r;
    if r'.terminal then (r', None)
    else if r'.cancellable && m.cancelled then (r', Some(Cancelled(r'.phase)))
    else if r'.deadline.Some? && m.now >= r'.deadline.value then (r', Some(TimedOut(r'.phase)))
    else (r', None)
  }

  function ReceivedAt(r: Reporter, m: Moment): int {
    if r.received.Some? then r.received.value else m.now - m.age
  }

  function Configure(r: Reporter, limit: Option<int>, m: Moment): Reporter {
    if limit.None? then r
    else
      var deadline := ReceivedAt(r, m) + limit.value;
      r.(received := Some(ReceivedAt(r, m)),
         deadline := Some(if r.deadline.Some? && r.deadline.value < deadline then r.deadline.value else deadline))
  }

  // What a reporter keeps once the script has answered.
  function AfterReply(r: Reporter, e: Event, reply: Reply): Reporter {
    match reply
    case Late => r
    case Closed => r.(terminal := true)
    case Appended =>
      if Terminal(e.kind) then r.(terminal := true)
      else
        r.(snapshot := r.snapshot + e.fields,
           phase := if CurrentPhase in e.fields then e.fields[CurrentPhase].phase else r.phase)
  }

  function Publish(r: Reporter, s: Stream, call: Call, m: Moment, maxLength: nat): (Reporter, Stream, Outcome) {
    var interrupt := if call.kind == COMPLETED then Check(r, None, m).1 else None;
    if interrupt.Some? then (r, s, Interrupted(interrupt.value))
    else if !call.fits then (r, s, TooLarge)
    else
      var e := BuildEvent(r, call);
      if r.terminal || (call.kind == ACCEPTED && r.snapshot != map[]) then (r, s, Returned(e))
      else
        var (s', reply) := Script(s, e, call.kind, maxLength);
        (AfterReply(r, e, reply), s', Returned(e))
  }

  // A check at this moment stops the work: a cancel key that counts, or the deadline reached.
  predicate Stops(r: Reporter, m: Moment) {
    !r.terminal && ((r.cancellable && m.cancelled) || (r.deadline.Some? && m.now >= r.deadline.value))
  }

  // Which interrupt a check raises, if any, and the phase it takes on: cancellation comes first.
  lemma CheckExact(r: Reporter, phase: Option<Phase>, m: Moment)
    ensures
      var (r', interrupt) := Check(r, phase, m);
      && r' == r.(phase := if phase.Some? then PhaseName(r.op, phase.value) else r.phase)
      && (interrupt == Some(Cancelled(r'.phase)) <==> !r.terminal && r.cancellable && m.cancelled)
      && (interrupt == Some(TimedOut(r'.phase)) <==>
            !r.terminal && !(r.cancellable && m.cancelled) && r.deadline.Some? && m.now >= r.deadline.value)
      && (interrupt.None? <==> !Stops(r, m))
  {
    hide PhaseName;
  }

  // A limit counts from when the request was received, the moment its age goes back to; the
  // earlier deadline stays.
  lemma ConfigureExact(r: Reporter, limit: int, m: Moment)
    ensures
      var r' := Configure(r, Some(limit), m);
      var received := if r.received.Some? then r.received.value else m.now - m.age;
      && r'.received == Some(received) && r'.deadline.Some?
      && (r'.deadline.value == received + limit || (r.deadline.Some? && r'.deadline == r.deadline))
      && r'.deadline.value <= received + limit && (r.deadline.Some? ==> r'.deadline.value <= r.deadline.value)
      && Configure(r, None, m) == r
  {
  }

  // A call delivers its event: it fits, nothing has ended, no check stops a completion, and an
  // admission comes first of all.
  predicate Delivers(r: Reporter, s: Stream, call: Call, m: Moment) {
    && call.fits && !r.terminal && !Ended(s.history)
    && (call.kind == COMPLETED ==> !Stops(r, m))
    && (call.kind == ACCEPTED ==> r.snapshot == map[] && s.history == [])
  }

  // A call that is refused only because the stream has ended tells the reporter so.
  predicate Learns(r: Reporter, s: Stream, call: Call, m: Moment) {
    && call.fits && Ended(s.history)
    && (call.kind == COMPLETED ==> !Stops(r, m))
    && (call.kind == ACCEPTED ==> r.snapshot == map[])
  }

  // What was told is kept: every field of the event, and its phase.
  predicate Keeps(r: Reporter, e: Event, r': Reporter) {
    CurrentPhase in e.fields && r' == r.(snapshot := r.snapshot + e.fields, phase := e.fields[CurrentPhase].phase)
  }

  // Exactly what a call does: its event is appended when it delivers, and nothing otherwise; the
  // reporter then keeps what it told, or that the stream has ended.
  lemma PublishExact(r: Reporter, s: Stream, call: Call, m: Moment, maxLength: nat)
    requires Sound(s) && maxLength >= 1
    ensures
      var (r', s', o) := Publish(r, s, call, m, maxLength);
      var e := BuildEvent(r, call);
      && s' == (if Delivers(r, s, call, m) then Append(s, e, maxLength) else s)
      && (Delivers(r, s, call, m) ==> s'.history == s.history + [e])
      && (Delivers(r, s, call, m) ==>
            if Terminal(call.kind) then r' == r.(terminal := true) else Keeps(r, e, r'))
      && (!Delivers(r, s, call, m) ==> r' == if Learns(r, s, call, m) then r.(terminal := true) else r)
      && (o.Interrupted? <==> call.kind == COMPLETED && Stops(r, m))
      && (o.TooLarge? <==> !o.Interrupted? && !call.fits)
  {
    hide BuildEvent, Sound, Append, Publish, Delivers, Stops, AfterReply, Keeps, Learns;
    PublishGuards(r, s, call, m, maxLength);
    PublishStream(r, s, call, m, maxLength);
    PublishReporter(r, s, call, m, maxLength);
    AppendAdds(s, BuildEvent(r, call), maxLength);
  }

  lemma PublishStream(r: Reporter, s: Stream, call: Call, m: Moment, maxLength: nat)
    requires Sound(s) && maxLength >= 1
    ensures Publish(r, s, call, m, maxLength).1 == if Delivers(r, s, call, m) then Append(s, BuildEvent(r, call), maxLength) else s
  {
    hide BuildEvent, Sound, Append, Publish, Stops;
    PublishGuards(r, s, call, m, maxLength);
    NewestRetained(s);
  }

  lemma PublishReporter(r: Reporter, s: Stream, call: Call, m: Moment, maxLength: nat)
    requires Sound(s) && maxLength >= 1
    ensures
      var r', e := Publish(r, s, call, m, maxLength).0, BuildEvent(r, call);
      && (Delivers(r, s, call, m) ==>
            if Terminal(call.kind) then r' == r.(terminal := true) else Keeps(r, e, r'))
      && (!Delivers(r, s, call, m) ==> r' == if Learns(r, s, call, m) then r.(terminal := true) else r)
  {
    hide BuildEvent, Sound, Append, Publish, Stops;
    PublishGuards(r, s, call, m, maxLength);
    EventShape(r, call);
    NewestRetained(s);
  }

  lemma AppendAdds(s: Stream, e: Event, maxLength: nat)
    ensures Append(s, e, maxLength).history == s.history + [e]
  {
  }

  lemma PublishGuards(r: Reporter, s: Stream, call: Call, m: Moment, maxLength: nat)
    ensures
      var stopped := call.kind == COMPLETED && Stops(r, m);
      var (r', s', o) := Publish(r, s, call, m, maxLength);
      var e := BuildEvent(r, call);
      && (o.Interrupted? <==> stopped) && (o.TooLarge? <==> !stopped && !call.fits)
      && (if stopped || !call.fits || r.terminal || (call.kind == ACCEPTED && r.snapshot != map[]) then r' == r && s' == s
          else s' == Script(s, e, call.kind, maxLength).0 && r' == AfterReply(r, e, Script(s, e, call.kind, maxLength).1))
  {
    hide BuildEvent, Script, PhaseName;
    CheckExact(r, None, m);
  }

  // A call either leaves everything alone or is decided by the script.
  lemma PublishCases(r: Reporter, s: Stream, call: Call, m: Moment, maxLength: nat)
    ensures
      var (r', s', o) := Publish(r, s, call, m, maxLength);
      var e := BuildEvent(r, call);
      var (t, reply) := Script(s, e, call.kind, maxLength);
      || (r' == r && s' == s)
      || (r' == AfterReply(r, e, reply) && s' == t && o == Returned(e) && !r.terminal)
  {
  }

  // ---------------------------------------------------------------- restoring

  function Fresh(op: Operation, cancellable: bool, deadline: Option<int>, received: Option<int>): Reporter {
    Reporter(op, cancellable, false, map[], FirstPhase(op), deadline, received)
  }

  function RestoreEntry(r: Reporter, e: Event): Reporter {
    r.(phase := if r.snapshot == map[] && CurrentPhase in e.fields then e.fields[CurrentPhase].phase else r.phase,
       snapshot := e.fields + r.snapshot,
       terminal := r.terminal || Terminal(e.kind))
  }

  // Newest entry first.
  function Restore(r: Reporter, es: seq<Event>): Reporter
    decreases |es|
  {
    if es == [] then r else Restore(RestoreEntry(r, es[|es| - 1]), es[..|es| - 1])
  }

  // Newest-first with missing keys filled in is oldest-first with overwriting.
  lemma {:induction false} RestoreIsReplay(r: Reporter, es: seq<Event>)
    ensures
      var r' := Restore(r, es);
      && r'.snapshot == Replay(es) + r.snapshot
      && (r'.terminal <==> r.terminal || exists i :: 0 <= i < |es| && Terminal(es[i].kind))
      && r' == r.(snapshot := r'.snapshot, terminal := r'.terminal, phase := r'.phase)
      && (r.snapshot != map[] ==> r'.phase == r.phase)
    decreases |es|
  {
    if es != [] {
      var last, front := es[|es| - 1], es[..|es| - 1];
      RestoreIsReplay(RestoreEntry(r, last), front);
      MergeAssociates(Replay(front), last.fields, r.snapshot);
      assert forall i :: 0 <= i < |front| ==> front[i] == es[i];
      if r.snapshot != map[] {
        var k :| k in r.snapshot;
        assert k in last.fields + r.snapshot;
      }
    }
  }

  lemma RestoredPhase(r: Reporter, es: seq<Event>)
    requires es != [] && CurrentPhase in es[|es| - 1].fields && r.snapshot == map[]
    ensures Restore(r, es).phase == es[|es| - 1].fields[CurrentPhase].phase
  {
    var last, front := es[|es| - 1], es[..|es| - 1];
    assert CurrentPhase in RestoreEntry(r, last).snapshot;
    RestoreIsReplay(RestoreEntry(r, last), front);
  }
}
