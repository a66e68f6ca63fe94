/**
 Any number of reporters (admission, driver, watchers) on the stream of one operation, over
 every interleaving of their calls.
 */
module Sessions {
  import opened Wrappers
  import opened Events
  import opened Reporters

  datatype Session = Session(op: Operation, maxLength: nat, stream: Stream, reporters: map<nat, Reporter>)

  datatype Action =
    | Attach(id: nat, cancellable: bool, deadline: Option<int>, received: Option<int>)
    | Control(id: nat, phase: Option<Phase>, m: Moment)
    | SetLimit(id: nat, limit: Option<int>, m: Moment)
    | Emit(id: nat, call: Call, m: Moment)

  function Act(s: Session, a: Action): Session {
    match a
    case Attach(id, cancellable, deadline, received) =>
      if id in s.reporters then s
      else
        var newcomer := Fresh(s.op, cancellable, deadline, received);
        s.(reporters := s.reporters[id := Restore(newcomer, Trim(s.stream.retained, s.maxLength))])
    case Control(id, phase, m) =>
      if id !in s.reporters then s
      else s.(reporters := s.reporters[id := Check(s.reporters[id], phase, m).0])
    case SetLimit(id, limit, m) =>
      if id !in s.reporters then s
      else s.(reporters := s.reporters[id := Configure(s.reporters[id], limit, m)])
    case Emit(id, call, m) =>
      if id !in s.reporters then s
      else
        var (r, stream, _) := Publish(s.reporters[id], s.stream, call, m, s.maxLength);
        s.(stream := stream, reporters := s.reporters[id := r])
  }

  function Run(s: Session, actions: seq<Action>): Session {
    if actions == [] then s else Act(Run(s, actions[..|actions| - 1]), actions[|actions| - 1])
  }

  // ---------------------------------------------------------------- terminal exclusion

  // The stream is sound and trimmed no further than it has to be, and a reporter believes it is
  // closed only when it is.
  predicate Coherent(s: Session) {
    && s.maxLength >= 1
    && Sound(s.stream)
    && |s.stream.retained| == (if |s.stream.history| <= s.maxLength then |s.stream.history| else s.maxLength)
    && (forall i :: 0 <= i < |s.stream.history| ==> CurrentPhase in s.stream.history[i].fields)
    && (forall id :: id in s.reporters ==>
          s.reporters[id].op == s.op && (s.reporters[id].terminal ==> Ended(s.stream.history)))
  }

  lemma PublishCoherent(s: Session, id: nat, call: Call, m: Moment)
    requires Coherent(s) && id in s.reporters
    ensures Coherent(Act(s, Emit(id, call, m)))
    ensures
      var t := Act(s, Emit(id, call, m)).stream;
      t == s.stream || (t == Append(s.stream, BuildEvent(s.reporters[id], call), s.maxLength) && !Ended(s.stream.history))
  {
    hide BuildEvent, Script, Sound, Publish, AfterReply, Append;
    var r := s.reporters[id];
    PublishCases(r, s.stream, call, m, s.maxLength);
    EventShape(r, call);
    ScriptSound(s.stream, BuildEvent(r, call), call.kind, s.maxLength);
    AppendMeans(s.stream, BuildEvent(r, call), s.maxLength);
    FlagAfterReply(r, BuildEvent(r, call), Script(s.stream, BuildEvent(r, call), call.kind, s.maxLength).1);
  }

  lemma AppendMeans(s: Stream, e: Event, maxLength: nat)
    ensures Append(s, e, maxLength).history == s.history + [e]
    ensures |Append(s, e, maxLength).retained| == if |s.retained| + 1 <= maxLength then |s.retained| + 1 else maxLength
  {
  }

  lemma FlagAfterReply(r: Reporter, e: Event, reply: Reply)
    ensures AfterReply(r, e, reply).op == r.op
    ensures AfterReply(r, e, reply).terminal ==> r.terminal || reply == Closed || (reply == Appended && Terminal(e.kind))
  {
  }

  // A replacement believes the stream is closed only if a retained entry closed it.
  lemma RestoredClosed(r: Reporter, s: Stream)
    requires Sound(s) && !r.terminal
    ensures Restore(r, s.retained).terminal ==> Ended(s.history)
    ensures Restore(r, s.retained).op == r.op
  {
    hide Restore;
    var es := s.retained;
    RestoreIsReplay(r, es);
    if i :| 0 <= i < |es| && Terminal(es[i].kind) {
      assert es[i] == s.history[|s.history| - |es| + i];
    }
  }

  lemma AttachCoherent(s: Session, a: Action)
    requires Coherent(s) && a.Attach?
    ensures Coherent(Act(s, a))
  {
    hide Restore, Sound;
    RestoredClosed(Fresh(s.op, a.cancellable, a.deadline, a.received), s.stream);
  }

  // A check or a new limit is the reporter's own business.
  lemma LocalCoherent(s: Session, a: Action)
    requires Coherent(s) && (a.Control? || a.SetLimit?)
    ensures Coherent(Act(s, a)) && Act(s, a).stream == s.stream
  {
    hide Sound;
  }

  lemma StreamMoves(s: Session, a: Action)
    ensures !a.Emit? || a.id !in s.reporters ==> Act(s, a).stream == s.stream
    ensures a.Emit? && a.id !in s.reporters ==> Act(s, a) == s
  {
    hide Restore, Publish, Check, Configure;
  }

  lemma ActCoherent(s: Session, a: Action)
    requires Coherent(s)
    ensures Coherent(Act(s, a))
    ensures Act(s, a).stream == s.stream || !Ended(s.stream.history)
  {
    hide Coherent, Act;
    StreamMoves(s, a);
    match a
    case Attach(_, _, _, _) => AttachCoherent(s, a);
    case Control(_, _, _) => LocalCoherent(s, a);
    case SetLimit(_, _, _) => LocalCoherent(s, a);
    case Emit(id, call, m) =>
      if id in s.reporters {
        PublishCoherent(s, id, call, m);
      }
  }

  function Opened(op: Operation, maxLength: nat): Session {
    Session(op, maxLength, EMPTY, map[])
  }

  // Every interleaving: at most one terminal event, nothing after it, and what is retained is
  // the newest part of the history.
  lemma {:induction false} RunCoherent(s: Session, actions: seq<Action>)
    requires Coherent(s)
    ensures Coherent(Run(s, actions))
    ensures Ended(s.stream.history) ==> Run(s, actions).stream == s.stream
  {
    if actions != [] {
      var front := actions[..|actions| - 1];
      RunCoherent(s, front);
      ActCoherent(Run(s, front), actions[|actions| - 1]);
    }
  }

  // At most one terminal event and nothing after it, trimmed to the newest `maxLength` events,
  // and closed only for reporters of a stream that has ended.
  predicate OneEnding(s: Session, maxLength: nat) {
    && (forall i :: 0 <= i < |s.stream.history| && Terminal(s.stream.history[i].kind) ==> i == |s.stream.history| - 1)
    && Suffix(s.stream.retained, s.stream.history)
    && |s.stream.retained| == (if |s.stream.history| <= maxLength then |s.stream.history| else maxLength)
    && (forall id :: id in s.reporters && s.reporters[id].terminal ==> Ended(s.stream.history))
  }

  lemma TerminalExclusion(op: Operation, maxLength: nat, actions: seq<Action>)
    requires maxLength >= 1
    ensures OneEnding(Run(Opened(op, maxLength), actions), maxLength)
  {
    hide Run, Coherent, OneEnding;
    OpenedCoherent(op, maxLength);
    RunCoherent(Opened(op, maxLength), actions);
    RunKeepsSettings(Opened(op, maxLength), actions);
    CoherentMeans(Run(Opened(op, maxLength), actions));
  }

  lemma OpenedCoherent(op: Operation, maxLength: nat)
    requires maxLength >= 1
    ensures Coherent(Opened(op, maxLength))
  {
  }

  lemma CoherentMeans(s: Session)
    requires Coherent(s)
    ensures OneEnding(s, s.maxLength)
  {
  }

  // An admission is recorded only as the first event of its stream.
  lemma AdmissionComesFirst(op: Operation, maxLength: nat, actions: seq<Action>, id: nat, call: Call, m: Moment)
    requires maxLength >= 1 && call.kind == ACCEPTED
    ensures
      var s := Run(Opened(op, maxLength), actions);
      Act(s, Emit(id, call, m)).stream != s.stream ==> s.stream == EMPTY
  {
    hide Run, Coherent, Act;
    OpenedCoherent(op, maxLength);
    RunCoherent(Opened(op, maxLength), actions);
    AdmissionNeedsEmpty(Run(Opened(op, maxLength), actions), id, call, m);
  }

  lemma AdmissionNeedsEmpty(s: Session, id: nat, call: Call, m: Moment)
    requires Coherent(s) && call.kind == ACCEPTED
    ensures Act(s, Emit(id, call, m)).stream != s.stream ==> s.stream == EMPTY
  {
    hide Script, BuildEvent, Publish, Sound, AfterReply;
    StreamMoves(s, Emit(id, call, m));
    NewestRetained(s.stream);
    if id in s.reporters {
      var r := s.reporters[id];
      PublishCases(r, s.stream, call, m, s.maxLength);
      ScriptSound(s.stream, BuildEvent(r, call), ACCEPTED, s.maxLength);
    }
  }

  // In every state that can be reached a call appends its event exactly when it delivers it, and
  // otherwise changes nothing of the stream.
  lemma EmitExact(op: Operation, maxLength: nat, actions: seq<Action>, id: nat, call: Call, m: Moment)
    requires maxLength >= 1
    ensures
      var s := Run(Opened(op, maxLength), actions);
      id in s.reporters ==>
        var r, t := s.reporters[id], Act(s, Emit(id, call, m));
        && t.stream.history == (if Delivers(r, s.stream, call, m) then s.stream.history + [BuildEvent(r, call)] else s.stream.history)
        && (!Delivers(r, s.stream, call, m) ==> t.stream == s.stream)
  {
    hide Run, Coherent, BuildEvent, Publish, Delivers;
    var s := Run(Opened(op, maxLength), actions);
    OpenedCoherent(op, maxLength);
    RunCoherent(Opened(op, maxLength), actions);
    CoherentSound(s);
    if id in s.reporters {
      PublishExact(s.reporters[id], s.stream, call, m, s.maxLength);
    }
  }

  lemma CoherentSound(s: Session)
    requires Coherent(s)
    ensures Sound(s.stream) && s.maxLength >= 1
  {
  }

  // ---------------------------------------------------------------- limits

  predicate Within(d: Option<int>, bound: int) {
    d.Some? && d.value <= bound
  }

  lemma ActKeepsLimit(s: Session, a: Action, id: nat, bound: int)
    requires id in s.reporters && Within(s.reporters[id].deadline, bound)
    ensures id in Act(s, a).reporters && Within(Act(s, a).reporters[id].deadline, bound)
  {
  }

  lemma {:induction false} RunKeepsLimit(s: Session, actions: seq<Action>, id: nat, bound: int)
    requires id in s.reporters && Within(s.reporters[id].deadline, bound)
    ensures id in Run(s, actions).reporters && Within(Run(s, actions).reporters[id].deadline, bound)
  {
    if actions != [] {
      var front := actions[..|actions| - 1];
      RunKeepsLimit(s, front, id, bound);
      ActKeepsLimit(Run(s, front), actions[|actions| - 1], id, bound);
    }
  }

  // Once a limit is set, whatever happens next, that reporter completes only before it, and only
  // while no cancel key is seen.
  lemma CompletionRespectsLimit(s: Session, id: nat, limit: int, m: Moment, actions: seq<Action>, call: Call, m': Moment)
    requires id in s.reporters && call.kind == COMPLETED
    ensures
      var r := s.reporters[id];
      var s' := Run(Act(s, SetLimit(id, Some(limit), m)), actions);
      Act(s', Emit(id, call, m')).stream != s'.stream ==>
        && m'.now < (if r.received.Some? then r.received.value else m.now - m.age) + limit
        && id in s'.reporters && !(s'.reporters[id].cancellable && m'.cancelled)
  {
    RunKeepsLimit(Act(s, SetLimit(id, Some(limit), m)), actions, id, ReceivedAt(s.reporters[id], m) + limit);
  }

  // ---------------------------------------------------------------- succession

  predicate By(a: Action, id: nat) {
    a.id == id || !a.Emit?
  }

  // One writer: it knows exactly what its events say.
  predicate Knows(s: Session, id: nat) {
    && id in s.reporters && !s.reporters[id].terminal
    && s.reporters[id].snapshot == Replay(s.stream.history)
    && !Ended(s.stream.history)
  }

  lemma ActKnows(s: Session, a: Action, id: nat)
    requires Coherent(s) && Knows(s, id) && By(a, id)
    ensures Ended(Act(s, a).stream.history) || Knows(Act(s, a), id)
  {
    hide BuildEvent, Script, Sound, Publish;
    if a.Emit? && a.id in s.reporters {
      var r := s.reporters[id];
      PublishCases(r, s.stream, a.call, a.m, s.maxLength);
      EventShape(r, a.call);
      ScriptSound(s.stream, BuildEvent(r, a.call), a.call.kind, s.maxLength);
      var h := s.stream.history + [BuildEvent(r, a.call)];
      assert h[..|h| - 1] == s.stream.history;
    }
  }

  lemma {:induction false} RunKnows(s: Session, actions: seq<Action>, id: nat)
    requires Coherent(s) && Knows(s, id) && forall i :: 0 <= i < |actions| ==> By(actions[i], id)
    ensures Ended(Run(s, actions).stream.history) || Knows(Run(s, actions), id)
  {
    hide Coherent, Knows, Act, By;
    if actions != [] {
      var front, last := actions[..|actions| - 1], actions[|actions| - 1];
      assert forall i :: 0 <= i < |front| ==> By(front[i], id);
      RunKnows(s, front, id);
      RunCoherent(s, front);
      ActCoherent(Run(s, front), last);
      if Knows(Run(s, front), id) {
        ActKnows(Run(s, front), last, id);
      }
    }
  }

  // The successor agrees with the writer on every field some retained event carries, and on
  // everything when nothing has been trimmed.
  predicate Recovers(stream: Stream, writer: Reporter, successor: Reporter) {
    && (forall f :: Carried(stream.retained, f) ==>
          f in successor.snapshot && f in writer.snapshot && successor.snapshot[f] == writer.snapshot[f])
    && (stream.retained == stream.history ==> successor.snapshot == writer.snapshot)
    && (stream.history != [] ==>
          CurrentPhase in writer.snapshot && writer.snapshot[CurrentPhase] == At(successor.phase))
    && !successor.terminal
  }

  lemma AttachRecovers(t: Session, writer: nat, a: Action)
    requires Coherent(t) && Knows(t, writer) && a.Attach? && a.id !in t.reporters
    ensures Recovers(t.stream, t.reporters[writer], Act(t, a).reporters[a.id])
  {
    var newcomer := Fresh(t.op, a.cancellable, a.deadline, a.received);
    var successor := Restore(newcomer, t.stream.retained);
    assert Act(t, a).reporters[a.id] == successor;
    AttachCoherent(t, a);
    assert !successor.terminal;
    RestoreRecovers(newcomer, t.stream);
  }

  lemma RestoreRecovers(r: Reporter, s: Stream)
    requires Sound(s) && r.snapshot == map[]
    requires forall i :: 0 <= i < |s.history| ==> CurrentPhase in s.history[i].fields
    ensures
      var r' := Restore(r, s.retained);
      && r'.snapshot == Replay(s.retained)
      && (forall f :: Carried(s.retained, f) ==>
            f in Replay(s.retained) && f in Replay(s.history) && Replay(s.retained)[f] == Replay(s.history)[f])
      && (s.history != [] ==> CurrentPhase in Replay(s.history) && Replay(s.history)[CurrentPhase] == At(r'.phase))
  {
    hide Restore, Replay, Carried;
    RestoreIsReplay(r, s.retained);
    assert Replay(s.retained) + map[] == Replay(s.retained);
    forall f | Carried(s.retained, f)
      ensures f in Replay(s.retained) && f in Replay(s.history) && Replay(s.retained)[f] == Replay(s.history)[f]
    {
      TrimmedReplay(s.retained, s.history, f);
    }
    if s.history != [] {
      var n, k := |s.history|, |s.retained|;
      assert s.retained[k - 1] == s.history[n - 1];
      RestoredPhase(r, s.retained);
      ReplayNewest(s.history, CurrentPhase);
    }
  }

  // The only writer of a stream that is still open.
  predicate SoleWriter(s: Session, writer: nat, actions: seq<Action>) {
    && Coherent(s) && Knows(s, writer)
    && (forall i :: 0 <= i < |actions| ==> By(actions[i], writer))
    && !Ended(Run(s, actions).stream.history)
  }

  // The first reporter of a new operation knows its stream.
  lemma FirstReporterKnows(op: Operation, maxLength: nat, a: Action)
    requires maxLength >= 1 && a.Attach?
    ensures Coherent(Act(Opened(op, maxLength), a)) && Knows(Act(Opened(op, maxLength), a), a.id)
  {
    hide Coherent;
    OpenedCoherent(op, maxLength);
    AttachCoherent(Opened(op, maxLength), a);
  }

  // A replacement for the only writer of an open stream recovers what it knew.
  lemma SuccessorRecovers(s: Session, writer: nat, actions: seq<Action>, a: Action)
    ensures SoleWriter(s, writer, actions) && a.Attach? && a.id !in Run(s, actions).reporters ==>
      && writer in Run(s, actions).reporters && a.id in Act(Run(s, actions), a).reporters
      && Recovers(Run(s, actions).stream, Run(s, actions).reporters[writer], Act(Run(s, actions), a).reporters[a.id])
  {
    hide Coherent, Restore, Recovers;
    if SoleWriter(s, writer, actions) && a.Attach? && a.id !in Run(s, actions).reporters {
      RunCoherent(s, actions);
      RunKnows(s, actions, writer);
      AttachRecovers(Run(s, actions), writer, a);
    }
  }

  // While the stream fits its bound, a replacement that has to cancel an inference reports
  // exactly the progress its predecessor last knew.
  lemma SuccessorReports(s: Session, writer: nat, actions: seq<Action>, a: Action, f: Field)
    requires f in {ProcessedRows, ResultRows, TotalRows, Percent}
    ensures
      var t := Run(s, actions);
      SoleWriter(s, writer, actions) && a.Attach? && a.id !in t.reporters && |t.stream.history| <= s.maxLength && s.op == Inference ==>
        && writer in t.reporters && a.id in Act(t, a).reporters
        && var known, e := t.reporters[writer].snapshot, BuildEvent(Act(t, a).reporters[a.id], Call(CANCELLED, map[], None, true));
        && f in e.fields && e.fields[f] == if f in known then known[f] else Zero(f)
  {
    hide BuildEvent, Run, Coherent, Knows;
    var t := Run(s, actions);
    if SoleWriter(s, writer, actions) && a.Attach? && a.id !in t.reporters && |t.stream.history| <= s.maxLength && s.op == Inference {
      SuccessorRecovers(s, writer, actions, a);
      RunKeepsSettings(s, actions);
      RunCoherent(s, actions);
      AllRetained(t);
      RestoreIsReplay(Fresh(t.op, a.cancellable, a.deadline, a.received), Trim(t.stream.retained, t.maxLength));
      var successor := Act(t, a).reporters[a.id];
      var call := Call(CANCELLED, map[], None, true);
      RowsCarried(successor, call);
      EventCarries(successor, call, f);
    }
  }

  lemma AllRetained(s: Session)
    requires Coherent(s) && |s.stream.history| <= s.maxLength
    ensures s.stream.retained == s.stream.history
  {
  }

  lemma {:induction false} RunKeepsSettings(s: Session, actions: seq<Action>)
    ensures Run(s, actions).op == s.op && Run(s, actions).maxLength == s.maxLength
  {
    if actions != [] {
      RunKeepsSettings(s, actions[..|actions| - 1]);
    }
  }
}
