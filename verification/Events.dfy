/**
 The event protocol of one operation, on values: what an event carries, the atomic script that
 appends it to a bounded stream, and what a reporter does with its own state around a call.
 */
module Events {
  import opened Wrappers

  datatype Operation = Training | Inference

  datatype Kind =
    | ACCEPTED | STARTED | PHASE | PROGRESS | METRICS | LOG
    | COMPLETED | FAILED | CANCELLED | OTHER

  datatype Phase =
    | QUEUED | ADMISSION | ADMITTED | PREPARING | EXECUTING | MATERIALIZING | PUBLISHING
    | DONE | FAILURE | CANCELLATION
    | LOADING_DATA | TRAINING | EVALUATING
    | INIT | LOAD_MODEL | READ_INPUT | PREDICT | WRITE_RESULT | CLEANUP
    | Named(name: string)

  // The fields of an event that a replacement reporter can recover.
  datatype Field =
    | ProcessedRows | ResultRows | TotalRows | Percent
    | CurrentRound | TotalRounds | ProgressPercent | CurrentPhase

  datatype Value = Count(n: int) | Share(share: real) | At(phase: Phase)

  predicate Fits(f: Field, v: Value) {
    match f
    case Percent | ProgressPercent => v.Share?
    case CurrentPhase => v.At?
    case _ => v.Count?
  }

  // Callers pass whole row counts and real percentages, so the casts in the builders are identities.
  type Fields = m: map<Field, Value> | forall f :: f in m ==> Fits(f, m[f]) witness map[]

  datatype Event = Event(kind: Kind, fields: Fields)

  predicate Terminal(k: Kind) {
    k == COMPLETED || k == FAILED || k == CANCELLED
  }

  // ---------------------------------------------------------------- the stream

  // `history` is everything ever appended; `retained` is what trimming has left of it.
  datatype Stream = Stream(history: seq<Event>, retained: seq<Event>)

  const EMPTY := Stream([], [])

  datatype Reply = Appended | Closed | Late

  function Trim(es: seq<Event>, maxLength: nat): seq<Event> {
    if |es| > maxLength then es[|es| - maxLength..] else es
  }

  function Append(s: Stream, e: Event, maxLength: nat): Stream {
    Stream(s.history + [e], Trim(s.retained + [e], maxLength))
  }

  // The script looks at the newest entry only.
  function Script(s: Stream, e: Event, call: Kind, maxLength: nat): (Stream, Reply) {
    if |s.retained| > 0 && Terminal(s.retained[|s.retained| - 1].kind) then (s, Closed)
    else if |s.retained| > 0 && call == ACCEPTED then (s, Late)
    else (Append(s, e, maxLength), Appended)
  }

  predicate Ended(es: seq<Event>) {
    |es| > 0 && Terminal(es[|es| - 1].kind)
  }

  predicate Suffix(tail: seq<Event>, es: seq<Event>) {
    |tail| <= |es| && tail == es[|es| - |tail|..]
  }

  // At most one terminal event and nothing after it; the newest events are the ones retained.
  predicate Sound(s: Stream) {
    && (forall i :: 0 <= i < |s.history| - 1 ==> !Terminal(s.history[i].kind))
    && Suffix(s.retained, s.history)
    && (s.history != [] ==> s.retained != [])
  }

  lemma AppendSound(s: Stream, e: Event, maxLength: nat)
    requires Sound(s) && !Ended(s.history) && maxLength >= 1
    ensures Sound(Append(s, e, maxLength))
  {
    var t := Append(s, e, maxLength);
    var n, k := |s.history|, |s.retained|;
    assert s.retained + [e] == t.history[n - k..];
    assert t.retained == t.history[|t.history| - |t.retained|..];
  }

  lemma NewestRetained(s: Stream)
    requires Sound(s)
    ensures Ended(s.retained) <==> Ended(s.history)
    ensures s.retained == [] <==> s.history == []
  {
    var n, k := |s.history|, |s.retained|;
    if k > 0 {
      assert s.retained[k - 1] == s.history[n - 1];
    }
  }

  // The script keeps the stream sound, refuses exactly when it has ended, and lets an admission
  // in only as the first event.
  lemma ScriptSound(s: Stream, e: Event, call: Kind, maxLength: nat)
    requires Sound(s) && maxLength >= 1
    ensures Sound(Script(s, e, call, maxLength).0)
    ensures Script(s, e, call, maxLength).1 == Closed <==> Ended(s.history)
    ensures call == ACCEPTED && Script(s, e, call, maxLength).1 == Appended ==> s.history == []
    ensures Script(s, e, call, maxLength).1 == Late ==> call == ACCEPTED
    ensures Script(s, e, call, maxLength).0 == if Script(s, e, call, maxLength).1 == Appended then Append(s, e, maxLength) else s
  {
    hide Sound, Append;
    NewestRetained(s);
    if !Ended(s.history) {
      AppendSound(s, e, maxLength);
    }
  }

  // ---------------------------------------------------------------- recovering progress

  // Oldest first, later values overwrite: what the writer itself keeps.
  function Replay(es: seq<Event>): Fields {
    if es == [] then map[] else Replay(es[..|es| - 1]) + es[|es| - 1].fields
  }

  predicate Carried(es: seq<Event>, f: Field) {
    exists i :: 0 <= i < |es| && f in es[i].fields
  }

  lemma {:induction false} ReplayKeys(es: seq<Event>, f: Field)
    ensures f in Replay(es) <==> Carried(es, f)
  {
    if es != [] {
      var front := es[..|es| - 1];
      ReplayKeys(front, f);
      if Carried(es, f) && f !in es[|es| - 1].fields {
        var i :| 0 <= i < |es| && f in es[i].fields;
        assert f in front[i].fields;
      }
      if Carried(front, f) {
        var i :| 0 <= i < |front| && f in front[i].fields;
        assert f in es[i].fields;
      }
    }
  }

  lemma MergeAssociates(a: Fields, b: Fields, c: Fields)
    ensures (a + b) + c == a + (b + c)
  {
  }

  lemma {:induction false} ReplayConcat(a: seq<Event>, b: seq<Event>)
    ensures Replay(a + b) == Replay(a) + Replay(b)
  {
    if b == [] {
      assert a + b == a;
    } else {
      var front := b[..|b| - 1];
      assert (a + b)[..|a + b| - 1] == a + front;
      ReplayConcat(a, front);
      MergeAssociates(Replay(a), Replay(front), b[|b| - 1].fields);
    }
  }

  // Trimming loses only the keys that no retained event carries.
  lemma TrimmedReplay(tail: seq<Event>, es: seq<Event>, f: Field)
    requires Suffix(tail, es) && Carried(tail, f)
    ensures f in Replay(tail) && f in Replay(es) && Replay(tail)[f] == Replay(es)[f]
  {
    var head := es[..|es| - |tail|];
    assert es == head + tail;
    ReplayConcat(head, tail);
    ReplayKeys(tail, f);
  }

  lemma ReplayNewest(es: seq<Event>, f: Field)
    requires es != [] && f in es[|es| - 1].fields
    ensures f in Replay(es) && Replay(es)[f] == es[|es| - 1].fields[f]
  {
  }
}
