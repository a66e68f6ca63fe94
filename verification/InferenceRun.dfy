/**
 One inference execution: batches counted as workers finish them, results written once, and
 attempts repeated with half the batch while memory runs out before the write.
 */
module InferenceRun {
  import opened Wrappers
  import opened Relational
  import opened TrainingQuery
  import opened InferenceQuery
  import opened Batching

  // A progress event: rows processed and the percentage in tenths.
  datatype Report = Report(rows: nat, tenths: nat)

  // What the queue yields: a finished batch, or nothing for a while, when control is checked.
  datatype Item = Rows(n: nat) | Idle

  datatype Trouble = Interrupted | Broken

  function Sum(items: seq<Item>): nat {
    if items == [] then 0
    else Sum(items[..|items| - 1]) + if items[|items| - 1].Rows? then items[|items| - 1].n else 0
  }

  // Never falling back, and below 100 percent.
  predicate Rising(reports: seq<Report>) {
    && (forall i, j :: 0 <= i < j < |reports| ==> reports[i].rows <= reports[j].rows && reports[i].tenths <= reports[j].tenths)
    && (forall i :: 0 <= i < |reports| ==> reports[i].tenths <= 999)
  }

  // Each report is at least `interval` rows past the one before.
  predicate Spaced(reports: seq<Report>, interval: nat) {
    forall i :: 0 <= i < |reports| ==> reports[i].rows >= interval + LastRows(reports[..i])
  }

  lemma {:induction false} SpacedCount(reports: seq<Report>, interval: nat)
    requires Spaced(reports, interval) && reports != []
    ensures |reports| * interval <= reports[|reports| - 1].rows
  {
    hide Spaced;
    var front := reports[..|reports| - 1];
    SpacedFront(reports, interval);
    if front == [] {
      assert |reports| * interval == interval;
    } else {
      SpacedCount(front, interval);
      assert |reports| * interval == |front| * interval + interval;
    }
  }

  lemma SpacedFront(reports: seq<Report>, interval: nat)
    requires Spaced(reports, interval) && reports != []
    ensures
      var front := reports[..|reports| - 1];
      Spaced(front, interval) && reports[|reports| - 1].rows >= interval + LastRows(front)
  {
    var front := reports[..|reports| - 1];
    forall i | 0 <= i < |front| ensures front[..i] == reports[..i] && front[i] == reports[i] {}
  }

  function LastRows(reports: seq<Report>): nat {
    if reports == [] then 0 else reports[|reports| - 1].rows
  }

  // The events published so far, after `processed` rows.
  predicate Accounts(reports: seq<Report>, processed: nat, interval: nat, total: nat) {
    && Spaced(reports, interval) && Rising(reports)
    && (forall i :: 0 <= i < |reports| ==> reports[i].rows <= processed && reports[i].tenths == Tenths(reports[i].rows, total))
  }

  lemma AccountsCount(reports: seq<Report>, processed: nat, interval: nat, total: nat)
    requires Accounts(reports, processed, interval, total)
    ensures |reports| * interval <= processed
    ensures Rising(reports + [Report(processed, 999)])
  {
    if reports != [] {
      SpacedCount(reports, interval);
    }
  }

  lemma AccountsLater(reports: seq<Report>, processed: nat, processed': nat, interval: nat, total: nat)
    requires Accounts(reports, processed, interval, total) && processed <= processed'
    ensures Accounts(reports, processed', interval, total)
  {
  }

  lemma SpacedPublished(reports: seq<Report>, r: Report, interval: nat)
    requires Spaced(reports, interval) && r.rows >= LastRows(reports) + interval
    ensures Spaced(reports + [r], interval)
  {
    var longer := reports + [r];
    forall i | 0 <= i < |longer| ensures longer[i].rows >= interval + LastRows(longer[..i]) {
      assert longer[..i] == reports[..i];
      assert reports[..|reports|] == reports;
    }
  }

  lemma RisingPublished(reports: seq<Report>, r: Report)
    requires Rising(reports) && r.tenths <= 999
    requires forall i :: 0 <= i < |reports| ==> reports[i].rows <= r.rows && reports[i].tenths <= r.tenths
    ensures Rising(reports + [r])
  {
  }

  lemma AccountsPublished(reports: seq<Report>, processed: nat, interval: nat, total: nat)
    requires Accounts(reports, processed, interval, total) && processed >= LastRows(reports) + interval
    ensures Accounts(reports + [Report(processed, Tenths(processed, total))], processed, interval, total)
  {
    hide Spaced, Rising, Tenths;
    var r := Report(processed, Tenths(processed, total));
    TenthsMonotone(processed, processed, total);
    forall i | 0 <= i < |reports| ensures reports[i].tenths <= r.tenths {
      TenthsMonotone(reports[i].rows, processed, total);
    }
    SpacedPublished(reports, r, interval);
    RisingPublished(reports, r);
  }

  class InferenceProgress {
    const total: nat
    const interval: nat
    var processed: nat
    var reported: nat
    var published: seq<Report>

    predicate Counted()
      reads this
    {
      reported == LastRows(published) && Accounts(published, processed, interval, total)
    }

    constructor (total: nat, interval: nat)
      requires interval >= 1
      ensures this.total == total && this.interval == interval
      ensures processed == 0 && published == [] && Counted()
    {
      this.total, this.interval, processed, reported, published := total, interval, 0, 0, [];
    }

    // One event for at least every `interval` rows, until the queue closes or something raises.
    method Pump(items: seq<Item>) returns (trouble: Option<Trouble>, taken: nat)
      requires interval >= 1 && Counted() && processed == 0 && published == []
      modifies this
      ensures taken <= |items| && processed == Sum(items[..taken])
      ensures Counted() && |published| * interval <= processed
      ensures trouble.None? ==> taken == |items| && reported <= processed < reported + interval
    {
      hide Accounts;
      taken := 0;
      trouble := None;
      while taken < |items| && trouble.None?
        invariant taken <= |items| && processed == Sum(items[..taken])
        invariant Counted()
        invariant trouble.None? ==> reported <= processed < reported + interval
      {
        var item := items[taken];
        assert items[..taken + 1][..taken] == items[..taken];
        taken := taken + 1;
        match item
        case Idle =>
          var stopped: bool := *;
          if stopped {
            trouble := Some(Interrupted);
          }
        case Rows(n) =>
          AccountsLater(published, processed, processed + n, interval, total);
          processed := processed + n;
          if processed - reported >= interval {
            var refused: bool := *;
            if refused {
              trouble := Some(Broken);
            } else {
              AccountsPublished(published, processed, interval, total);
              published := published + [Report(processed, Tenths(processed, total))];
              reported := processed;
            }
          }
      }
      AccountsCount(published, processed, interval, total);
      assert trouble.None? ==> items[..taken] == items;
    }
  }

  // ---------------------------------------------------------------- one execution

  // As declared, or as verified and perhaps normalised.
  datatype Model = Declared | Verified(id: nat)

  // The part of a request that is prepared once and rebuilt for every attempt.
  datatype CoreRequest = CoreRequest(batch: nat, model: Model, binding: seq<string>)

  // Every rebuilt request has the declared model and the declared column order.
  function BuildRequest(features: seq<Column>, batch: nat): CoreRequest {
    CoreRequest(batch, Declared, Sources(features))
  }

  // What one attempt hands to the runtime, what came of it, and whether it came to write results.
  datatype Attempt = Attempt(
    batch: nat,
    model: Model,
    binding: seq<string>,
    columns: seq<string>,
    resultNames: seq<string>,
    modelNames: seq<string>,
    result: RunResult,
    wrote: bool)

  datatype FailurePhase = Acquisition | Materialization | Writing

  datatype RunResult =
    | Succeeded(rows: nat)
    | Failed(phase: FailurePhase, memoryPressure: bool)
    | Stopped
    | Unresolved

  datatype Final =
    | Completed(rows: nat)
    | Refused
    | SchemaMismatch
    | EmptyInput
    | CountFailed
    | ControlRaised
    | ModelLoadFailed
    | NotSucceeded(phase: FailurePhase)
    | Unpublished

  const MAX_RETRIES := 3

  // Attempt `k` runs the verified model on the same columns with the first batch halved `k` times.
  predicate AttemptOk(a: Attempt, k: nat, batch: nat, model: Model, columns: seq<string>, names: seq<string>) {
    && a.batch == Halved(batch, k) && a.batch >= 1
    && a.model == model && a.model.Verified?
    && a.binding == columns && a.columns == columns
    && a.resultNames == names && a.modelNames == names
  }

  // Memory ran out before the write, and there is a smaller batch to try.
  predicate OutOfMemory(a: Attempt) {
    a.result == Failed(Materialization, true) && a.batch > 1
  }

  // The outcome of a run by the result of its last attempt.
  predicate Concludes(r: Final, result: RunResult) {
    match result
    case Succeeded(rows) => r == Completed(rows)
    case Failed(phase, _) => r == NotSucceeded(phase)
    case Stopped => r == ControlRaised
    case Unresolved => r == ModelLoadFailed
  }

  // Only the last of the attempts may have written, and only memory gave rise to the others.
  predicate AttemptsOk(attempts: seq<Attempt>, batch: nat, model: Model, columns: seq<string>, names: seq<string>) {
    && (forall k :: 0 <= k < |attempts| ==> AttemptOk(attempts[k], k, batch, model, columns, names))
    && (forall k :: 0 <= k < |attempts| - 1 ==> !attempts[k].wrote && OutOfMemory(attempts[k]))
  }

  // A whole attempt's progress: rising below 100 percent until the last event says 100.
  predicate RisesToEnd(trail: seq<Report>) {
    && |trail| >= 2 && trail[|trail| - 1].tenths == 1000
    && trail[|trail| - 1].rows == trail[|trail| - 2].rows
    && Rising(trail[..|trail| - 1])
  }

  // Everything an execution needs before it counts its input.
  predicate Preparable(engine: Engine, l: Layout, sql: Sql, requested: Requested, names: seq<string>) {
    && LayoutOk(engine, l, sql) && ExecutionPolicy(requested, None, None).Some?
    && Alone(l.features) && NamesMatch(l.features, names)
  }

  class Execution {
    const engine: Engine
    const layout: Layout
    const sql: Sql
    const names: seq<string>       // of the verified model
    const requested: Requested
    const interval: nat
    const undisturbed: bool        // no reporter call and no counting query raises

    var writes: nat                // how often results were written
    var attempts: seq<Attempt>
    var batches: seq<Item>         // what the workers finished in the latest attempt
    var trail: seq<Report>         // progress events of the latest attempt

    constructor (engine: Engine, layout: Layout, sql: Sql, names: seq<string>, requested: Requested, interval: nat, undisturbed: bool)
      requires interval >= 1
      ensures this.engine == engine && this.layout == layout && this.sql == sql && this.names == names
      ensures this.requested == requested && this.interval == interval && this.undisturbed == undisturbed
      ensures writes == 0 && attempts == [] && trail == [] && batches == []
    {
      this.engine, this.layout, this.sql, this.names := engine, layout, sql, names;
      this.requested, this.interval, this.undisturbed := requested, interval, undisturbed;
      writes, attempts, trail, batches := 0, [], [], [];
    }

    // A reporter check or publication, or a query, which may raise.
    method Control() returns (ok: bool)
      ensures undisturbed ==> ok
    {
      ok := true;
      if !undisturbed {
        ok := *;
      }
    }

    // The result sink: materialise while counting, publish, and only then write.
    method Write(total: nat) returns (r: RunResult)
      requires interval >= 1
      modifies `writes, `trail, `batches
      ensures r.Succeeded? || r.Failed? || r.Stopped?
      ensures writes == old(writes) || writes == old(writes) + 1
      ensures r.Succeeded? ==> writes == old(writes) + 1
      ensures r.Stopped? || (r.Failed? && r.phase != Writing) ==> writes == old(writes)
      ensures r.Succeeded? ==> Rising(trail) && trail != [] && trail[|trail| - 1].rows == Sum(batches)
    {
      trail, batches := [], [];
      var ok := Control();
      if !ok {
        return Stopped;
      }
      var progress := new InferenceProgress(total, interval);
      var items: seq<Item>, lost: bool := *, *;
      var trouble, taken := progress.Pump(items);
      trail, batches := progress.published, items[..taken];
      if trouble == Some(Interrupted) {
        return Stopped;
      }
      if lost || trouble.Some? {
        var pressure: bool := *;
        return Failed(Materialization, pressure);
      }
      ok := Control();
      if !ok {
        return Stopped;
      }
      AccountsCount(progress.published, progress.processed, interval, total);
      trail := trail + [Report(progress.processed, 999)];
      var refused: bool, effect: bool := *, *;
      if refused {
        if effect {
          writes := writes + 1;
        }
        return Failed(Writing, false);
      }
      writes := writes + 1;
      var rows: nat := *;
      r := Succeeded(rows);
    }

    // The inference runtime: it reports a materialization failure only before the sink's write.
    method RunInference(total: nat) returns (r: RunResult)
      requires interval >= 1
      modifies `writes, `trail, `batches
      ensures writes == old(writes) || writes == old(writes) + 1
      ensures r.Succeeded? ==> writes == old(writes) + 1
      ensures r.Stopped? || (r.Failed? && r.phase != Writing) ==> writes == old(writes)
      ensures r.Succeeded? ==> Rising(trail) && trail != [] && trail[|trail| - 1].rows == Sum(batches)
    {
      var stage: nat := *;
      match stage
      case 0 =>
        return Unresolved;
      case 1 =>
        return Failed(Acquisition, false);
      case _ =>
        r := Write(total);
        if r.Succeeded? {
          var late: bool := *;
          if late {
            r := Failed(Writing, false);
          }
        }
    }

    // One attempt: the rebuilt request and sink start from the declarations; the prepared model,
    // binding, columns and names replace them.
    method TryOnce(measured: nat, batch: nat, prepared: CoreRequest, preparedSink: Sink) returns (r: RunResult, a: Attempt)
      requires interval >= 1
      modifies `writes, `trail, `batches
      ensures a == Attempt(batch, prepared.model, prepared.binding, preparedSink.featureColumns,
                           preparedSink.featureResultNames, preparedSink.modelFeatureNames, r, writes > old(writes))
      ensures writes == old(writes) || writes == old(writes) + 1
      ensures r.Succeeded? ==> writes == old(writes) + 1
      ensures r.Stopped? || (r.Failed? && r.phase != Writing) ==> writes == old(writes)
      ensures r.Succeeded? ==> Rising(trail) && trail != [] && trail[|trail| - 1].rows == Sum(batches)
    {
      var core := BuildRequest(layout.features, batch);
      var sink := new Sink(layout.features);
      core := core.(model := prepared.model, binding := prepared.binding);
      sink.featureColumns := preparedSink.featureColumns;
      sink.featureResultNames := preparedSink.featureResultNames;
      sink.modelFeatureNames := preparedSink.modelFeatureNames;
      var before := writes;
      r := RunInference(measured);
      a := Attempt(core.batch, core.model, core.binding, sink.featureColumns, sink.featureResultNames,
                   sink.modelFeatureNames, r, writes > before);
    }

    // Attempts until one does not run out of memory, at most four.
    method Attempts(measured: nat, prepared: CoreRequest, sink: Sink) returns (r: Final)
      requires interval >= 1 && measured > 0 && attempts == [] && prepared.model.Verified?
      requires sink.featureColumns == prepared.binding && sink.featureResultNames == names && sink.modelFeatureNames == names
      modifies `writes, `attempts, `trail, `batches
      ensures |attempts| <= MAX_RETRIES + 1
      ensures attempts != [] ==>
        && ExecutionPolicy(requested, Some(measured), None).Some?
        && AttemptsOk(attempts, ExecutionPolicy(requested, Some(measured), None).value.predictorBatch,
                      prepared.model, prepared.binding, names)
      ensures writes <= old(writes) + 1
      ensures writes > old(writes) ==> attempts != [] && attempts[|attempts| - 1].wrote
      ensures r.Completed? ==> writes == old(writes) + 1
      ensures r.Completed? ==> trail != [] && Rising(trail) && trail[|trail| - 1].rows == Sum(batches)
      ensures !r.EmptyInput?
      // The last attempt decides, unless a reporter call raised; left alone, memory running out is
      // never the end before the fourth attempt or a batch of one.
      ensures attempts != [] ==> Concludes(r, attempts[|attempts| - 1].result) || r in {ControlRaised, Unpublished}
      ensures undisturbed ==>
        && (attempts == [] <==> ExecutionPolicy(requested, Some(measured), None).None?)
        && (attempts != [] ==>
              && Concludes(r, attempts[|attempts| - 1].result)
              && (OutOfMemory(attempts[|attempts| - 1]) ==> |attempts| == MAX_RETRIES + 1))
    {
      hide Rising;
      ghost var policy := ExecutionPolicy(requested, Some(measured), None);
      ghost var batch := if policy.Some? then policy.value.predictorBatch else 0;
      var retries, next: Option<int> := 0, None;
      while true
        invariant retries == |attempts| <= MAX_RETRIES
        invariant AttemptsOk(attempts, batch, prepared.model, prepared.binding, names)
        invariant forall k :: 0 <= k < |attempts| ==> !attempts[k].wrote && OutOfMemory(attempts[k])
        invariant attempts != [] ==> policy.Some?
        invariant retries == 0 ==> next == None
        invariant retries > 0 ==> next.Some? && next.value == Halved(batch, retries) >= 1
        invariant writes == old(writes)
        decreases MAX_RETRIES - retries
      {
        var p := ExecutionPolicy(requested, Some(measured), next);
        if p.None? {
          return Refused;
        }
        PolicyBatch(requested, measured, next, batch, retries);
        var ok := Control();
        if !ok {
          return ControlRaised;
        }
        var result, attempt := TryOnce(measured, p.value.predictorBatch, prepared, sink);
        attempts := attempts + [attempt];
        if result.Unresolved? {
          return ModelLoadFailed;
        }
        ok := Control();
        if result.Stopped? || !ok {
          return ControlRaised;
        }
        if result.Failed? {
          if result.phase == Materialization && result.memoryPressure && p.value.predictorBatch > 1 && retries < MAX_RETRIES {
            retries := retries + 1;
            next := Some(Max(1, p.value.predictorBatch / 2));
            ok := Control();
            if !ok {
              return Unpublished;
            }
            continue;
          }
          return NotSucceeded(result.phase);
        }
        return Completed(result.rows);
      }
    }

    // The layout and the policy checked and the model prepared, once.
    method Prepare() returns (stop: Option<Final>, input: Input, core: CoreRequest, sink: Sink)
      ensures stop.Some? ==> stop.value in {Refused, SchemaMismatch, ControlRaised}
      ensures stop.None? ==>
        && Preparable(engine, layout, sql, requested, names)
        && input == InputFor(layout, StepsFor(engine, layout, sql))
        && core.model.Verified? && core.binding == TensorColumns(layout.features, names)
        && sink.featureColumns == core.binding && sink.featureResultNames == names && sink.modelFeatureNames == names
      ensures undisturbed ==> (stop.None? <==> Preparable(engine, layout, sql, requested, names))
    {
      hide LayoutOk, Alone, InputFor, FilterSteps, NamesMatch, ExecutionPolicy;
      input, core := Input([], []), BuildRequest(layout.features, 0);
      sink := new Sink(layout.features);
      var ok := Control();
      if !ok {
        return Some(ControlRaised), input, core, sink;
      }
      var read := InputLayout(engine, layout, sql);
      var policy := ExecutionPolicy(requested, None, None);
      if read.None? || policy.None? {
        return Some(Refused), input, core, sink;
      }
      FeatureNamesDiffer(engine, layout, sql);
      input, core := read.value, BuildRequest(layout.features, policy.value.predictorBatch);
      var columns := sink.PrepareModel(layout.features, names);
      if columns.None? {
        return Some(SchemaMismatch), input, core, sink;
      }
      var id: nat := *;
      core := core.(model := Verified(id), binding := columns.value);
      ok := Control();
      stop := if ok then None else Some(ControlRaised);
    }

    // The number of rows the counting query finds for the input.
    method CountInput(input: Input, available: map<string, string>, table: seq<Row>) returns (rows: Option<nat>)
      requires LayoutOk(engine, layout, sql) && input == InputFor(layout, StepsFor(engine, layout, sql))
      ensures rows.Some? ==> rows.value == |ModelRows(engine, input, table)|
      ensures undisturbed ==> (rows.Some? <==> ColumnsPresent(input.columns, available) && TypesAgree(input.steps, available))
    {
      hide LayoutOk, Measured, Run, TypesAgree, ColumnsPresent, FirstSeen;
      LayoutCountable(engine, layout, sql);
      EmptyInputExact(engine, layout, sql, table);
      var count := MeasureInputRows(engine, input, available, table);
      var ok := Control();
      rows := if ok && count.Counted? then Some(count.rows) else None;
    }

    // The closing progress event and the completion, each of which may fail after the write.
    method Finish(rows: nat) returns (r: Final)
      requires trail != [] && Rising(trail)
      modifies `trail
      ensures r in {Completed(rows), Unpublished}
      ensures r.Completed? ==> RisesToEnd(trail) && trail[|trail| - 1].rows == old(trail[|trail| - 1].rows)
      ensures undisturbed ==> r.Completed?
    {
      var ok := Control();
      if !ok {
        return Unpublished;
      }
      ghost var earlier := trail;
      var last := trail[|trail| - 1];
      trail := trail + [Report(last.rows, 1000)];
      assert trail[..|trail| - 1] == earlier;
      ok := Control();
      r := if ok then Completed(rows) else Unpublished;
    }

    // Prepare the model once, count the input, attempt, and report the end.
    method ExecuteInference(available: map<string, string>, table: seq<Row>) returns (r: Final)
      requires interval >= 1 && attempts == []
      modifies `writes, `attempts, `trail, `batches
      ensures |attempts| <= MAX_RETRIES + 1
      // Attempts are made only on input rows, sized by how many there are.
      ensures attempts != [] ==>
        && Preparable(engine, layout, sql, requested, names)
        && var rows := ModelRows(engine, InputFor(layout, StepsFor(engine, layout, sql)), table);
        && rows != [] && ExecutionPolicy(requested, Some(|rows|), None).Some?
        && AttemptsOk(attempts, ExecutionPolicy(requested, Some(|rows|), None).value.predictorBatch,
                      attempts[0].model, TensorColumns(layout.features, names), names)
      ensures writes <= old(writes) + 1
      ensures writes > old(writes) ==> attempts != [] && attempts[|attempts| - 1].wrote
      ensures r.Completed? ==> writes == old(writes) + 1 && RisesToEnd(trail) && trail[|trail| - 1].rows == Sum(batches)
      // The last attempt decides, unless a reporter call raised; left alone, memory running out is
      // never the end before the fourth attempt or a batch of one.
      ensures attempts != [] ==> Concludes(r, attempts[|attempts| - 1].result) || r in {ControlRaised, Unpublished}
      ensures undisturbed && attempts != [] ==>
        && Concludes(r, attempts[|attempts| - 1].result)
        && (OutOfMemory(attempts[|attempts| - 1]) ==> |attempts| == MAX_RETRIES + 1)
      // Empty input is reported only, and when nothing is in the way always, when no row reaches the model.
      ensures r.EmptyInput? ==>
        LayoutOk(engine, layout, sql) && ModelRows(engine, InputFor(layout, StepsFor(engine, layout, sql)), table) == []
      ensures undisturbed ==>
        (r.EmptyInput? <==>
          && Preparable(engine, layout, sql, requested, names)
          && var input := InputFor(layout, StepsFor(engine, layout, sql));
          && ColumnsPresent(input.columns, available) && TypesAgree(input.steps, available)
          && ModelRows(engine, input, table) == [])
      // And there is an attempt whenever a row does.
      ensures undisturbed && Preparable(engine, layout, sql, requested, names) ==>
        var input := InputFor(layout, StepsFor(engine, layout, sql));
        ColumnsPresent(input.columns, available) && TypesAgree(input.steps, available) && ModelRows(engine, input, table) != [] ==>
          attempts != []
    {
      hide LayoutOk, InputFor, ExecutionPolicy, Rising, Run, TypesAgree, ColumnsPresent, Alone, NamesMatch, RisesToEnd;
      var stop, input, core, sink := Prepare();
      if stop.Some? {
        return stop.value;
      }
      var rows := CountInput(input, available, table);
      if rows.None? {
        return CountFailed;
      }
      if rows.value == 0 {
        return EmptyInput;
      }
      var ok := Control();
      if !ok {
        return Unpublished;
      }
      MeasuredAccepted(requested, rows.value);
      r := Attempts(rows.value, core, sink);
      if r.Completed? {
        r := Finish(r.rows);
      }
    }
  }

  // The batch of a rebuilt request: the policy's first, then what the retry asks for.
  lemma PolicyBatch(r: Requested, measured: nat, next: Option<int>, batch: nat, retries: nat)
    requires measured > 0 && ExecutionPolicy(r, Some(measured), next).Some?
    requires retries == 0 ==> next == None && batch == ExecutionPolicy(r, Some(measured), next).value.predictorBatch
    requires retries > 0 ==> next.Some? && next.value == Halved(batch, retries) >= 1
    ensures ExecutionPolicy(r, Some(measured), next).value.predictorBatch == Halved(batch, retries) >= 1
    ensures Halved(batch, retries + 1) == Halved(batch, retries) / 2
    ensures ExecutionPolicy(r, Some(measured), None).Some?
  {
    BaseWithinBounds(measured, r.options);
  }
}
