/** The engine's side of a run (engine/sync.go): what one message taken from the reader's
    channels does to the counters, the statistics, the progress record, the preview, the
    checkpoints and the result.  `Deliver` specifies one turn of the select loop; the class
    `SyncEngine` performs those turns in place and is proved against it. */
module Engine {
  import opened Wrappers
  import opened Records

  datatype Status = Pending | Running | Paused | Completed | Failed | Cancelled

  datatype Config = Config(
    batchSize: int,
    retryMaxAttempts: int,
    previewMode: bool,
    previewLimit: int,
    checkpointEnabled: bool,
    tableName: string)

  /** The local counters of `Run`. */
  datatype Totals = Totals(read: int, write: int, failed: int, skipped: int)

  datatype Stats = Stats(
    readOk: int, transformOk: int, transformFailed: int, mappingOk: int, mappingFailed: int,
    writeOk: int, writeFailed: int, skippedTotal: int)

  datatype Progress = Progress(status: Status, total: int, synced: int, failed: int, skipped: int, percent: real)

  /** One `saveCheckpoint`: the checkpoint's batch number and the progress saved beside it. */
  datatype Saved = Saved(tableName: string, batchNum: int, progress: Progress)

  /** What a transformer or a mapper hands back for one batch. */
  datatype StageResult = StageResult(out: seq<Record>, failed: seq<FailedRecord>, err: bool)

  datatype WriteResult = WriteResult(success: int, failed: int, skipped: int)

  /** What happens at one attempt of `writeWithRetry`: the context is already done, the writer
      returns counts, or it fails and the delay that may follow is or is not cut short. */
  datatype Attempt = Interrupted | Wrote(result: WriteResult) | Errored(delayInterrupted: bool)

  /** One turn of the select loop, or a call to Stop, Pause or Resume between two turns.
      `dropped` marks a batch given up because the context ended while the run was paused. */
  datatype Event =
    | ContextDone
    | Batch(batch: seq<Record>, dropped: bool, tr: StageResult, mp: StageResult, log: seq<Attempt>)
    | RecordsClosed
    | ErrorMessage(err: Option<string>)
    | ErrorsClosed
    | StatusCall(status: Status)

  datatype SyncResult = SyncResult(status: Status, totals: Totals, preview: seq<Record>)

  datatype Outcome = Finished(result: SyncResult) | ReturnedError(result: SyncResult, err: string) | Panicked

  datatype Vars = Vars(totals: Totals, stats: Stats, progress: Progress, preview: seq<Record>, saved: seq<Saved>)

  datatype EngineState = EngineState(vars: Vars, recordsOpen: bool, errorsOpen: bool, outcome: Option<Outcome>)

  const NO_TOTALS := Totals(0, 0, 0, 0)
  const NO_STATS := Stats(0, 0, 0, 0, 0, 0, 0, 0)

  const NO_PROGRESS := Progress(Pending, 0, 0, 0, 0, 0.0)

  /** Where a run starts; only the local counters and the preview are reset, and a failed Count
      leaves the record total as it was. */
  function StartFrom(stats: Stats, progress: Progress, saved: seq<Saved>, count: Option<int>): EngineState {
    var p := progress.(status := Running);
    EngineState(
      Vars(NO_TOTALS, stats, if count.Some? then p.(total := count.value) else p, [], saved),
      true, true, None)
  }

  /** The start of the first run of an engine. */
  function Start(count: Option<int>): EngineState {
    StartFrom(NO_STATS, NO_PROGRESS, [], count)
  }

  // ----- One batch -----

  function Min(a: int, b: int): int { if a < b then a else b }

  function AddPreview(c: Config, preview: seq<Record>, batch: seq<Record>): seq<Record> {
    if c.previewMode && |preview| < c.previewLimit
    then preview + batch[..Min(c.previewLimit - |preview|, |batch|)]
    else preview
  }

  /** A stage that reports an error leaves the batch as it was. */
  function StageOutput(batch: seq<Record>, r: StageResult): seq<Record> {
    if r.err then batch else r.out
  }

  function Mapped(batch: seq<Record>, tr: StageResult, mp: StageResult): seq<Record> {
    StageOutput(StageOutput(batch, tr), mp)
  }

  function RunStages(c: Config, v: Vars, batch: seq<Record>, tr: StageResult, mp: StageResult): Vars {
    var transformed := StageOutput(batch, tr);
    var mapped := Mapped(batch, tr, mp);
    v.(totals := v.totals.(read := v.totals.read + |batch|, failed := v.totals.failed + |tr.failed| + |mp.failed|),
       stats := v.stats.(
         readOk := v.stats.readOk + |batch|,
         transformFailed := v.stats.transformFailed + |tr.failed|,
         transformOk := v.stats.transformOk + |transformed|,
         mappingFailed := v.stats.mappingFailed + |mp.failed|,
         mappingOk := v.stats.mappingOk + |mapped|),
       preview := AddPreview(c, v.preview, batch))
  }

  function MaxAttempts(c: Config): nat {
    if c.retryMaxAttempts <= 0 then 1 else c.retryMaxAttempts
  }

  function AttemptAt(log: seq<Attempt>, i: nat): Attempt {
    if i < |log| then log[i] else Interrupted
  }

  /** The write result of the first successful attempt from the i-th on, if one is reached. */
  function RetryOutcome(max: nat, log: seq<Attempt>, i: nat): Option<WriteResult>
    decreases max - i
  {
    if i >= max then None
    else match AttemptAt(log, i)
      case Interrupted => None
      case Wrote(r) => Some(r)
      case Errored(cut) => if i < max - 1 && cut then None else RetryOutcome(max, log, i + 1)
  }

  function RunWrite(c: Config, v: Vars, mapped: seq<Record>, log: seq<Attempt>): Vars {
    if c.previewMode then
      v.(totals := v.totals.(skipped := v.totals.skipped + |mapped|),
         stats := v.stats.(skippedTotal := v.stats.skippedTotal + |mapped|))
    else match RetryOutcome(MaxAttempts(c), log, 0)
      case None =>
        v.(totals := v.totals.(failed := v.totals.failed + |mapped|),
           stats := v.stats.(writeFailed := v.stats.writeFailed + |mapped|))
      case Some(r) =>
        v.(totals := v.totals.(write := v.totals.write + r.success, failed := v.totals.failed + r.failed,
                               skipped := v.totals.skipped + r.skipped),
           stats := v.stats.(writeOk := v.stats.writeOk + r.success, writeFailed := v.stats.writeFailed + r.failed))
  }

  function UpdateProgress(v: Vars): Vars {
    var p := v.progress.(synced := v.totals.write, failed := v.totals.failed, skipped := v.totals.skipped);
    v.(progress := if p.total > 0
                   then p.(percent := (v.totals.write + v.totals.failed) as real / p.total as real * 100.0)
                   else p)
  }

  /** Go's integer division truncates toward zero. */
  function TruncDiv(a: int, b: int): int
    requires b != 0
  {
    if a >= 0 then a / b else -((-a) / b)
  }

  predicate SavesCheckpoint(c: Config) { c.checkpointEnabled && c.tableName != "" }

  /** `saveCheckpoint`; None is the run-time panic of a division by zero. */
  function WithCheckpoint(c: Config, v: Vars): Option<Vars> {
    if !SavesCheckpoint(c) then Some(v)
    else if c.batchSize == 0 then None
    else Some(v.(saved := v.saved + [Saved(c.tableName, TruncDiv(v.totals.write, c.batchSize), v.progress)]))
  }

  function HandleBatch(c: Config, v: Vars, ev: Event): Vars
    requires ev.Batch?
  {
    UpdateProgress(RunWrite(c, RunStages(c, v, ev.batch, ev.tr, ev.mp), Mapped(ev.batch, ev.tr, ev.mp), ev.log))
  }

  // ----- One turn of the select loop -----

  function Finish(es: EngineState, status: Status): EngineState {
    es.(outcome := Some(Finished(SyncResult(status, es.vars.totals, es.vars.preview))),
        vars := es.vars.(progress := es.vars.progress.(status := status)))
  }

  /** The test at the bottom of the loop. */
  function LeaveIfDrained(es: EngineState): EngineState {
    if !es.recordsOpen && !es.errorsOpen then Finish(es, Completed) else es
  }

  function Deliver(c: Config, es: EngineState, ev: Event): EngineState {
    if ev.StatusCall? then es.(vars := es.vars.(progress := es.vars.progress.(status := ev.status)))
    else if es.outcome.Some? then es
    else match ev
      case ContextDone => Finish(es, Cancelled)
      case RecordsClosed => LeaveIfDrained(es.(recordsOpen := false))
      case ErrorsClosed => LeaveIfDrained(es.(errorsOpen := false))
      case ErrorMessage(err) =>
        if err.Some?
        then es.(outcome := Some(ReturnedError(SyncResult(Failed, NO_TOTALS, es.vars.preview), err.value)))
        else LeaveIfDrained(es.(errorsOpen := false))
      case Batch(_, dropped, _, _, _) =>
        if dropped then Finish(es, Cancelled)
        else
          var v := HandleBatch(c, es.vars, ev);
          match WithCheckpoint(c, v)
          case None => es.(vars := v, outcome := Some(Panicked))
          case Some(v') => LeaveIfDrained(es.(vars := v'))
  }

  function Fold(c: Config, es: EngineState, trace: seq<Event>): EngineState {
    if trace == [] then es
    else Deliver(c, Fold(c, es, trace[..|trace| - 1]), trace[|trace| - 1])
  }

  lemma FoldSnoc(c: Config, es: EngineState, trace: seq<Event>, ev: Event)
    ensures Fold(c, es, trace + [ev]) == Deliver(c, Fold(c, es, trace), ev)
  {
    assert (trace + [ev])[..|trace|] == trace;
  }

  // ----- The same, in place -----

  class SyncEngine {
    const config: Config
    var stats: Stats
    var progress: Progress
    var saved: seq<Saved>
    var paused: bool
    var cancelled: bool
    var started: bool

    constructor (config: Config)
      ensures this.config == config && stats == NO_STATS && saved == []
      ensures progress == NO_PROGRESS
      ensures !paused && !cancelled && !started
    {
      this.config := config;
      stats, saved := NO_STATS, [];
      progress := NO_PROGRESS;
      paused, cancelled, started := false, false, false;
    }

    function View(totals: Totals, preview: seq<Record>): Vars
      reads this
    {
      Vars(totals, stats, progress, preview, saved)
    }

    /** Stop cancels the context of a run that has begun; the status changes in any case. */
    method Stop()
      modifies `cancelled, `progress
      ensures cancelled == (old(cancelled) || started)
      ensures progress == old(progress).(status := Cancelled)
    {
      if started {
        cancelled := true;
      }
      progress := progress.(status := Cancelled);
    }

    method Pause()
      modifies `paused, `progress
      ensures paused && progress == old(progress).(status := Paused)
    {
      paused := true;
      progress := progress.(status := Paused);
    }

    method Resume()
      modifies `paused, `progress
      ensures !paused && progress == old(progress).(status := Running)
    {
      paused := false;
      progress := progress.(status := Running);
    }

    /** Calls the writer until an attempt succeeds, the attempts run out or the context ends.
        `calls` counts the calls to the writer. */
    method WriteWithRetry(records: seq<Record>, log: seq<Attempt>)
      returns (result: WriteResult, ok: bool, calls: nat)
      ensures calls <= if config.retryMaxAttempts <= 0 then 1 else config.retryMaxAttempts
      ensures ok == RetryOutcome(MaxAttempts(config), log, 0).Some?
      ensures ok ==> RetryOutcome(MaxAttempts(config), log, 0) == Some(result)
      // success is the first successful attempt, and every earlier one failed and was waited out
      ensures ok <==> exists i :: 0 <= i < MaxAttempts(config) && AttemptAt(log, i).Wrote?
                        && forall j :: 0 <= j < i ==> AttemptAt(log, j) == Errored(false)
      ensures ok ==> calls >= 1 && AttemptAt(log, calls - 1) == Wrote(result)
      // without success nothing counts as written
      ensures !ok ==> result == WriteResult(0, 0, 0) || (result == WriteResult(0, |records|, 0) && calls > 0)
      // once every attempt has failed, the whole batch is reported as failed
      ensures var max := if config.retryMaxAttempts <= 0 then 1 else config.retryMaxAttempts;
        (forall j :: 0 <= j < max ==>
           AttemptAt(log, j).Errored? && (j < max - 1 ==> !AttemptAt(log, j).delayInterrupted))
        ==> !ok && calls == max && result == WriteResult(0, |records|, 0)
    {
      var maxAttempts := config.retryMaxAttempts;
      if maxAttempts <= 0 {
        maxAttempts := 1;
      }
      calls := 0;
      var attempt := 0;
      while attempt < maxAttempts
        invariant 0 <= attempt <= maxAttempts == MaxAttempts(config)
        invariant calls == attempt
        invariant forall j :: 0 <= j < attempt ==> AttemptAt(log, j).Errored?
        invariant forall j :: 0 <= j < attempt && j < maxAttempts - 1 ==> AttemptAt(log, j) == Errored(false)
        invariant RetryOutcome(maxAttempts, log, 0) == RetryOutcome(maxAttempts, log, attempt)
      {
        match AttemptAt(log, attempt) {
          case Interrupted =>
            return WriteResult(0, 0, 0), false, calls;
          case Wrote(r) =>
            calls := calls + 1;
            return r, true, calls;
          case Errored(cut) =>
            calls := calls + 1;
            if attempt < maxAttempts - 1 && cut {
              return WriteResult(0, 0, 0), false, calls;
            }
        }
        attempt := attempt + 1;
      }
      return WriteResult(0, |records|, 0), false, calls;
    }

    method SaveCheckpoint(totals: Totals, ghost preview: seq<Record>) returns (panicked: bool)
      modifies `saved
      ensures panicked <==> WithCheckpoint(config, old(View(totals, preview))).None?
      ensures View(totals, preview)
           == if panicked then old(View(totals, preview))
              else WithCheckpoint(config, old(View(totals, preview))).value
    {
      if config.tableName == "" || !config.checkpointEnabled {
        return false;
      }
      if config.batchSize == 0 {
        return true;
      }
      saved := saved + [Saved(config.tableName, TruncDiv(totals.write, config.batchSize), progress)];
      panicked := false;
    }

    /** The read, transform and map part of the loop body: everything up to the write. */
    method ProcessStages(totals: Totals, preview: seq<Record>, batch: seq<Record>, tr: StageResult, mp: StageResult)
      returns (totals': Totals, preview': seq<Record>, mapped: seq<Record>)
      modifies `stats
      ensures View(totals', preview') == RunStages(config, old(View(totals, preview)), batch, tr, mp)
      ensures mapped == Mapped(batch, tr, mp)
    {
      stats := stats.(readOk := stats.readOk + |batch|);
      preview' := preview;
      if config.previewMode && |preview'| < config.previewLimit {
        var remaining := config.previewLimit - |preview'|;
        if remaining > |batch| {
          remaining := |batch|;
        }
        preview' := preview' + batch[..remaining];
      }

      mapped := batch;
      if !tr.err {
        mapped := tr.out;
      }
      stats := stats.(transformFailed := stats.transformFailed + |tr.failed|,
                      transformOk := stats.transformOk + |mapped|);
      if !mp.err {
        mapped := mp.out;
      }
      stats := stats.(mappingFailed := stats.mappingFailed + |mp.failed|, mappingOk := stats.mappingOk + |mapped|);
      totals' := totals.(read := totals.read + |batch|, failed := totals.failed + |tr.failed| + |mp.failed|);
    }

    /** The write (or, in preview mode, the skip) of a mapped batch. */
    method ProcessWrite(totals: Totals, ghost preview: seq<Record>, mapped: seq<Record>, log: seq<Attempt>)
      returns (totals': Totals)
      modifies `stats
      ensures View(totals', preview) == RunWrite(config, old(View(totals, preview)), mapped, log)
    {
      if config.previewMode {
        totals' := totals.(skipped := totals.skipped + |mapped|);
        stats := stats.(skippedTotal := stats.skippedTotal + |mapped|);
      } else {
        var result, ok, _ := WriteWithRetry(mapped, log);
        if !ok {
          totals' := totals.(failed := totals.failed + |mapped|);
          stats := stats.(writeFailed := stats.writeFailed + |mapped|);
        } else {
          totals' := totals.(write := totals.write + result.success, failed := totals.failed + result.failed,
                             skipped := totals.skipped + result.skipped);
          stats := stats.(writeOk := stats.writeOk + result.success, writeFailed := stats.writeFailed + result.failed);
        }
      }
    }

    /** The loop body for a batch that is not dropped. */
    method ProcessBatch(totals: Totals, preview: seq<Record>, ev: Event)
      returns (totals': Totals, preview': seq<Record>, panicked: bool)
      requires ev.Batch? && !ev.dropped
      modifies `stats, `progress, `saved
      ensures panicked <==> WithCheckpoint(config, HandleBatch(config, old(View(totals, preview)), ev)).None?
      ensures panicked ==> View(totals', preview') == HandleBatch(config, old(View(totals, preview)), ev)
      ensures !panicked ==>
        WithCheckpoint(config, HandleBatch(config, old(View(totals, preview)), ev)) == Some(View(totals', preview'))
    {
      var mapped;
      totals', preview', mapped := ProcessStages(totals, preview, ev.batch, ev.tr, ev.mp);
      totals' := ProcessWrite(totals', preview', mapped, ev.log);

      ghost var v := View(totals', preview');
      progress := progress.(synced := totals'.write, failed := totals'.failed, skipped := totals'.skipped);
      if progress.total > 0 {
        progress := progress.(percent := (totals'.write + totals'.failed) as real / progress.total as real * 100.0);
      }
      assert View(totals', preview') == UpdateProgress(v);
      panicked := SaveCheckpoint(totals', preview');
    }

    /** The select loop, fed with the messages it selects; with nothing left to select it waits. */
    method Run(count: Option<int>, inbox: seq<Event>) returns (outcome: Option<Outcome>, ghost es: EngineState)
      modifies `stats, `progress, `saved, `cancelled, `started
      ensures es == Fold(config, StartFrom(old(stats), old(progress), old(saved), count), inbox)
      ensures outcome == es.outcome
      ensures stats == es.vars.stats && progress == es.vars.progress && saved == es.vars.saved
      ensures started && (outcome.Some? ==> cancelled)
    {
      ghost var start := StartFrom(stats, progress, saved, count);
      started := true;
      progress := progress.(status := Running);
      if count.Some? {
        progress := progress.(total := count.value);
      }
      var totals, preview: seq<Record> := NO_TOTALS, [];
      var recordsOpen, errorsOpen := true, true;
      outcome := None;

      for i := 0 to |inbox|
        invariant EngineState(View(totals, preview), recordsOpen, errorsOpen, outcome)
               == Fold(config, start, inbox[..i])
        invariant started
        invariant outcome.None? ==> recordsOpen || errorsOpen
      {
        FoldSnoc(config, start, inbox[..i], inbox[i]);
        assert inbox[..i] + [inbox[i]] == inbox[..i + 1];
        if inbox[i].StatusCall? {
          progress := progress.(status := inbox[i].status);
        } else if outcome.None? {
          match inbox[i] {
            case ContextDone =>
              outcome := Some(Finished(SyncResult(Cancelled, totals, preview)));
              progress := progress.(status := Cancelled);
            case Batch(batch, dropped, _, _, _) =>
              if dropped {
                outcome := Some(Finished(SyncResult(Cancelled, totals, preview)));
                progress := progress.(status := Cancelled);
              } else {
                var panicked;
                totals, preview, panicked := ProcessBatch(totals, preview, inbox[i]);
                if panicked {
                  outcome := Some(Panicked);
                }
              }
            case RecordsClosed => recordsOpen := false;
            case ErrorsClosed => errorsOpen := false;
            case ErrorMessage(err) =>
              if err.Some? {
                outcome := Some(ReturnedError(SyncResult(Failed, NO_TOTALS, preview), err.value));
              } else {
                errorsOpen := false;
              }
          }
          if outcome.None? && !recordsOpen && !errorsOpen {
            outcome := Some(Finished(SyncResult(Completed, totals, preview)));
            progress := progress.(status := Completed);
          }
        }
      }
      assert inbox[..|inbox|] == inbox;
      es := Fold(config, start, inbox);
      if outcome.Some? {
        cancelled := true;
      }
    }
  }
}
