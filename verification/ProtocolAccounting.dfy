/** The counters, the progress record, the preview and the checkpoints along every run of the two
    processes. */
module ProtocolAccounting {
  import opened Wrappers
  import opened Sequences
  import opened DatabaseReader
  import opened Engine
  import opened EngineAccounting
  import opened Protocol
  import opened ProtocolSafety

  /** A step leaves the trace and the engine's state alone, or extends both by one turn. */
  function TurnOf(w: World, s: State, l: Label): Option<Event>
    requires Enabled(w, s, l)
  {
    match l
    case SelectDone => Some(ContextDone)
    case SelectRecordsClosed => Some(RecordsClosed)
    case SelectError => Some(ErrorMessage(s.errorSlot[0]))
    case SelectErrorsClosed => Some(ErrorsClosed)
    case PollCancelled => Some(Batch(s.engine.batch, true, NO_STAGE, NO_STAGE, []))
    case Stages(tr, mp) =>
      if w.config.previewMode then Some(Batch(s.engine.batch, false, tr, mp, [])) else None
    case Attempted(a) =>
      if a.Errored? && |s.engine.log + [a]| < MaxAttempts(w.config) then None
      else Some(Batch(s.engine.batch, false, s.engine.tr, s.engine.mp, s.engine.log + [a]))
    case DelayCut => Some(Batch(s.engine.batch, false, s.engine.tr, s.engine.mp, CutDelay(s.engine.log)))
    case CallStop => Some(StatusCall(Cancelled))
    case CallPause => Some(StatusCall(Paused))
    case CallResume => Some(StatusCall(Running))
    case _ => None
  }

  /** The step adds that turn to the trace, and only a turn changes what the engine keeps. */
  predicate StepIsTurn(s: State, s': State, turn: Option<Event>) {
    && s'.trace == s.trace + (if turn.Some? then [turn.value] else [])
    && (turn.None? ==> s'.es == s.es)
    && (turn.Some? && turn.value.Batch? ==>
          turn.value.batch == InHand(s) && !s.engine.Selecting? && !s.engine.Returned?)
  }

  lemma ReaderStepIsNoTurn(w: World, s: State, l: Label)
    requires Enabled(w, s, l) && (IsReaderLabel(l) || l.HandOff?)
    ensures TurnOf(w, s, l) == None && StepIsTurn(s, Apply(w, s, l), None)
  {
  }

  lemma SelectTurn(w: World, s: State, l: Label)
    requires Enabled(w, s, l) && IsSelectLabel(l)
    ensures StepIsTurn(s, Apply(w, s, l), TurnOf(w, s, l))
  {
  }

  lemma WriteTurn(w: World, s: State, l: Label)
    requires Enabled(w, s, l) && (l.Attempted? || l.DelayOver? || l.DelayCut?)
    ensures StepIsTurn(s, Apply(w, s, l), TurnOf(w, s, l))
  {
  }

  lemma OtherTurn(w: World, s: State, l: Label)
    requires Enabled(w, s, l) && !IsReaderLabel(l) && !l.HandOff? && !IsSelectLabel(l)
    requires !l.Attempted? && !l.DelayOver? && !l.DelayCut?
    ensures StepIsTurn(s, Apply(w, s, l), TurnOf(w, s, l))
  {
  }

  lemma TurnOfStep(w: World, s: State, l: Label)
    requires Enabled(w, s, l)
    ensures StepIsTurn(s, Apply(w, s, l), TurnOf(w, s, l))
  {
    if IsReaderLabel(l) || l.HandOff? {
      ReaderStepIsNoTurn(w, s, l);
    } else if IsSelectLabel(l) {
      SelectTurn(w, s, l);
    } else if l.Attempted? || l.DelayOver? || l.DelayCut? {
      WriteTurn(w, s, l);
    } else {
      OtherTurn(w, s, l);
    }
  }

  /** What is sent, buffered and held is a page: not empty and no larger than its size. */
  predicate BatchesOk(w: World, s: State) {
    && (s.reader.Sending? ==> 0 < |s.reader.batch| <= B(w))
    && (forall i :: 0 <= i < |s.buffer| ==> 0 < |s.buffer[i]| <= B(w))
    && |InHand(s)| <= B(w)
    && (s.engine.Selecting? || s.engine.Returned? || 0 < |InHand(s)|)
  }

  lemma QueryBatches(w: World, s: State)
    requires BatchesOk(w, s) && Enabled(w, s, QueryAnswers)
    ensures BatchesOk(w, Apply(w, s, QueryAnswers))
  {
    assert |Page(w.table, s.offset, B(w))| <= B(w);
  }

  lemma PushBatches(w: World, s: State)
    requires BatchesOk(w, s) && Enabled(w, s, Push)
    ensures BatchesOk(w, Apply(w, s, Push))
  {
    var buffer := s.buffer + [s.reader.batch];
    assert forall i :: 0 <= i < |buffer| ==> buffer[i] == if i < |s.buffer| then s.buffer[i] else s.reader.batch;
  }

  lemma HandOffBatches(w: World, s: State)
    requires BatchesOk(w, s) && Enabled(w, s, HandOff)
    ensures BatchesOk(w, Apply(w, s, HandOff))
  {
  }

  lemma QuietReaderBatches(w: World, s: State, l: Label)
    requires BatchesOk(w, s) && Enabled(w, s, l) && IsReaderLabel(l) && !l.QueryAnswers? && !l.Push?
    ensures BatchesOk(w, Apply(w, s, l))
  {
    var s' := Apply(w, s, l);
    assert !s'.reader.Sending? && s'.buffer == s.buffer && s'.engine == s.engine;
  }

  lemma SelectBatches(w: World, s: State, l: Label)
    requires BatchesOk(w, s) && Enabled(w, s, l) && IsSelectLabel(l)
    ensures BatchesOk(w, Apply(w, s, l))
  {
  }

  lemma TurnBatches(w: World, s: State, ev: Event)
    requires BatchesOk(w, s)
    ensures BatchesOk(w, Turn(w, s, ev))
  {
    var s' := Turn(w, s, ev);
    assert (s'.engine.Selecting? || s'.engine.Returned?) && s'.reader == s.reader && s'.buffer == s.buffer;
  }

  lemma BatchBatches(w: World, s: State, l: Label)
    requires BatchesOk(w, s) && Enabled(w, s, l) && IsBatchLabel(l)
    ensures BatchesOk(w, Apply(w, s, l))
  {
    if l.PollCancelled? {
      TurnBatches(w, s, Batch(s.engine.batch, true, NO_STAGE, NO_STAGE, []));
    } else if l.Stages? {
      TurnBatches(w, s, Batch(s.engine.batch, false, l.tr, l.mp, []));
    } else if l.Attempted? {
      TurnBatches(w, s, Batch(s.engine.batch, false, s.engine.tr, s.engine.mp, s.engine.log + [l.attempt]));
    } else {
      TurnBatches(w, s, Batch(s.engine.batch, false, s.engine.tr, s.engine.mp, CutDelay(s.engine.log)));
    }
  }

  lemma WaitBatches(w: World, s: State, l: Label)
    requires BatchesOk(w, s) && Enabled(w, s, l) && (IsWaitLabel(l) || l.DelayOver?)
    ensures BatchesOk(w, Apply(w, s, l))
  {
    WaitMovesEngineOnly(w, s, l);
  }

  lemma OutsideBatches(w: World, s: State, l: Label)
    requires BatchesOk(w, s) && Enabled(w, s, l) && IsOutsideLabel(l)
    ensures BatchesOk(w, Apply(w, s, l))
  {
    var s' := Apply(w, s, l);
    assert s'.reader == s.reader && s'.buffer == s.buffer && s'.engine == s.engine;
  }

  lemma BatchesStep(w: World, s: State, l: Label)
    requires BatchesOk(w, s) && Enabled(w, s, l)
    ensures BatchesOk(w, Apply(w, s, l))
  {
    if l.QueryAnswers? {
      QueryBatches(w, s);
    } else if l.Push? {
      PushBatches(w, s);
    } else if l.HandOff? {
      HandOffBatches(w, s);
    } else if IsReaderLabel(l) {
      QuietReaderBatches(w, s, l);
    } else if IsSelectLabel(l) {
      SelectBatches(w, s, l);
    } else if IsBatchLabel(l) {
      BatchBatches(w, s, l);
    } else if IsOutsideLabel(l) {
      OutsideBatches(w, s, l);
    } else {
      WaitBatches(w, s, l);
    }
  }

  /** The same of every batch taken. */
  ghost predicate SizesOk(w: World, s: State) {
    BatchesOk(w, s) && forall i :: 0 <= i < |s.trace| && s.trace[i].Batch? ==> 0 < |s.trace[i].batch| <= B(w)
  }

  lemma SizesStep(w: World, s: State, l: Label)
    requires SizesOk(w, s) && Enabled(w, s, l)
    ensures SizesOk(w, Apply(w, s, l))
  {
    TurnOfStep(w, s, l);
    BatchesStep(w, s, l);
  }

  lemma {:induction false} SizesExecution(w: World, s: State, ls: seq<Label>, s': State)
    requires SizesOk(w, s) && Execution(w, s, ls, s')
    ensures SizesOk(w, s')
    decreases ls
  {
    if ls != [] {
      SizesStep(w, s, ls[0]);
      SizesExecution(w, Apply(w, s, ls[0]), ls[1..], s');
    }
  }

  lemma ReachableSizes(w: World, s: State)
    requires Reachable(w, s)
    ensures SizesOk(w, s)
  {
    var ls :| Execution(w, Init(w), ls, s);
    SizesExecution(w, Init(w), ls, s);
  }

  /** In every reachable state the counters conserve the records read exactly when the leaks of each
      stage and of the writes add up to zero, as those of honest ones do. */
  lemma RunConserves(w: World, s: State)
    requires Reachable(w, s)
    ensures s.es.vars.totals.read == |Flatten(Kept(s.trace))| <= |w.table|
    ensures Conserved(s.es.vars) <==> LeaksOf(w.config, s.trace) == Leaks(0, 0, 0)
    ensures AllHonest(w.config, s.trace) ==> Conserved(s.es.vars)
  {
    ReachableInv(w, s);
    ProcessedIsPrefix(w, s);
    Conservation(w.config, Start(w.count), s.trace);
    ConservedExactly(w.config, Start(w.count), s.trace, s.es.vars);
  }

  /** With a Count equal to the table and honest stages, the progress counts never exceed the total
      and the percentage stays between 0 and 100. */
  lemma RunProgress(w: World, s: State)
    requires Reachable(w, s) && AllHonest(w.config, s.trace) && w.count == Some(|w.table|)
    ensures var p := s.es.vars.progress;
      p.synced + p.failed + p.skipped <= p.total == |w.table| && 0.0 <= p.percent <= 100.0
  {
    ReachableInv(w, s);
    ProcessedIsPrefix(w, s);
    ProgressBounded(w.config, |w.table|, s.trace, s.es.vars.progress);
  }

  /** No step makes the percentage fall. */
  lemma RunPercentNeverFalls(w: World, s: State, l: Label)
    requires Reachable(w, s) && Enabled(w, s, l) && AllHonest(w.config, Apply(w, s, l).trace)
    ensures s.es.vars.progress.percent <= Apply(w, s, l).es.vars.progress.percent
  {
    ReachableInv(w, s);
    InvStep(w, s, l);
    TurnOfStep(w, s, l);
    if TurnOf(w, s, l).Some? {
      PercentNeverFalls(w.config, w.count, s.trace, TurnOf(w, s, l).value);
    }
  }

  /** Every checkpoint saved along a run names the number of whole batches written by then. */
  lemma RunCheckpoints(w: World, s: State)
    requires Reachable(w, s) && AllHonest(w.config, s.trace)
    requires w.config.batchSize > 0 && SavesCheckpoint(w.config)
    ensures SavedOk(w.config, s.es.vars.saved) && |s.es.vars.saved| == |Kept(s.trace)|
  {
    ReachableInv(w, s);
    ReachableSizes(w, s);
    CheckpointsTrackWrites(w.config, w.count, s.trace);
  }

  /** The preview handed back is the longest prefix of the processed rows within the limit, and so a
      prefix of the table. */
  lemma RunPreview(w: World, s: State)
    requires Reachable(w, s)
    ensures var rows := Flatten(Kept(s.trace));
      s.es.vars.preview == if w.config.previewMode then rows[..Min(Max(w.config.previewLimit, 0), |rows|)] else []
    ensures s.es.vars.preview <= w.table
  {
    ReachableInv(w, s);
    ProcessedIsPrefix(w, s);
    PreviewIsPrefix(w.config, Start(w.count), s.trace);
  }

  lemma {:induction false} FailureWasReported(c: Config, es: EngineState, t: seq<Event>)
    requires es.outcome.None?
    ensures var o := Fold(c, es, t).outcome;
      o.Some? && o.value.ReturnedError? ==> ErrorMessage(Some(o.value.err)) in t
  {
    if t != [] {
      FailureWasReported(c, es, t[..|t| - 1]);
      assert t == t[..|t| - 1] + [t[|t| - 1]];
    }
  }

  /** The engine of the two-process model is the sequential loop run over the turns it took. */
  lemma EngineIsSequentialRun(w: World, s: State)
    requires Reachable(w, s)
    ensures s.es == Fold(w.config, Start(w.count), s.trace) && InOrder(w.config, Start(w.count), s.trace)
  {
    ReachableInv(w, s);
  }

  // ----- How a run ends -----

  predicate StopsRun(l: Label) { l.CallStop? || l.ParentCancels? }

  predicate AnyStop(ls: seq<Label>) { exists i :: 0 <= i < |ls| && StopsRun(ls[i]) }

  predicate AnyFailure(ls: seq<Label>) { exists i :: 0 <= i < |ls| && ls[i].QueryFails? }

  predicate ErrorUnderWay(s: State) {
    (s.reader.Reporting? && s.reader.report.Some?) || exists i :: 0 <= i < |s.errorSlot| && s.errorSlot[i].Some?
  }

  predicate EndedWith(s: State, status: Status) {
    s.es.outcome.Some? && s.es.outcome.value.Finished? && s.es.outcome.value.result.status == status
  }

  predicate ReturnedWithError(s: State) { s.es.outcome.Some? && s.es.outcome.value.ReturnedError? }

  /** What a cancelled context, an error on its way and an ended run go back to. */
  predicate CausesOk(w: World, s: State, stopped: bool, failed: bool) {
    && (s.es.outcome.None? && s.cancelled ==> stopped)
    && (EndedWith(s, Cancelled) ==> stopped)
    && (s.es.outcome.None? && ErrorUnderWay(s) ==> stopped || failed || !w.configured)
    && (ReturnedWithError(s) ==> stopped || failed || !w.configured)
    && (s.engine.Returned? <==> s.es.outcome.Some?)
  }

  lemma ReaderCauses(w: World, s: State, l: Label, stopped: bool, failed: bool)
    requires CausesOk(w, s, stopped, failed) && Enabled(w, s, l) && IsReaderLabel(l) && !l.Report?
    ensures CausesOk(w, Apply(w, s, l), stopped, failed || l.QueryFails?)
  {
    var s' := Apply(w, s, l);
    assert s'.es == s.es && s'.cancelled == s.cancelled && s'.engine == s.engine && s'.errorSlot == s.errorSlot;
  }

  lemma ReportCauses(w: World, s: State, stopped: bool, failed: bool)
    requires CausesOk(w, s, stopped, failed) && Enabled(w, s, Report)
    ensures CausesOk(w, Apply(w, s, Report), stopped, failed)
  {
    assert Apply(w, s, Report).errorSlot == [s.reader.report];
  }

  lemma HandOffCauses(w: World, s: State, stopped: bool, failed: bool)
    requires CausesOk(w, s, stopped, failed) && Enabled(w, s, HandOff)
    ensures CausesOk(w, Apply(w, s, HandOff), stopped, failed)
  {
  }

  /** A turn over a batch ends the run by a panic or completes it, if it ends it, unless the batch is
      dropped. */
  lemma BatchTurnEnds(c: Config, es: EngineState, ev: Event)
    requires es.outcome.None? && ev.Batch?
    ensures var o := Deliver(c, es, ev).outcome;
      o.Some? ==> o.value.Panicked?
                  || (o.value.Finished?
                      && (o.value.result.status == Completed || (o.value.result.status == Cancelled && ev.dropped)))
  {
  }

  lemma TurnCauses(w: World, s: State, ev: Event, stopped: bool, failed: bool)
    requires CausesOk(w, s, stopped, failed) && s.es.outcome.None? && ev.Batch? && (ev.dropped ==> s.cancelled)
    ensures CausesOk(w, Turn(w, s, ev), stopped, failed)
  {
    BatchTurnEnds(w.config, s.es, ev);
  }

  lemma SelectErrorCauses(w: World, s: State, stopped: bool, failed: bool)
    requires CausesOk(w, s, stopped, failed) && Enabled(w, s, SelectError)
    ensures CausesOk(w, Apply(w, s, SelectError), stopped, failed)
  {
    var s' := Apply(w, s, SelectError);
    if s.errorSlot[0].Some? {
      assert ErrorUnderWay(s);
    }
    forall i | 0 <= i < |s'.errorSlot| && s'.errorSlot[i].Some? ensures ErrorUnderWay(s) {
      assert s'.errorSlot[i] == s.errorSlot[i + 1];
    }
  }

  lemma SelectCauses(w: World, s: State, l: Label, stopped: bool, failed: bool)
    requires CausesOk(w, s, stopped, failed) && Enabled(w, s, l) && IsSelectLabel(l) && !l.SelectError?
    ensures CausesOk(w, Apply(w, s, l), stopped, failed)
  {
    var s' := Apply(w, s, l);
    assert s'.errorSlot == s.errorSlot && s'.reader == s.reader;
  }

  lemma BatchCauses(w: World, s: State, l: Label, stopped: bool, failed: bool)
    requires CausesOk(w, s, stopped, failed) && Enabled(w, s, l)
    requires IsBatchLabel(l)
    ensures CausesOk(w, Apply(w, s, l), stopped, failed)
  {
    var p := s.engine;
    if l.PollCancelled? {
      TurnCauses(w, s, Batch(p.batch, true, NO_STAGE, NO_STAGE, []), stopped, failed);
    } else if l.Stages? {
      TurnCauses(w, s, Batch(p.batch, false, l.tr, l.mp, []), stopped, failed);
    } else if l.Attempted? {
      TurnCauses(w, s, Batch(p.batch, false, p.tr, p.mp, p.log + [l.attempt]), stopped, failed);
    } else {
      TurnCauses(w, s, Batch(p.batch, false, p.tr, p.mp, CutDelay(p.log)), stopped, failed);
    }
  }

  lemma OutsideCauses(w: World, s: State, l: Label, stopped: bool, failed: bool)
    requires CausesOk(w, s, stopped, failed) && Enabled(w, s, l) && IsOutsideLabel(l)
    ensures CausesOk(w, Apply(w, s, l), stopped || StopsRun(l), failed)
  {
    var s' := Apply(w, s, l);
    assert s'.es.outcome == s.es.outcome && s'.engine == s.engine && s'.reader == s.reader
           && s'.errorSlot == s.errorSlot;
  }

  lemma QuietCauses(w: World, s: State, l: Label, stopped: bool, failed: bool)
    requires CausesOk(w, s, stopped, failed) && Enabled(w, s, l) && (IsWaitLabel(l) || l.DelayOver?)
    ensures CausesOk(w, Apply(w, s, l), stopped, failed)
  {
    WaitMovesEngineOnly(w, s, l);
  }

  lemma CausesStep(w: World, s: State, l: Label, stopped: bool, failed: bool)
    requires CausesOk(w, s, stopped, failed) && Enabled(w, s, l)
    ensures CausesOk(w, Apply(w, s, l), stopped || StopsRun(l), failed || l.QueryFails?)
  {
    if l.Report? {
      ReportCauses(w, s, stopped, failed);
    } else if l.HandOff? {
      HandOffCauses(w, s, stopped, failed);
    } else if IsReaderLabel(l) {
      ReaderCauses(w, s, l, stopped, failed);
    } else if l.SelectError? {
      SelectErrorCauses(w, s, stopped, failed);
    } else if IsSelectLabel(l) {
      SelectCauses(w, s, l, stopped, failed);
    } else if IsBatchLabel(l) {
      BatchCauses(w, s, l, stopped, failed);
    } else if IsOutsideLabel(l) {
      OutsideCauses(w, s, l, stopped, failed);
    } else {
      QuietCauses(w, s, l, stopped, failed);
    }
  }

  lemma AnyFront(ls: seq<Label>)
    requires ls != []
    ensures AnyStop(ls) <==> StopsRun(ls[0]) || AnyStop(ls[1..])
    ensures AnyFailure(ls) <==> ls[0].QueryFails? || AnyFailure(ls[1..])
  {
    var rest := ls[1..];
    assert forall i :: 0 <= i < |rest| ==> rest[i] == ls[i + 1];
    if i :| 0 < i < |ls| && StopsRun(ls[i]) {
      assert StopsRun(rest[i - 1]);
    }
    if i :| 0 < i < |ls| && ls[i].QueryFails? {
      assert rest[i - 1].QueryFails?;
    }
  }

  lemma {:induction false} CausesExecution(w: World, s: State, ls: seq<Label>, s': State, stopped: bool, failed: bool)
    requires CausesOk(w, s, stopped, failed) && Execution(w, s, ls, s')
    ensures CausesOk(w, s', stopped || AnyStop(ls), failed || AnyFailure(ls))
    decreases ls
  {
    if ls != [] {
      CausesStep(w, s, ls[0], stopped, failed);
      AnyFront(ls);
      CausesExecution(w, Apply(w, s, ls[0]), ls[1..], s', stopped || StopsRun(ls[0]), failed || ls[0].QueryFails?);
    }
  }

  /** A run is cancelled only by a call to Stop or with the caller's context, and it returns an error
      only when a query failed, the context had ended or there is no data source. */
  lemma EndingsHaveCauses(w: World, ls: seq<Label>, s: State)
    requires Execution(w, Init(w), ls, s)
    ensures EndedWith(s, Cancelled) ==> AnyStop(ls)
    ensures ReturnedWithError(s) ==> AnyFailure(ls) || AnyStop(ls) || !w.configured
    ensures s.cancelled && s.es.outcome.None? ==> AnyStop(ls)
  {
    CausesExecution(w, Init(w), ls, s, false, false);
  }

  /** A run panics exactly when it handles a batch with checkpoints on, a table named and a batch
      size of 0. */
  lemma RunPanicsExactly(w: World, s: State)
    requires Reachable(w, s)
    ensures s.es.outcome == Some(Panicked)
       <==> w.config.checkpointEnabled && w.config.tableName != "" && w.config.batchSize == 0 && Kept(s.trace) != []
  {
    ReachableInv(w, s);
    PanicsExactly(w.config, Start(w.count), s.trace);
  }

  /** What the result of a run carries, and what an ended run goes back to. */
  lemma RunEndings(w: World, ls: seq<Label>, s: State)
    requires Execution(w, Init(w), ls, s) && s.es.outcome.Some?
    ensures s.cancelled
    ensures s.es.outcome.value.Panicked?
       <==> SavesCheckpoint(w.config) && w.config.batchSize == 0 && Kept(s.trace) != []
    ensures s.es.outcome.value.ReturnedError? ==>
              s.es.outcome.value.result == SyncResult(Failed, NO_TOTALS, s.es.vars.preview)
              && ErrorMessage(Some(s.es.outcome.value.err)) in s.trace
              && (AnyFailure(ls) || AnyStop(ls) || !w.configured)
    ensures s.es.outcome.value.Finished? ==>
              s.es.outcome.value.result.totals == s.es.vars.totals
              && (EndedWith(s, Completed) || (EndedWith(s, Cancelled) && AnyStop(ls)))
  {
    ReachableInv(w, s);
    RunPanicsExactly(w, s);
    FailureWasReported(w.config, Start(w.count), s.trace);
    CompletedMeansDrained(w.config, Start(w.count), s.trace);
    EndingsHaveCauses(w, ls, s);
  }

  lemma {:induction false} KeptRows(t: seq<Event>)
    requires forall i :: 0 <= i < |t| && t[i].Batch? ==> 0 < |t[i].batch|
    ensures |Flatten(Kept(t))| >= |Kept(t)|
  {
    if t != [] {
      var init, ev := t[..|t| - 1], t[|t| - 1];
      KeptRows(init);
      FlattenSnoc(Kept(init), if ev.Batch? then ev.batch else []);
    }
  }

  /** A run over a configured source that meets no query error and is not stopped can end only by
      completing, with every row of the table processed, unless its checkpoints panic. */
  lemma UndisturbedRunCompletes(w: World, ls: seq<Label>, s: State)
    requires Execution(w, Init(w), ls, s) && s.es.outcome.Some?
    requires w.configured && !AnyStop(ls) && !AnyFailure(ls)
    ensures EndedWith(s, Completed) <==> !(SavesCheckpoint(w.config) && w.config.batchSize == 0 && w.table != [])
    ensures EndedWith(s, Completed) ==> Flatten(Kept(s.trace)) == w.table
  {
    RunEndings(w, ls, s);
    ProcessedIsPrefix(w, s);
    ReachableSizes(w, s);
    KeptRows(s.trace);
    if SavesCheckpoint(w.config) && w.config.batchSize == 0 {
      assert EndedWith(s, Completed) ==> Kept(s.trace) == [];
    }
  }
}
