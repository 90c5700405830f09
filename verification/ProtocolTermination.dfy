/** Every run ends: a measure that each step of the reader and the engine lowers, the absence of
    deadlock, and the reader's way out once `Run` has returned. */
module ProtocolTermination {
  import opened Arithmetic
  import opened Engine
  import opened Protocol
  import opened ProtocolSafety

  /** Steps one batch can still cost once it is buffered: take it, test the pause, and attempt and
      wait for every retry. */
  function BatchCost(w: World): nat { 2 * MaxAttempts(w.config) + 3 }

  function RowCost(w: World): nat { BatchCost(w) + 3 }

  function ReaderMeasure(w: World, s: State): int {
    match s.reader
    case AtHead => RowCost(w) * (|w.table| - s.sent) + 7
    case Querying => RowCost(w) * (|w.table| - s.sent) + 6
    case Sending(_) => RowCost(w) * (|w.table| - s.sent) + 5
    case Reporting(_) => 3
    case ClosingErrors => 2
    case ClosingRecords => 1
    case ReaderDone => 0
  }

  function EngineMeasure(w: World, s: State): int {
    match s.engine
    case Selecting => 1
    case Holding(_) => 2 * MaxAttempts(w.config) + 3
    case Polling(_) => 2 * MaxAttempts(w.config) + 3
    case Writing(_, _, _, log) => 2 * (MaxAttempts(w.config) - |log|) + 2
    case BackingOff(_, _, _, log) => 2 * (MaxAttempts(w.config) - |log|) + 3
    case Returned => 0
  }

  function OpenChannels(s: State): nat {
    (if s.es.recordsOpen then 1 else 0) + (if s.es.errorsOpen then 1 else 0)
  }

  /** Rows left, batches buffered, the engine's position and the channels it still watches. */
  function Measure(w: World, s: State): int {
    ReaderMeasure(w, s) + BatchCost(w) * |s.buffer| + EngineMeasure(w, s) + OpenChannels(s)
  }

  predicate IsWorkLabel(l: Label) { !IsOutsideLabel(l) && !IsWaitLabel(l) }

  lemma MeasureNonNegative(w: World, s: State)
    requires Inv(w, s)
    ensures Measure(w, s) >= 0
  {
    ProductNonNegative(RowCost(w), |w.table| - s.sent);
    ProductNonNegative(BatchCost(w), |s.buffer|);
  }

  /** A turn finishes the batch in hand; from the select itself it returns or closes a channel. */
  lemma TurnMeasure(w: World, s: State, ev: Event)
    requires s.es.outcome.None?
    ensures Measure(w, Turn(w, s, ev)) <= Measure(w, s) - EngineMeasure(w, s) + 1
    ensures ev.ContextDone? || (ev.RecordsClosed? && s.es.recordsOpen)
            || ((ev.ErrorsClosed? || ev.ErrorMessage?) && s.es.errorsOpen) ==>
              Measure(w, Turn(w, s, ev)) < Measure(w, s) - EngineMeasure(w, s) + 1
  {
    var s' := Turn(w, s, ev);
    assert OpenChannels(s') <= OpenChannels(s);
    assert s'.reader == s.reader && s'.sent == s.sent && s'.buffer == s.buffer;
    assert ReaderMeasure(w, s') == ReaderMeasure(w, s);
  }

  lemma SendPays(w: World, s: State)
    requires RowsOk(w, s) && s.reader.Sending?
    ensures ReaderMeasure(w, AfterSend(w, s)) + BatchCost(w) < ReaderMeasure(w, s)
  {
    var n := |s.reader.batch|;
    SendMovesRows(w, s);
    var left := |w.table| - s.sent;
    assert n >= 1;
    Distribute(RowCost(w), left - n, n);
    ProductGrows(RowCost(w), n);
    ProductNonNegative(RowCost(w), left - n);
  }

  /** With the same reader, buffer and channels the measures differ by the engine's position. */
  lemma MeasureFollows(w: World, s: State, s': State)
    requires s'.reader == s.reader && s'.sent == s.sent && s'.buffer == s.buffer && OpenChannels(s') == OpenChannels(s)
    ensures Measure(w, s') - EngineMeasure(w, s') == Measure(w, s) - EngineMeasure(w, s)
  {
  }

  lemma StagesStepMeasure(w: World, s: State, tr: StageResult, mp: StageResult)
    requires EngineOk(w, s) && Enabled(w, s, Stages(tr, mp))
    ensures Measure(w, Apply(w, s, Stages(tr, mp))) < Measure(w, s)
  {
    if w.config.previewMode {
      TurnMeasure(w, s, Batch(s.engine.batch, false, tr, mp, []));
    } else {
      MeasureFollows(w, s, Apply(w, s, Stages(tr, mp)));
    }
  }

  lemma TakeStepMeasure(w: World, s: State)
    requires Inv(w, s) && Enabled(w, s, SelectBatch)
    ensures Measure(w, Apply(w, s, SelectBatch)) < Measure(w, s)
  {
    Distribute(BatchCost(w), |s.buffer| - 1, 1);
  }

  lemma SelectStepMeasure(w: World, s: State, l: Label)
    requires Inv(w, s) && Enabled(w, s, l)
    requires l.SelectDone? || l.SelectRecordsClosed? || l.SelectError? || l.SelectErrorsClosed? || l.PollCancelled?
    ensures Measure(w, Apply(w, s, l)) < Measure(w, s)
  {
    if l.SelectDone? {
      TurnMeasure(w, s, ContextDone);
    } else if l.SelectRecordsClosed? {
      TurnMeasure(w, s, RecordsClosed);
    } else if l.SelectErrorsClosed? {
      TurnMeasure(w, s, ErrorsClosed);
    } else if l.PollCancelled? {
      TurnMeasure(w, s, Batch(s.engine.batch, true, NO_STAGE, NO_STAGE, []));
    } else {
      var s0 := s.(errorSlot := s.errorSlot[1..]);
      assert Measure(w, s0) == Measure(w, s);
      TurnMeasure(w, s0, ErrorMessage(s.errorSlot[0]));
    }
  }

  lemma SameMeasure(w: World, s: State, s': State)
    requires s'.reader == s.reader && s'.sent == s.sent && s'.buffer == s.buffer
    requires EngineMeasure(w, s') == EngineMeasure(w, s) && OpenChannels(s') == OpenChannels(s)
    ensures Measure(w, s') == Measure(w, s)
  {
  }

  lemma OutsideStepMeasure(w: World, s: State, l: Label)
    requires Enabled(w, s, l) && IsOutsideLabel(l)
    ensures Measure(w, Apply(w, s, l)) == Measure(w, s)
  {
    var s' := Apply(w, s, l);
    assert s'.engine == s.engine && s'.reader == s.reader && s'.sent == s.sent && s'.buffer == s.buffer;
    assert s'.es.recordsOpen == s.es.recordsOpen && s'.es.errorsOpen == s.es.errorsOpen;
    SameMeasure(w, s, s');
  }

  lemma DelayStepMeasure(w: World, s: State, l: Label)
    requires EngineOk(w, s) && Enabled(w, s, l) && (l.DelayOver? || l.DelayCut?)
    ensures Measure(w, Apply(w, s, l)) < Measure(w, s)
  {
    if l.DelayCut? {
      TurnMeasure(w, s, Batch(s.engine.batch, false, s.engine.tr, s.engine.mp, CutDelay(s.engine.log)));
    } else {
      MeasureFollows(w, s, Apply(w, s, l));
    }
  }

  lemma AttemptStepMeasure(w: World, s: State, a: Attempt)
    requires EngineOk(w, s) && s.engine.Writing?
    ensures Measure(w, AfterAttempt(w, s, a)) < Measure(w, s)
  {
    var log := s.engine.log + [a];
    if a.Errored? && |log| < MaxAttempts(w.config) {
      MeasureFollows(w, s, AfterAttempt(w, s, a));
    } else {
      TurnMeasure(w, s, Batch(s.engine.batch, false, s.engine.tr, s.engine.mp, log));
    }
  }

  lemma WaitStepMeasure(w: World, s: State, l: Label)
    requires Enabled(w, s, l) && IsWaitLabel(l)
    ensures Measure(w, Apply(w, s, l)) == Measure(w, s)
  {
    SameMeasure(w, s, Apply(w, s, l));
  }

  lemma EngineStepMeasure(w: World, s: State, l: Label)
    requires Inv(w, s) && Enabled(w, s, l) && !IsReaderLabel(l) && !l.HandOff?
    ensures Measure(w, Apply(w, s, l)) <= Measure(w, s)
    ensures IsWorkLabel(l) ==> Measure(w, Apply(w, s, l)) < Measure(w, s)
  {
    if l.Stages? {
      StagesStepMeasure(w, s, l.tr, l.mp);
    } else if l.Attempted? {
      AttemptStepMeasure(w, s, l.attempt);
    } else if l.DelayOver? || l.DelayCut? {
      DelayStepMeasure(w, s, l);
    } else if l.SelectBatch? {
      TakeStepMeasure(w, s);
    } else if IsSelectLabel(l) || l.PollCancelled? {
      SelectStepMeasure(w, s, l);
    } else if IsWaitLabel(l) {
      WaitStepMeasure(w, s, l);
    } else {
      OutsideStepMeasure(w, s, l);
    }
  }

  lemma HandOffMeasure(w: World, s: State)
    requires Inv(w, s) && Enabled(w, s, HandOff)
    ensures Measure(w, Apply(w, s, HandOff)) < Measure(w, s)
  {
    SendPays(w, s);
    var s' := Apply(w, s, HandOff);
    assert ReaderMeasure(w, s') == ReaderMeasure(w, AfterSend(w, s));
  }

  lemma PushMeasure(w: World, s: State)
    requires Inv(w, s) && Enabled(w, s, Push)
    ensures Measure(w, Apply(w, s, Push)) < Measure(w, s)
  {
    SendPays(w, s);
    var s' := Apply(w, s, Push);
    assert ReaderMeasure(w, s') == ReaderMeasure(w, AfterSend(w, s));
    Distribute(BatchCost(w), |s.buffer|, 1);
  }

  lemma ReaderStepMeasure(w: World, s: State, l: Label)
    requires Inv(w, s) && Enabled(w, s, l) && (IsReaderLabel(l) || l.HandOff?)
    ensures Measure(w, Apply(w, s, l)) < Measure(w, s)
  {
    if l.Push? {
      PushMeasure(w, s);
    } else if l.HandOff? {
      HandOffMeasure(w, s);
    } else {
      ProductNonNegative(RowCost(w), |w.table| - s.sent);
      var s' := Apply(w, s, l);
      assert ReaderMeasure(w, s') < ReaderMeasure(w, s);
      assert s'.buffer == s.buffer && s'.engine == s.engine && s'.es == s.es;
    }
  }

  /** Work lowers the measure, the pause loop and the outside calls leave it as it is. */
  lemma StepMeasure(w: World, s: State, l: Label)
    requires Inv(w, s) && Enabled(w, s, l)
    ensures Measure(w, Apply(w, s, l)) <= Measure(w, s)
    ensures IsWorkLabel(l) ==> Measure(w, Apply(w, s, l)) < Measure(w, s)
  {
    if IsReaderLabel(l) || l.HandOff? {
      ReaderStepMeasure(w, s, l);
    } else {
      EngineStepMeasure(w, s, l);
    }
  }

  function WorkSteps(ls: seq<Label>): nat {
    if ls == [] then 0 else (if IsWorkLabel(ls[0]) then 1 else 0) + WorkSteps(ls[1..])
  }

  lemma {:induction false} WorkIsBounded(w: World, s: State, ls: seq<Label>, s': State)
    requires Inv(w, s) && Execution(w, s, ls, s')
    ensures WorkSteps(ls) + Measure(w, s') <= Measure(w, s)
    decreases ls
  {
    if ls != [] {
      InvStep(w, s, ls[0]);
      StepMeasure(w, s, ls[0]);
      WorkIsBounded(w, Apply(w, s, ls[0]), ls[1..], s');
    }
  }

  lemma InitMeasure(w: World)
    ensures Measure(w, Init(w)) <= (2 * MaxAttempts(w.config) + 6) * |w.table| + 10
  {
    assert (2 * MaxAttempts(w.config) + 6) * |w.table| >= 0;
  }

  /** However the steps interleave, a run makes at most so many of its own: linear in the rows of
      the table times the number of attempts. */
  lemma RunsAreBounded(w: World, ls: seq<Label>, s: State)
    requires Execution(w, Init(w), ls, s)
    ensures WorkSteps(ls) <= (2 * MaxAttempts(w.config) + 6) * |w.table| + 10
  {
    var s0 := Init(w);
    InitOk(w);
    InitMeasure(w);
    WorkIsBounded(w, s0, ls, s);
    InvExecution(w, s0, ls, s);
    MeasureNonNegative(w, s);
  }

  function OutsideSteps(ls: seq<Label>): nat {
    if ls == [] then 0 else (if IsOutsideLabel(ls[0]) then 1 else 0) + OutsideSteps(ls[1..])
  }

  /** The turns of the pause loop that were begun while the run was paused. */
  ghost function PausedTurns(w: World, s: State, ls: seq<Label>, s': State): nat
    requires Execution(w, s, ls, s')
    decreases ls
  {
    if ls == [] then 0
    else (if ls[0].PauseTest? && s.paused then 1 else 0) + PausedTurns(w, Apply(w, s, ls[0]), ls[1..], s')
  }

  /** The half turn of the pause loop a state is in. */
  function HalfTurn(s: State): nat { if s.engine.Polling? then 1 else 0 }

  lemma ReaderHalfTurn(w: World, s: State, l: Label)
    requires Enabled(w, s, l) && (IsReaderLabel(l) || l.HandOff?)
    ensures HalfTurn(Apply(w, s, l)) <= HalfTurn(s)
  {
  }

  lemma EngineHalfTurn(w: World, s: State, l: Label)
    requires Enabled(w, s, l) && !IsReaderLabel(l) && !l.HandOff? && !IsWaitLabel(l)
    ensures HalfTurn(Apply(w, s, l)) <= HalfTurn(s)
  {
  }

  /** Only the test of the pause flag enters the pause loop, and only on a paused run. */
  lemma HalfTurnStep(w: World, s: State, l: Label)
    requires Enabled(w, s, l)
    ensures l.PauseTest? ==> s.paused && HalfTurn(s) == 0 && HalfTurn(Apply(w, s, l)) == 1
    ensures l.PollAgain? ==> HalfTurn(s) == 1 && HalfTurn(Apply(w, s, l)) == 0
    ensures !IsWaitLabel(l) ==> HalfTurn(Apply(w, s, l)) <= HalfTurn(s)
  {
    if IsReaderLabel(l) || l.HandOff? {
      ReaderHalfTurn(w, s, l);
    } else if !IsWaitLabel(l) {
      EngineHalfTurn(w, s, l);
    }
  }

  lemma {:induction false} StepsCounted(w: World, s: State, ls: seq<Label>, s': State)
    requires Execution(w, s, ls, s')
    ensures |ls| <= WorkSteps(ls) + OutsideSteps(ls) + 2 * PausedTurns(w, s, ls, s') + HalfTurn(s) - HalfTurn(s')
    decreases ls
  {
    if ls != [] {
      HalfTurnStep(w, s, ls[0]);
      StepsCounted(w, Apply(w, s, ls[0]), ls[1..], s');
    }
  }

  lemma {:induction false} ReachableMeasure(w: World, s: State)
    requires Reachable(w, s)
    ensures Measure(w, s) <= (2 * MaxAttempts(w.config) + 6) * |w.table| + 10
  {
    var ls :| Execution(w, Init(w), ls, s);
    InitOk(w);
    InitMeasure(w);
    WorkIsBounded(w, Init(w), ls, s);
  }

  /** From any reachable state on, a run makes no more steps than its measure allows, besides the
      calls made from outside and the turns of the pause loop begun while it is paused. */
  lemma OnlyPausesProlong(w: World, s: State, ls: seq<Label>, s': State)
    requires Reachable(w, s) && Execution(w, s, ls, s')
    ensures |ls| <= Measure(w, s) + OutsideSteps(ls) + 2 * PausedTurns(w, s, ls, s') + HalfTurn(s)
    ensures Measure(w, s) <= (2 * MaxAttempts(w.config) + 6) * |w.table| + 10
  {
    ReachableInv(w, s);
    ReachableMeasure(w, s);
    WorkIsBounded(w, s, ls, s');
    InvExecution(w, s, ls, s');
    MeasureNonNegative(w, s');
    StepsCounted(w, s, ls, s');
  }

  lemma UnpausedStep(w: World, s: State, l: Label)
    requires !s.paused && Enabled(w, s, l) && !l.CallPause?
    ensures !Apply(w, s, l).paused
  {
  }

  lemma {:induction false} NoPausedTurns(w: World, s: State, ls: seq<Label>, s': State)
    requires !s.paused && Execution(w, s, ls, s') && forall i :: 0 <= i < |ls| ==> !ls[i].CallPause?
    ensures PausedTurns(w, s, ls, s') == 0
    decreases ls
  {
    if ls != [] {
      UnpausedStep(w, s, ls[0]);
      NoPausedTurns(w, Apply(w, s, ls[0]), ls[1..], s');
    }
  }

  /** So a run ends once its last pause is lifted: from any reachable state that is not paused, and
      with no further call to Pause, the steps left are bounded by the rows and batches left, the
      calls made from outside and half a turn of the pause loop. */
  lemma UnpausedRunsEnd(w: World, s: State, ls: seq<Label>, s': State)
    requires Reachable(w, s) && !s.paused
    requires Execution(w, s, ls, s') && forall i :: 0 <= i < |ls| ==> !ls[i].CallPause?
    ensures |ls| <= Measure(w, s) + OutsideSteps(ls) + HalfTurn(s)
    ensures Measure(w, s) <= (2 * MaxAttempts(w.config) + 6) * |w.table| + 10
  {
    NoPausedTurns(w, s, ls, s');
    OnlyPausesProlong(w, s, ls, s');
  }

  // ----- No deadlock -----

  predicate Terminal(s: State) { s.engine.Returned? && s.reader.ReaderDone? }

  /** The engine stands in the pause loop, waiting for Resume or for the end of the context. */
  predicate HeldByPause(s: State) { (s.engine.Holding? && s.paused) || s.engine.Polling? }

  function EngineStepOf(s: State): Label {
    match s.engine
    case Selecting =>
      if s.es.recordsOpen && s.buffer != [] then SelectBatch
      else if s.es.recordsOpen && s.recordsClosed then SelectRecordsClosed
      else SelectError
    case Holding(_) => if s.paused then PauseTest else Stages(NO_STAGE, NO_STAGE)
    case Polling(_) => if s.cancelled then PollCancelled else PollAgain
    case Writing(_, _, _, _) => Attempted(if s.cancelled then Interrupted else Errored(false))
    case BackingOff(_, _, _, _) => DelayOver
    case Returned => SelectDone
  }

  /** A step of the reader or of the engine that is possible in a state that is not terminal. */
  function NextStep(w: World, s: State): Label {
    match s.reader
    case AtHead => ReaderCheck
    case Querying => QueryAnswers
    case Reporting(_) => Report
    case ClosingErrors => CloseErrors
    case ClosingRecords => CloseRecords
    case Sending(_) =>
      if s.cancelled then AbandonSend
      else if |s.buffer| < w.capacity then Push
      else if s.engine.Selecting? && w.capacity == 0 then HandOff
      else EngineStepOf(s)
    case ReaderDone => EngineStepOf(s)
  }

  lemma ReaderStepEnabled(w: World, s: State)
    requires Inv(w, s) && !s.reader.ReaderDone? && !s.reader.Sending?
    ensures Enabled(w, s, NextStep(w, s)) && IsReaderLabel(NextStep(w, s))
  {
  }

  lemma EngineStepEnabled(w: World, s: State)
    requires Inv(w, s) && !s.engine.Returned?
    requires s.engine.Selecting? ==> s.reader.ReaderDone? || s.buffer != []
    ensures Enabled(w, s, EngineStepOf(s)) && !IsOutsideLabel(EngineStepOf(s)) && !IsReaderLabel(EngineStepOf(s))
    ensures !HeldByPause(s) ==> IsWorkLabel(EngineStepOf(s))
  {
  }

  /** No reachable state is stuck before both the engine and the reader have finished; and only a
      pause can leave nothing but waiting to do. */
  lemma NoDeadlock(w: World, s: State)
    requires Reachable(w, s) && !Terminal(s)
    ensures Enabled(w, s, NextStep(w, s)) && !IsOutsideLabel(NextStep(w, s))
    ensures !HeldByPause(s) ==> IsWorkLabel(NextStep(w, s))
  {
    ReachableInv(w, s);
    if s.reader.ReaderDone? {
      EngineStepEnabled(w, s);
    } else if !s.reader.Sending? {
      ReaderStepEnabled(w, s);
    } else if !s.engine.Returned? && (s.engine.Selecting? ==> s.buffer != []) {
      EngineStepEnabled(w, s);
    }
  }

  /** In a run that is not paused there is work to do at once, or after the half turn of the pause
      loop that leaves it. */
  lemma ResumeReleases(w: World, s: State)
    requires Reachable(w, s) && !s.paused && !Terminal(s)
    ensures var l := NextStep(w, s);
      && Enabled(w, s, l)
      && (IsWorkLabel(l)
          || (l.PollAgain? && Enabled(w, Apply(w, s, l), NextStep(w, Apply(w, s, l)))
              && IsWorkLabel(NextStep(w, Apply(w, s, l)))))
  {
    NoDeadlock(w, s);
    if s.engine.Polling? && NextStep(w, s).PollAgain? {
      ReachableInv(w, s);
      InvStep(w, s, PollAgain);
    }
  }

  // ----- The reader after the run -----

  /** The reader's own way to its end once the context is cancelled. */
  function WayOut(s: State): seq<Label> {
    match s.reader
    case AtHead => [ReaderCheck, Report, CloseErrors, CloseRecords]
    case Querying => [QueryFails("context canceled"), Report, CloseErrors, CloseRecords]
    case Sending(_) => [AbandonSend, Report, CloseErrors, CloseRecords]
    case Reporting(_) => [Report, CloseErrors, CloseRecords]
    case ClosingErrors => [CloseErrors, CloseRecords]
    case ClosingRecords => [CloseRecords]
    case ReaderDone => []
  }

  lemma {:induction false} RunOut(w: World, s: State, ls: seq<Label>) returns (s': State)
    requires Inv(w, s) && s.engine.Returned? && ls == WayOut(s)
    ensures Execution(w, s, ls, s') && s'.reader.ReaderDone?
    decreases ls
  {
    if ls == [] {
      s' := s;
    } else {
      InvStep(w, s, ls[0]);
      s' := RunOut(w, Apply(w, s, ls[0]), ls[1..]);
    }
  }

  /** The reader never blocks once `Run` has returned: whatever its position one of its own steps is
      possible until it is done, and its single report always finds the error slot free. */
  lemma ReaderAlwaysFinishes(w: World, s: State)
    requires Reachable(w, s) && s.engine.Returned?
    ensures s.reader.Reporting? ==> Enabled(w, s, Report)
    ensures !s.reader.ReaderDone? ==> IsReaderLabel(NextStep(w, s)) && Enabled(w, s, NextStep(w, s))
    ensures |WayOut(s)| <= 4 && (forall i :: 0 <= i < |WayOut(s)| ==> IsReaderLabel(WayOut(s)[i]))
    ensures exists s' :: Execution(w, s, WayOut(s), s') && s'.reader.ReaderDone?
  {
    ReachableInv(w, s);
    var s' := RunOut(w, s, WayOut(s));
  }

  /** The most steps the reader can still make once the context is cancelled; a query under way may
      still be answered and its batch still be sent. */
  function ReaderLeft(s: State): nat {
    match s.reader
    case Querying => 6
    case Sending(_) => 5
    case AtHead => 4
    case Reporting(_) => 3
    case ClosingErrors => 2
    case ClosingRecords => 1
    case ReaderDone => 0
  }

  lemma ReturnedStep(w: World, s: State, l: Label)
    requires s.engine.Returned? && s.cancelled && Enabled(w, s, l)
    ensures IsReaderLabel(l) || IsOutsideLabel(l)
    ensures Apply(w, s, l).engine.Returned? && Apply(w, s, l).cancelled
    ensures ReaderLeft(Apply(w, s, l)) <= ReaderLeft(s) - (if IsReaderLabel(l) then 1 else 0)
  {
  }

  lemma {:induction false} ReturnedExecution(w: World, s: State, ls: seq<Label>, s': State)
    requires s.engine.Returned? && s.cancelled && Execution(w, s, ls, s')
    ensures |ls| + ReaderLeft(s') <= ReaderLeft(s) + OutsideSteps(ls)
    decreases ls
  {
    if ls != [] {
      ReturnedStep(w, s, ls[0]);
      ReturnedExecution(w, Apply(w, s, ls[0]), ls[1..], s');
    }
  }

  /** However it goes on once `Run` has returned, the reader makes at most six more steps, whatever
      the size of the table. */
  lemma ReaderEndsSoon(w: World, s: State, ls: seq<Label>, s': State)
    requires Reachable(w, s) && s.engine.Returned? && Execution(w, s, ls, s')
    ensures |ls| + ReaderLeft(s') <= ReaderLeft(s) + OutsideSteps(ls) <= 6 + OutsideSteps(ls)
    ensures ReaderLeft(s') == 0 <==> s'.reader.ReaderDone?
  {
    ReachableInv(w, s);
    ReturnedExecution(w, s, ls, s');
  }
}
