/** What every reachable state of the run loop and the reader keeps. */
module ProtocolSafety {
  import opened Wrappers
  import opened Records
  import opened Sequences
  import opened Engine
  import opened EngineAccounting
  import opened DatabaseReader
  import opened Protocol

  /** The batch the engine has taken but not finished with. */
  function InHand(s: State): seq<Record> {
    match s.engine
    case Holding(b) => b
    case Polling(b) => b
    case Writing(b, _, _, _) => b
    case BackingOff(b, _, _, _) => b
    case Selecting => []
    case Returned => []
  }

  predicate Unreported(r: ReaderPc) {
    r.AtHead? || r.Querying? || r.Sending? || r.Reporting?
  }

  /** Channel discipline: bounds, the closing order, and a single send on the error channel. */
  predicate ChannelsOk(w: World, s: State) {
    && |s.buffer| <= w.capacity
    && |s.errorSlot| <= 1
    && (s.recordsClosed <==> s.reader.ReaderDone?)
    && (s.errorsClosed <==> s.reader.ReaderDone? || s.reader.ClosingRecords?)
    && (Unreported(s.reader) ==> s.errorSlot == [] && s.es.errorsOpen)
    && (!Unreported(s.reader) && s.es.outcome.None? && s.es.errorsOpen ==> |s.errorSlot| == 1)
    && (!s.es.recordsOpen ==> s.recordsClosed && s.buffer == [])
  }

  /** The engine's state is what its turns made it, and it has returned exactly when it has an
      outcome; the context is then cancelled. */
  ghost predicate EngineOk(w: World, s: State) {
    && s.es == Fold(w.config, Start(w.count), s.trace)
    && InOrder(w.config, Start(w.count), s.trace)
    && (s.engine.Returned? <==> s.es.outcome.Some?)
    && (s.engine.Returned? ==> s.cancelled)
    && (s.es.outcome.None? ==> s.es.recordsOpen || s.es.errorsOpen)
    && (s.engine.Writing? ==> !w.config.previewMode && |s.engine.log| < MaxAttempts(w.config))
    && (s.engine.BackingOff? ==> !w.config.previewMode && 0 < |s.engine.log| < MaxAttempts(w.config))
  }

  /** No row is lost, repeated or reordered between the table and the engine. */
  predicate RowsOk(w: World, s: State) {
    && s.sent <= |w.table|
    && Flatten(Taken(s.trace)) + InHand(s) + Flatten(s.buffer) == w.table[..s.sent]
    && (s.reader.AtHead? || s.reader.Querying? ==> s.offset == s.sent)
    && (s.reader.Sending? ==> s.offset == s.sent && s.reader.batch == Page(w.table, s.offset, B(w)) != [])
    && (s.reader == Reporting(None) || s.errorSlot == [None] || !s.es.errorsOpen ==> s.sent == |w.table|)
  }

  ghost predicate Inv(w: World, s: State) {
    ChannelsOk(w, s) && EngineOk(w, s) && RowsOk(w, s)
  }

  lemma InitOk(w: World)
    ensures Inv(w, Init(w))
  {
  }

  lemma TurnKeepsEngine(w: World, s: State, ev: Event)
    requires EngineOk(w, s) && s.es.outcome.None?
    ensures EngineOk(w, Turn(w, s, ev))
  {
    FoldSnoc(w.config, Start(w.count), s.trace, ev);
    assert (s.trace + [ev])[..|s.trace|] == s.trace;
  }

  lemma OutsideKeepsEngine(w: World, s: State, status: Status)
    requires EngineOk(w, s)
    ensures EngineOk(w, OutsideCall(w, s, status))
  {
    var ev := StatusCall(status);
    FoldSnoc(w.config, Start(w.count), s.trace, ev);
    assert (s.trace + [ev])[..|s.trace|] == s.trace;
  }

  lemma SelectEngineStep(w: World, s: State, l: Label)
    requires EngineOk(w, s) && Enabled(w, s, l) && IsSelectLabel(l)
    ensures EngineOk(w, Apply(w, s, l))
  {
    if l.SelectDone? {
      TurnKeepsEngine(w, s, ContextDone);
    } else if l.SelectRecordsClosed? {
      TurnKeepsEngine(w, s, RecordsClosed);
    } else if l.SelectErrorsClosed? {
      TurnKeepsEngine(w, s, ErrorsClosed);
    } else if l.SelectError? {
      TurnKeepsEngine(w, s.(errorSlot := s.errorSlot[1..]), ErrorMessage(s.errorSlot[0]));
    }
  }

  lemma AttemptEngineStep(w: World, s: State, a: Attempt)
    requires EngineOk(w, s) && s.engine.Writing?
    ensures EngineOk(w, AfterAttempt(w, s, a))
  {
    var p := s.engine;
    var log := p.log + [a];
    if !(a.Errored? && |log| < MaxAttempts(w.config)) {
      TurnKeepsEngine(w, s, Batch(p.batch, false, p.tr, p.mp, log));
    }
  }

  lemma BatchEngineStep(w: World, s: State, l: Label)
    requires EngineOk(w, s) && Enabled(w, s, l)
    requires IsBatchLabel(l)
    ensures EngineOk(w, Apply(w, s, l))
  {
    var p := s.engine;
    if l.PollCancelled? {
      TurnKeepsEngine(w, s, Batch(p.batch, true, NO_STAGE, NO_STAGE, []));
    } else if l.Attempted? {
      AttemptEngineStep(w, s, l.attempt);
    } else if l.DelayCut? {
      TurnKeepsEngine(w, s, Batch(p.batch, false, p.tr, p.mp, CutDelay(p.log)));
    } else if w.config.previewMode {
      TurnKeepsEngine(w, s, Batch(p.batch, false, l.tr, l.mp, []));
    }
  }

  lemma OutsideEngineStep(w: World, s: State, l: Label)
    requires EngineOk(w, s) && Enabled(w, s, l) && IsOutsideLabel(l)
    ensures EngineOk(w, Apply(w, s, l))
  {
    if l.CallStop? {
      OutsideKeepsEngine(w, s, Cancelled);
    } else if l.CallPause? {
      OutsideKeepsEngine(w, s, Paused);
    } else if l.CallResume? {
      OutsideKeepsEngine(w, s, Running);
    }
  }

  /** The pause loop and the end of a delay move only the engine, with its batch in hand. */
  lemma WaitMovesEngineOnly(w: World, s: State, l: Label)
    requires Enabled(w, s, l) && (IsWaitLabel(l) || l.DelayOver?)
    ensures var s' := Apply(w, s, l);
      && s' == s.(engine := s'.engine) && InHand(s') == InHand(s)
      && !s'.engine.Selecting? && !s'.engine.Returned? && !s.engine.Selecting? && !s.engine.Returned?
      && !s'.engine.BackingOff?
      && (s'.engine.Writing? ==> l.DelayOver? && s'.engine.log == s.engine.log)
  {
    if l.PauseTest? {
      assert Apply(w, s, PauseTest) == s.(engine := Polling(s.engine.batch));
    } else if l.PollAgain? {
      assert Apply(w, s, PollAgain) == s.(engine := Holding(s.engine.batch));
    } else {
      assert Apply(w, s, DelayOver) == s.(engine := Writing(s.engine.batch, s.engine.tr, s.engine.mp, s.engine.log));
    }
  }

  lemma WaitEngineStep(w: World, s: State, l: Label)
    requires EngineOk(w, s) && Enabled(w, s, l) && (IsWaitLabel(l) || l.DelayOver?)
    ensures EngineOk(w, Apply(w, s, l))
  {
    WaitMovesEngineOnly(w, s, l);
  }

  /** Nothing of what the engine keeps has changed. */
  predicate EngineLeft(s: State, s': State) {
    && s'.engine == s.engine && s'.es == s.es && s'.trace == s.trace && s'.cancelled == s.cancelled
    && s'.paused == s.paused
  }

  lemma QueryLeavesEngine(w: World, s: State, l: Label)
    requires Enabled(w, s, l) && (l.ReaderCheck? || l.QueryFails? || l.QueryAnswers?)
    ensures EngineLeft(s, Apply(w, s, l))
  {
  }

  lemma SendLeavesEngine(w: World, s: State, l: Label)
    requires Enabled(w, s, l) && (l.Push? || l.AbandonSend?)
    ensures EngineLeft(s, Apply(w, s, l))
  {
  }

  lemma CloseLeavesEngine(w: World, s: State, l: Label)
    requires Enabled(w, s, l) && (l.Report? || l.CloseErrors? || l.CloseRecords?)
    ensures EngineLeft(s, Apply(w, s, l))
  {
  }

  lemma ReaderLeavesEngine(w: World, s: State, l: Label)
    requires Enabled(w, s, l) && IsReaderLabel(l)
    ensures EngineLeft(s, Apply(w, s, l))
  {
    if l.ReaderCheck? || l.QueryFails? || l.QueryAnswers? {
      QueryLeavesEngine(w, s, l);
    } else if l.Push? || l.AbandonSend? {
      SendLeavesEngine(w, s, l);
    } else {
      CloseLeavesEngine(w, s, l);
    }
  }

  lemma SameEngine(w: World, s: State, s': State)
    requires EngineOk(w, s)
    requires s'.engine == s.engine && s'.es == s.es && s'.trace == s.trace && s'.cancelled == s.cancelled
    ensures EngineOk(w, s')
  {
  }

  lemma ReaderEngineStep(w: World, s: State, l: Label)
    requires EngineOk(w, s) && Enabled(w, s, l) && IsReaderLabel(l)
    ensures EngineOk(w, Apply(w, s, l))
  {
    ReaderLeavesEngine(w, s, l);
    SameEngine(w, s, Apply(w, s, l));
  }

  lemma HandOffEngineStep(w: World, s: State)
    requires EngineOk(w, s) && Enabled(w, s, HandOff)
    ensures EngineOk(w, Apply(w, s, HandOff))
  {
    var s' := Apply(w, s, HandOff);
    assert s'.es == s.es && s'.trace == s.trace && s'.cancelled == s.cancelled && s'.engine == Holding(s.reader.batch);
  }

  lemma EngineStep(w: World, s: State, l: Label)
    requires EngineOk(w, s) && Enabled(w, s, l)
    ensures EngineOk(w, Apply(w, s, l))
  {
    if IsSelectLabel(l) {
      SelectEngineStep(w, s, l);
    } else if IsBatchLabel(l) {
      BatchEngineStep(w, s, l);
    } else if IsOutsideLabel(l) {
      OutsideEngineStep(w, s, l);
    } else if IsReaderLabel(l) {
      ReaderEngineStep(w, s, l);
    } else if l.HandOff? {
      HandOffEngineStep(w, s);
    } else {
      WaitEngineStep(w, s, l);
    }
  }

  lemma ReaderChannelsStep(w: World, s: State, l: Label)
    requires ChannelsOk(w, s) && Enabled(w, s, l) && (IsReaderLabel(l) || l.HandOff?)
    ensures ChannelsOk(w, Apply(w, s, l))
  {
  }

  lemma SelectChannelsStep(w: World, s: State, l: Label)
    requires ChannelsOk(w, s) && Enabled(w, s, l) && IsSelectLabel(l)
    requires s.engine.Selecting? ==> s.es.outcome.None?
    ensures ChannelsOk(w, Apply(w, s, l))
  {
  }

  /** Working on a batch and the outside calls leave the channels alone. */
  lemma BatchLeavesChannels(w: World, s: State, ev: Event)
    requires ev.Batch? || ev.StatusCall?
    ensures var es := Deliver(w.config, s.es, ev);
      es.recordsOpen == s.es.recordsOpen && es.errorsOpen == s.es.errorsOpen
      && (es.outcome.None? ==> s.es.outcome.None?)
  {
  }

  /** What the steps other than the reader's and the select's leave as it is. */
  predicate SameChannels(s: State, s': State) {
    && s'.buffer == s.buffer && s'.errorSlot == s.errorSlot && s'.reader == s.reader
    && s'.recordsClosed == s.recordsClosed && s'.errorsClosed == s.errorsClosed
    && s'.es.recordsOpen == s.es.recordsOpen && s'.es.errorsOpen == s.es.errorsOpen
    && (s'.es.outcome.None? ==> s.es.outcome.None?)
  }

  lemma TurnLeavesChannels(w: World, s: State, ev: Event)
    requires ev.Batch?
    ensures SameChannels(s, Turn(w, s, ev))
  {
    BatchLeavesChannels(w, s, ev);
  }

  lemma BatchStepLeavesChannels(w: World, s: State, l: Label)
    requires Enabled(w, s, l) && IsBatchLabel(l)
    ensures SameChannels(s, Apply(w, s, l))
  {
    if l.PollCancelled? {
      TurnLeavesChannels(w, s, Batch(s.engine.batch, true, NO_STAGE, NO_STAGE, []));
    } else if l.Stages? {
      TurnLeavesChannels(w, s, Batch(s.engine.batch, false, l.tr, l.mp, []));
    } else if l.Attempted? {
      TurnLeavesChannels(w, s, Batch(s.engine.batch, false, s.engine.tr, s.engine.mp, s.engine.log + [l.attempt]));
    } else {
      TurnLeavesChannels(w, s, Batch(s.engine.batch, false, s.engine.tr, s.engine.mp, CutDelay(s.engine.log)));
    }
  }

  lemma OutsideStepLeavesChannels(w: World, s: State, l: Label)
    requires Enabled(w, s, l) && IsOutsideLabel(l)
    ensures SameChannels(s, Apply(w, s, l))
  {
    if l.CallStop? {
      BatchLeavesChannels(w, s, StatusCall(Cancelled));
    } else if l.CallPause? {
      BatchLeavesChannels(w, s, StatusCall(Paused));
    } else if l.CallResume? {
      BatchLeavesChannels(w, s, StatusCall(Running));
    }
  }

  lemma WaitLeavesChannels(w: World, s: State, l: Label)
    requires Enabled(w, s, l) && (IsWaitLabel(l) || l.DelayOver?)
    ensures SameChannels(s, Apply(w, s, l))
  {
    WaitMovesEngineOnly(w, s, l);
  }

  lemma OtherStepLeavesChannels(w: World, s: State, l: Label)
    requires Enabled(w, s, l) && !IsReaderLabel(l) && !l.HandOff? && !IsSelectLabel(l)
    ensures SameChannels(s, Apply(w, s, l))
  {
    if IsBatchLabel(l) {
      BatchStepLeavesChannels(w, s, l);
    } else if IsOutsideLabel(l) {
      OutsideStepLeavesChannels(w, s, l);
    } else {
      WaitLeavesChannels(w, s, l);
    }
  }

  lemma ChannelsStep(w: World, s: State, l: Label)
    requires ChannelsOk(w, s) && EngineOk(w, s) && Enabled(w, s, l)
    ensures ChannelsOk(w, Apply(w, s, l))
  {
    if IsReaderLabel(l) || l.HandOff? {
      ReaderChannelsStep(w, s, l);
    } else if IsSelectLabel(l) {
      SelectChannelsStep(w, s, l);
    } else {
      OtherStepLeavesChannels(w, s, l);
    }
  }

  /** A turn that takes no batch, or finishes the one in hand, moves no row. */
  lemma TurnMovesNoRow(w: World, s: State, ev: Event)
    requires if ev.Batch? then ev.batch == InHand(s) else InHand(s) == []
    ensures var s' := Turn(w, s, ev);
      Flatten(Taken(s'.trace)) + InHand(s') == Flatten(Taken(s.trace)) + InHand(s)
  {
    assert (s.trace + [ev])[..|s.trace|] == s.trace;
    if ev.Batch? {
      FlattenSnoc(Taken(s.trace), ev.batch);
    }
  }

  lemma OutsideMovesNoRow(w: World, s: State, status: Status)
    ensures Taken(OutsideCall(w, s, status).trace) == Taken(s.trace)
  {
    assert (s.trace + [StatusCall(status)])[..|s.trace|] == s.trace;
  }

  lemma SendMovesRows(w: World, s: State)
    requires RowsOk(w, s) && s.reader.Sending?
    ensures w.table[..s.sent] + s.reader.batch == w.table[..s.sent + |s.reader.batch|]
    ensures AfterSend(w, s).sent == s.sent + |s.reader.batch| <= |w.table|
    ensures AfterSend(w, s).reader == Reporting(None) ==> AfterSend(w, s).sent == |w.table|
    ensures AfterSend(w, s).reader.AtHead? ==> AfterSend(w, s).offset == AfterSend(w, s).sent
  {
  }

  lemma PushMovesRows(w: World, s: State)
    requires RowsOk(w, s) && s.reader.Sending?
    ensures Flatten(Taken(s.trace)) + InHand(s) + Flatten(s.buffer + [s.reader.batch])
         == w.table[..s.sent + |s.reader.batch|]
  {
    var xs := Flatten(Taken(s.trace)) + InHand(s);
    FlattenSnoc(s.buffer, s.reader.batch);
    SendMovesRows(w, s);
    assert xs + (Flatten(s.buffer) + s.reader.batch) == (xs + Flatten(s.buffer)) + s.reader.batch;
  }

  lemma QueryRowsStep(w: World, s: State)
    requires RowsOk(w, s) && s.reader.Querying?
    ensures RowsOk(w, Apply(w, s, QueryAnswers))
  {
    assert Page(w.table, s.offset, B(w)) == [] ==> s.offset >= |w.table|;
  }

  lemma ReportRowsStep(w: World, s: State)
    requires RowsOk(w, s) && ChannelsOk(w, s) && s.reader.Reporting?
    ensures RowsOk(w, Apply(w, s, Report))
  {
    assert s.errorSlot + [s.reader.report] == [s.reader.report];
    assert [s.reader.report][0] == s.reader.report;
  }

  lemma PushRowsStep(w: World, s: State)
    requires Inv(w, s) && Enabled(w, s, Push)
    ensures RowsOk(w, Apply(w, s, Push))
  {
    PushMovesRows(w, s);
    SendMovesRows(w, s);
  }

  /** With an unbuffered channel the batch goes from the reader's hand into the engine's. */
  lemma HandOffMovesRows(w: World, s: State)
    requires RowsOk(w, s) && s.reader.Sending? && s.buffer == [] && InHand(s) == []
    ensures Flatten(Taken(s.trace)) + s.reader.batch + Flatten(s.buffer) == w.table[..s.sent + |s.reader.batch|]
  {
    SendMovesRows(w, s);
    var xs := Flatten(Taken(s.trace));
    assert xs + [] + [] == xs && xs + s.reader.batch + [] == xs + s.reader.batch;
  }

  lemma HandOffRowsStep(w: World, s: State)
    requires Inv(w, s) && Enabled(w, s, HandOff)
    ensures RowsOk(w, Apply(w, s, HandOff))
  {
    HandOffMovesRows(w, s);
    SendMovesRows(w, s);
  }

  lemma ReaderRowsStep(w: World, s: State, l: Label)
    requires Inv(w, s) && Enabled(w, s, l) && (IsReaderLabel(l) || l.HandOff?)
    ensures RowsOk(w, Apply(w, s, l))
  {
    if l.QueryAnswers? {
      QueryRowsStep(w, s);
    } else if l.Report? {
      ReportRowsStep(w, s);
    } else if l.Push? {
      PushRowsStep(w, s);
    } else if l.HandOff? {
      HandOffRowsStep(w, s);
    }
  }

  /** A step that moves no row and reads no error keeps the rows in order. */
  lemma RowsFollow(w: World, s: State, s': State)
    requires RowsOk(w, s)
    requires s'.sent == s.sent && s'.buffer == s.buffer && s'.reader == s.reader && s'.offset == s.offset
    requires s'.errorSlot == s.errorSlot
    requires Flatten(Taken(s'.trace)) + InHand(s') == Flatten(Taken(s.trace)) + InHand(s)
    requires s'.es.errorsOpen || !s.es.errorsOpen || s.sent == |w.table|
    ensures RowsOk(w, s')
  {
  }

  lemma TurnErrors(c: Config, es: EngineState, ev: Event)
    ensures var es' := Deliver(c, es, ev);
      es'.errorsOpen || !es.errorsOpen || ev.ErrorsClosed? || ev == ErrorMessage(None)
  {
  }

  lemma TurnKeepsRows(w: World, s: State, ev: Event)
    requires RowsOk(w, s)
    requires if ev.Batch? then ev.batch == InHand(s) else InHand(s) == []
    requires ev.ErrorsClosed? || ev == ErrorMessage(None) ==> s.sent == |w.table|
    ensures RowsOk(w, Turn(w, s, ev))
  {
    TurnMovesNoRow(w, s, ev);
    TurnErrors(w.config, s.es, ev);
    RowsFollow(w, s, Turn(w, s, ev));
  }

  lemma TakeRowsStep(w: World, s: State)
    requires RowsOk(w, s) && s.engine.Selecting? && s.buffer != []
    ensures RowsOk(w, s.(buffer := s.buffer[1..], engine := Holding(s.buffer[0])))
  {
    var xs := Flatten(Taken(s.trace));
    assert xs + [] == xs;
    assert xs + (s.buffer[0] + Flatten(s.buffer[1..])) == xs + s.buffer[0] + Flatten(s.buffer[1..]);
  }

  lemma ErrorRowsStep(w: World, s: State)
    requires Inv(w, s) && Enabled(w, s, SelectError)
    ensures RowsOk(w, Apply(w, s, SelectError))
  {
    var s0 := s.(errorSlot := s.errorSlot[1..]);
    assert s0.errorSlot == [];
    assert s.errorSlot == [s.errorSlot[0]];
    TurnKeepsRows(w, s0, ErrorMessage(s.errorSlot[0]));
  }

  lemma DropRowsStep(w: World, s: State)
    requires RowsOk(w, s) && Enabled(w, s, PollCancelled)
    ensures RowsOk(w, Apply(w, s, PollCancelled))
  {
    TurnKeepsRows(w, s, Batch(s.engine.batch, true, NO_STAGE, NO_STAGE, []));
  }

  lemma StagesRowsStep(w: World, s: State, tr: StageResult, mp: StageResult)
    requires RowsOk(w, s) && Enabled(w, s, Stages(tr, mp))
    ensures RowsOk(w, Apply(w, s, Stages(tr, mp)))
  {
    if w.config.previewMode {
      TurnKeepsRows(w, s, Batch(s.engine.batch, false, tr, mp, []));
    } else {
      RowsFollow(w, s, Apply(w, s, Stages(tr, mp)));
    }
  }

  lemma AttemptRowsStep(w: World, s: State, a: Attempt)
    requires RowsOk(w, s) && s.engine.Writing?
    ensures RowsOk(w, AfterAttempt(w, s, a))
  {
    TurnKeepsRows(w, s, Batch(s.engine.batch, false, s.engine.tr, s.engine.mp, s.engine.log + [a]));
  }

  lemma DelayRowsStep(w: World, s: State)
    requires RowsOk(w, s) && Enabled(w, s, DelayCut)
    ensures RowsOk(w, Apply(w, s, DelayCut))
  {
    TurnKeepsRows(w, s, Batch(s.engine.batch, false, s.engine.tr, s.engine.mp, CutDelay(s.engine.log)));
  }

  /** The closing of the error channel is never selected: its one message is read first, and then it
      is watched no longer. */
  lemma ErrorsClosedNeverSelected(w: World, s: State)
    requires Inv(w, s)
    ensures !Enabled(w, s, SelectErrorsClosed)
  {
  }

  lemma SelectRowsStep(w: World, s: State, l: Label)
    requires Inv(w, s) && Enabled(w, s, l) && IsSelectLabel(l)
    ensures RowsOk(w, Apply(w, s, l))
  {
    ErrorsClosedNeverSelected(w, s);
    if l.SelectDone? {
      TurnKeepsRows(w, s, ContextDone);
    } else if l.SelectRecordsClosed? {
      TurnKeepsRows(w, s, RecordsClosed);
    } else if l.SelectBatch? {
      TakeRowsStep(w, s);
    } else if l.SelectError? {
      ErrorRowsStep(w, s);
    }
  }

  lemma BatchRowsStep(w: World, s: State, l: Label)
    requires RowsOk(w, s) && Enabled(w, s, l) && IsBatchLabel(l)
    ensures RowsOk(w, Apply(w, s, l))
  {
    if l.PollCancelled? {
      DropRowsStep(w, s);
    } else if l.Stages? {
      StagesRowsStep(w, s, l.tr, l.mp);
    } else if l.Attempted? {
      AttemptRowsStep(w, s, l.attempt);
    } else {
      DelayRowsStep(w, s);
    }
  }

  lemma WaitRowsStep(w: World, s: State, l: Label)
    requires RowsOk(w, s) && Enabled(w, s, l) && (IsWaitLabel(l) || l.DelayOver?)
    ensures RowsOk(w, Apply(w, s, l))
  {
    WaitMovesEngineOnly(w, s, l);
    RowsFollow(w, s, Apply(w, s, l));
  }

  lemma EngineRowsStep(w: World, s: State, l: Label)
    requires Inv(w, s) && Enabled(w, s, l) && !IsReaderLabel(l) && !IsOutsideLabel(l) && !l.HandOff?
    ensures RowsOk(w, Apply(w, s, l))
  {
    if IsSelectLabel(l) {
      SelectRowsStep(w, s, l);
    } else if IsBatchLabel(l) {
      BatchRowsStep(w, s, l);
    } else {
      WaitRowsStep(w, s, l);
    }
  }

  lemma OutsideRowsStep(w: World, s: State, l: Label)
    requires RowsOk(w, s) && Enabled(w, s, l) && IsOutsideLabel(l)
    ensures RowsOk(w, Apply(w, s, l))
  {
    if l.CallStop? {
      OutsideMovesNoRow(w, s, Cancelled);
    } else if l.CallPause? {
      OutsideMovesNoRow(w, s, Paused);
    } else if l.CallResume? {
      OutsideMovesNoRow(w, s, Running);
    }
  }

  lemma RowsStep(w: World, s: State, l: Label)
    requires Inv(w, s) && Enabled(w, s, l)
    ensures RowsOk(w, Apply(w, s, l))
  {
    if IsReaderLabel(l) || l.HandOff? {
      ReaderRowsStep(w, s, l);
    } else if IsOutsideLabel(l) {
      OutsideRowsStep(w, s, l);
    } else {
      EngineRowsStep(w, s, l);
    }
  }

  lemma InvStep(w: World, s: State, l: Label)
    requires Inv(w, s) && Enabled(w, s, l)
    ensures Inv(w, Apply(w, s, l))
  {
    EngineStep(w, s, l);
    ChannelsStep(w, s, l);
    RowsStep(w, s, l);
  }

  lemma {:induction false} InvExecution(w: World, s: State, ls: seq<Label>, s': State)
    requires Inv(w, s) && Execution(w, s, ls, s')
    ensures Inv(w, s')
    decreases ls
  {
    if ls != [] {
      InvStep(w, s, ls[0]);
      InvExecution(w, Apply(w, s, ls[0]), ls[1..], s');
    }
  }

  lemma ReachableInv(w: World, s: State)
    requires Reachable(w, s)
    ensures Inv(w, s)
  {
    var ls :| Execution(w, Init(w), ls, s);
    InitOk(w);
    InvExecution(w, Init(w), ls, s);
  }

  // ----- Main results -----

  /** The rows still on the reader's side: fetched but unsent, then the rest of the table from the
      current offset on. */
  function Unsent(w: World, s: State): seq<Record>
    requires s.sent <= |w.table|
  {
    match s.reader
    case Sending(b) => b + if s.offset + |b| <= |w.table| then w.table[s.offset + |b|..] else []
    case AtHead => if s.offset <= |w.table| then w.table[s.offset..] else []
    case Querying => if s.offset <= |w.table| then w.table[s.offset..] else []
    case _ => w.table[s.sent..]
  }

  /** In every reachable state the rows taken, in hand, buffered, fetched and still to be read are
      exactly the table, in order; what the engine has taken is a prefix of the table. */
  lemma NoRowLostOrRepeated(w: World, s: State)
    requires Reachable(w, s)
    ensures s.sent <= |w.table|
    ensures Flatten(Taken(s.trace)) + InHand(s) + Flatten(s.buffer) + Unsent(w, s) == w.table
    ensures Flatten(Taken(s.trace)) <= w.table
  {
    ReachableInv(w, s);
    var front := Flatten(Taken(s.trace)) + InHand(s) + Flatten(s.buffer);
    assert front == w.table[..s.sent];
    assert Unsent(w, s) == w.table[s.sent..];
    assert Flatten(Taken(s.trace)) + (InHand(s) + Flatten(s.buffer)) == front;
  }

  /** Batches counted are batches taken, until a cancelled pause drops the last one. */
  lemma {:induction false} AtMostOneDrop(c: Config, es: EngineState, t: seq<Event>)
    requires es.outcome.None? && InOrder(c, es, t)
    ensures Kept(t) <= Taken(t) && |Taken(t)| <= |Kept(t)| + 1
    ensures Kept(t) != Taken(t) ==>
      var f := Fold(c, es, t);
      f.outcome.Some? && f.outcome.value.Finished? && f.outcome.value.result.status == Cancelled
  {
    if t != [] {
      var init, ev := t[..|t| - 1], t[|t| - 1];
      AtMostOneDrop(c, es, init);
    }
  }

  lemma {:induction false} FlattenPrefix<T>(xss: seq<seq<T>>, yss: seq<seq<T>>)
    requires xss <= yss
    ensures Flatten(xss) <= Flatten(yss)
  {
    FlattenConcat(xss, yss[|xss|..]);
    assert yss == xss + yss[|xss|..];
  }

  /** The rows processed are an in-order prefix of the table in every reachable state, and they are
      the whole table whenever `Run` answers Completed. */
  lemma ProcessedIsPrefix(w: World, s: State)
    requires Reachable(w, s)
    ensures Flatten(Kept(s.trace)) <= w.table
    ensures s.es.outcome.Some? && s.es.outcome.value.Finished? && s.es.outcome.value.result.status == Completed ==>
              Flatten(Kept(s.trace)) == w.table && s.es.outcome.value.result.totals.read == |w.table|
  {
    ReachableInv(w, s);
    NoRowLostOrRepeated(w, s);
    AtMostOneDrop(w.config, Start(w.count), s.trace);
    FlattenPrefix(Kept(s.trace), Taken(s.trace));
    CompletedMeansDrained(w.config, Start(w.count), s.trace);
    Conservation(w.config, Start(w.count), s.trace);
    if s.es.outcome.Some? && s.es.outcome.value.Finished? && s.es.outcome.value.result.status == Completed {
      assert !s.es.recordsOpen && !s.es.errorsOpen;
      assert s.engine.Returned? && s.buffer == [] && s.sent == |w.table|;
      assert Flatten(s.buffer) == [];
    }
  }
}
