/** The run loop and the reader goroutine as two processes over a bounded record channel and a
    one-slot error channel (engine/sync.go, reader/database.go), interleaved with calls to Stop,
    Pause and Resume and with the end of the caller's context. */
module Protocol {
  import opened Wrappers
  import opened Records
  import opened Engine
  import opened DatabaseReader

  /** `table` is the fixed, totally ordered source; `capacity` is the record channel's. */
  datatype World = World(config: Config, table: seq<Record>, capacity: nat, configured: bool, count: Option<int>)

  datatype ReaderPc =
    | AtHead
    | Querying
    | Sending(batch: seq<Record>)
    | Reporting(report: Option<string>)
    | ClosingErrors
    | ClosingRecords
    | ReaderDone

  datatype EnginePc =
    | Selecting
    | Holding(batch: seq<Record>)   // at the test of the pause loop
    | Polling(batch: seq<Record>)   // inside the pause loop, after the sleep
    | Writing(batch: seq<Record>, tr: StageResult, mp: StageResult, log: seq<Attempt>)
    | BackingOff(batch: seq<Record>, tr: StageResult, mp: StageResult, log: seq<Attempt>)
    | Returned

  /** `sent` and `trace` are history: the rows put on the record channel, and the engine's turns. */
  datatype State = State(
    reader: ReaderPc, offset: nat, sent: nat,
    buffer: seq<seq<Record>>, recordsClosed: bool,
    errorSlot: seq<Option<string>>, errorsClosed: bool,
    engine: EnginePc, es: EngineState, trace: seq<Event>,
    cancelled: bool, paused: bool)

  datatype Label =
    | ReaderCheck
    | QueryFails(msg: string)
    | QueryAnswers
    | Push
    | HandOff                       // rendezvous on an unbuffered record channel
    | AbandonSend
    | Report
    | CloseErrors
    | CloseRecords
    | SelectDone
    | SelectBatch
    | SelectRecordsClosed
    | SelectError
    | SelectErrorsClosed
    | PauseTest
    | PollCancelled
    | PollAgain
    | Stages(tr: StageResult, mp: StageResult)
    | Attempted(attempt: Attempt)
    | DelayOver
    | DelayCut
    | CallStop
    | CallPause
    | CallResume
    | ParentCancels

  predicate IsReaderLabel(l: Label) {
    l.ReaderCheck? || l.QueryFails? || l.QueryAnswers? || l.Push? || l.AbandonSend? || l.Report?
    || l.CloseErrors? || l.CloseRecords?
  }

  predicate IsSelectLabel(l: Label) {
    l.SelectDone? || l.SelectBatch? || l.SelectRecordsClosed? || l.SelectError? || l.SelectErrorsClosed?
  }

  /** The steps that can end a turn over the batch in hand. */
  predicate IsBatchLabel(l: Label) { l.PollCancelled? || l.Stages? || l.Attempted? || l.DelayCut? }

  predicate IsOutsideLabel(l: Label) {
    l.CallStop? || l.CallPause? || l.CallResume? || l.ParentCancels?
  }

  /** The pause loop going round: test, sleep, test. */
  predicate IsWaitLabel(l: Label) { l.PauseTest? || l.PollAgain? }

  function B(w: World): nat { EffectiveBatchSize(w.config.batchSize) }

  function Init(w: World): State {
    if w.configured
    then State(AtHead, 0, 0, [], false, [], false, Selecting, Start(w.count), [], false, false)
    else State(ReaderDone, 0, 0, [], true, [Some("datasource is not configured")], true,
               Selecting, Start(w.count), [], false, false)
  }

  // ----- Steps -----

  predicate Enabled(w: World, s: State, l: Label) {
    match l
    case ReaderCheck => s.reader.AtHead?
    case QueryFails(_) => s.reader.Querying?
    case QueryAnswers => s.reader.Querying?
    case Push => s.reader.Sending? && |s.buffer| < w.capacity
    case HandOff => s.reader.Sending? && w.capacity == 0 && s.engine.Selecting? && s.es.recordsOpen
    case AbandonSend => s.reader.Sending? && s.cancelled
    case Report => s.reader.Reporting? && |s.errorSlot| < 1
    case CloseErrors => s.reader.ClosingErrors?
    case CloseRecords => s.reader.ClosingRecords?
    case SelectDone => s.engine.Selecting? && s.cancelled
    case SelectBatch => s.engine.Selecting? && s.es.recordsOpen && s.buffer != []
    case SelectRecordsClosed => s.engine.Selecting? && s.es.recordsOpen && s.buffer == [] && s.recordsClosed
    case SelectError => s.engine.Selecting? && s.es.errorsOpen && s.errorSlot != []
    case SelectErrorsClosed => s.engine.Selecting? && s.es.errorsOpen && s.errorSlot == [] && s.errorsClosed
    case PauseTest => s.engine.Holding? && s.paused
    case PollCancelled => s.engine.Polling? && s.cancelled
    case PollAgain => s.engine.Polling? && !s.cancelled
    case Stages(_, _) => s.engine.Holding? && !s.paused
    case Attempted(a) => s.engine.Writing? && (a.Interrupted? <==> s.cancelled)
                         && (a.Errored? ==> !a.delayInterrupted)
    case DelayOver => s.engine.BackingOff?
    case DelayCut => s.engine.BackingOff? && s.cancelled
    case CallStop => true
    case CallPause => true
    case CallResume => true
    case ParentCancels => true
  }

  /** A completed turn of the engine's loop; returning from `Run` cancels its context. */
  function Turn(w: World, s: State, ev: Event): State {
    var es := Deliver(w.config, s.es, ev);
    s.(es := es, trace := s.trace + [ev],
       engine := if es.outcome.Some? then Returned else Selecting,
       cancelled := s.cancelled || es.outcome.Some?)
  }

  function OutsideCall(w: World, s: State, status: Status): State {
    var ev := StatusCall(status);
    s.(es := Deliver(w.config, s.es, ev), trace := s.trace + [ev])
  }

  /** What the reader does once its batch is on the channel. */
  function AfterSend(w: World, s: State): State
    requires s.reader.Sending?
  {
    s.(sent := s.sent + |s.reader.batch|,
       reader := if |s.reader.batch| < B(w) then Reporting(None) else AtHead,
       offset := if |s.reader.batch| < B(w) then s.offset else s.offset + B(w))
  }

  function AfterAttempt(w: World, s: State, a: Attempt): State
    requires s.engine.Writing?
  {
    var p := s.engine;
    var log := p.log + [a];
    if a.Errored? && |log| < MaxAttempts(w.config)
    then s.(engine := BackingOff(p.batch, p.tr, p.mp, log))
    else Turn(w, s, Batch(p.batch, false, p.tr, p.mp, log))
  }

  /** The log of a retry whose last delay was cut short. */
  function CutDelay(log: seq<Attempt>): seq<Attempt> {
    if log == [] then [] else log[|log| - 1 := Errored(true)]
  }

  const NO_STAGE := StageResult([], [], false)

  function Apply(w: World, s: State, l: Label): State
    requires Enabled(w, s, l)
  {
    match l
    case ReaderCheck => s.(reader := if s.cancelled then Reporting(Some("context canceled")) else Querying)
    case QueryFails(msg) => s.(reader := Reporting(Some("read batch failed: " + msg)))
    case QueryAnswers =>
      var rows := Page(w.table, s.offset, B(w));
      s.(reader := if rows == [] then Reporting(None) else Sending(rows))
    case Push => AfterSend(w, s).(buffer := s.buffer + [s.reader.batch])
    case HandOff => AfterSend(w, s).(engine := Holding(s.reader.batch))
    case AbandonSend => s.(reader := Reporting(Some("context canceled")))
    case Report => s.(errorSlot := s.errorSlot + [s.reader.report], reader := ClosingErrors)
    case CloseErrors => s.(errorsClosed := true, reader := ClosingRecords)
    case CloseRecords => s.(recordsClosed := true, reader := ReaderDone)
    case SelectDone => Turn(w, s, ContextDone)
    case SelectBatch => s.(buffer := s.buffer[1..], engine := Holding(s.buffer[0]))
    case SelectRecordsClosed => Turn(w, s, RecordsClosed)
    case SelectError => Turn(w, s.(errorSlot := s.errorSlot[1..]), ErrorMessage(s.errorSlot[0]))
    case SelectErrorsClosed => Turn(w, s, ErrorsClosed)
    case PauseTest => s.(engine := Polling(s.engine.batch))
    case PollCancelled => Turn(w, s, Batch(s.engine.batch, true, NO_STAGE, NO_STAGE, []))
    case PollAgain => s.(engine := Holding(s.engine.batch))
    case Stages(tr, mp) =>
      if w.config.previewMode
      then Turn(w, s, Batch(s.engine.batch, false, tr, mp, []))
      else s.(engine := Writing(s.engine.batch, tr, mp, []))
    case Attempted(a) => AfterAttempt(w, s, a)
    case DelayOver => s.(engine := Writing(s.engine.batch, s.engine.tr, s.engine.mp, s.engine.log))
    case DelayCut =>
      var p := s.engine;
      Turn(w, s, Batch(p.batch, false, p.tr, p.mp, CutDelay(p.log)))
    case CallStop => OutsideCall(w, s, Cancelled).(cancelled := true)
    case CallPause => OutsideCall(w, s, Paused).(paused := true)
    case CallResume => OutsideCall(w, s, Running).(paused := false)
    case ParentCancels => s.(cancelled := true)
  }

  ghost predicate Execution(w: World, s: State, ls: seq<Label>, s': State)
    decreases ls
  {
    if ls == [] then s == s'
    else Enabled(w, s, ls[0]) && Execution(w, Apply(w, s, ls[0]), ls[1..], s')
  }

  ghost predicate Reachable(w: World, s: State) {
    exists ls :: Execution(w, Init(w), ls, s)
  }
}
