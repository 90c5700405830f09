/** What the calls from outside do to a run, told by the calls alone: a paused run holds its batches
    back until it is resumed, and a stopped one writes nothing more. */
module ProtocolPauses {
  import opened Wrappers
  import opened Records
  import opened Sequences
  import opened Engine
  import opened EngineAccounting
  import opened Protocol
  import opened ProtocolSafety
  import opened ProtocolTermination
  import opened ProtocolAccounting

  // ----- The flags and the calls -----

  predicate NoResume(ls: seq<Label>) { forall i :: 0 <= i < |ls| ==> !ls[i].CallResume? }

  /** Pause was called, and Resume was not called after it. */
  ghost predicate PausedBy(ls: seq<Label>) {
    exists i :: 0 <= i < |ls| && ls[i].CallPause? && NoResume(ls[i + 1..])
  }

  predicate NoPause(ls: seq<Label>) { forall i :: 0 <= i < |ls| ==> !ls[i].CallPause? }

  lemma {:induction false} ExecutionSnoc(w: World, s: State, ls: seq<Label>, s': State) returns (before: State)
    requires ls != [] && Execution(w, s, ls, s')
    ensures Execution(w, s, ls[..|ls| - 1], before)
    ensures Enabled(w, before, ls[|ls| - 1]) && s' == Apply(w, before, ls[|ls| - 1])
    decreases ls
  {
    if |ls| == 1 {
      before := s;
    } else {
      before := ExecutionSnoc(w, Apply(w, s, ls[0]), ls[1..], s');
      assert ls[1..][..|ls| - 2] == ls[..|ls| - 1][1..];
    }
  }

  /** What one step does to the two flags. */
  predicate FlagsStep(s: State, l: Label, s': State) {
    && s'.paused == (l.CallPause? || (s.paused && !l.CallResume?))
    && s'.cancelled == (s.cancelled || StopsRun(l) || s'.es.outcome.Some?)
    && (s.es.outcome.Some? ==> s'.es.outcome == s.es.outcome)
  }

  lemma OutsideFlags(w: World, s: State, l: Label)
    requires EngineOk(w, s) && Enabled(w, s, l) && IsOutsideLabel(l)
    ensures FlagsStep(s, l, Apply(w, s, l))
  {
  }

  lemma ReaderFlags(w: World, s: State, l: Label)
    requires EngineOk(w, s) && Enabled(w, s, l) && (IsReaderLabel(l) || l.HandOff?)
    ensures FlagsStep(s, l, Apply(w, s, l))
  {
    if IsReaderLabel(l) {
      ReaderLeavesEngine(w, s, l);
    }
  }

  lemma TurnFlags(w: World, s: State, ev: Event, l: Label)
    requires EngineOk(w, s) && !IsOutsideLabel(l) && s.es.outcome.None?
    ensures FlagsStep(s, l, Turn(w, s, ev))
  {
  }

  lemma SelectFlags(w: World, s: State, l: Label)
    requires EngineOk(w, s) && Enabled(w, s, l) && IsSelectLabel(l)
    ensures FlagsStep(s, l, Apply(w, s, l))
  {
    if l.SelectDone? {
      TurnFlags(w, s, ContextDone, l);
    } else if l.SelectRecordsClosed? {
      TurnFlags(w, s, RecordsClosed, l);
    } else if l.SelectErrorsClosed? {
      TurnFlags(w, s, ErrorsClosed, l);
    } else if l.SelectError? {
      TurnFlags(w, s.(errorSlot := s.errorSlot[1..]), ErrorMessage(s.errorSlot[0]), l);
    }
  }

  lemma BatchFlags(w: World, s: State, l: Label)
    requires EngineOk(w, s) && Enabled(w, s, l) && IsBatchLabel(l)
    ensures FlagsStep(s, l, Apply(w, s, l))
  {
    var p := s.engine;
    if l.PollCancelled? {
      TurnFlags(w, s, Batch(p.batch, true, NO_STAGE, NO_STAGE, []), l);
    } else if l.Attempted? {
      TurnFlags(w, s, Batch(p.batch, false, p.tr, p.mp, p.log + [l.attempt]), l);
    } else if l.DelayCut? {
      TurnFlags(w, s, Batch(p.batch, false, p.tr, p.mp, CutDelay(p.log)), l);
    } else {
      TurnFlags(w, s, Batch(p.batch, false, l.tr, l.mp, []), l);
    }
  }

  lemma Flags(w: World, s: State, l: Label)
    requires EngineOk(w, s) && Enabled(w, s, l)
    ensures FlagsStep(s, l, Apply(w, s, l))
  {
    if IsOutsideLabel(l) {
      OutsideFlags(w, s, l);
    } else if IsReaderLabel(l) || l.HandOff? {
      ReaderFlags(w, s, l);
    } else if IsSelectLabel(l) {
      SelectFlags(w, s, l);
    } else if IsBatchLabel(l) {
      BatchFlags(w, s, l);
    } else {
      WaitMovesEngineOnly(w, s, l);
    }
  }

  lemma NoResumeSnoc(ls: seq<Label>, l: Label)
    ensures NoResume(ls + [l]) <==> NoResume(ls) && !l.CallResume?
  {
    assert (ls + [l])[|ls|] == l;
    assert forall i :: 0 <= i < |ls| ==> (ls + [l])[i] == ls[i];
  }

  lemma PausedAt(ls: seq<Label>, l: Label, i: nat)
    requires i < |ls|
    ensures NoResume((ls + [l])[i + 1..]) <==> NoResume(ls[i + 1..]) && !l.CallResume?
  {
    assert (ls + [l])[i + 1..] == ls[i + 1..] + [l];
    NoResumeSnoc(ls[i + 1..], l);
  }

  lemma PausedBySnoc(ls: seq<Label>, l: Label)
    ensures PausedBy(ls + [l]) <==> l.CallPause? || (PausedBy(ls) && !l.CallResume?)
  {
    var all := ls + [l];
    if l.CallPause? {
      assert all[|ls|].CallPause? && NoResume(all[|ls| + 1..]);
    } else if PausedBy(ls) && !l.CallResume? {
      var i :| 0 <= i < |ls| && ls[i].CallPause? && NoResume(ls[i + 1..]);
      PausedAt(ls, l, i);
      assert all[i].CallPause? && NoResume(all[i + 1..]);
    }
    if PausedBy(all) && !l.CallPause? {
      var i :| 0 <= i < |all| && all[i].CallPause? && NoResume(all[i + 1..]);
      PausedAt(ls, l, i);
    }
  }

  lemma AnyStopSnoc(ls: seq<Label>, l: Label)
    ensures AnyStop(ls + [l]) <==> AnyStop(ls) || StopsRun(l)
  {
    var all := ls + [l];
    assert forall i :: 0 <= i < |ls| ==> all[i] == ls[i];
    assert all[|ls|] == l;
  }

  /** A run is paused exactly when Pause was called and Resume was not called after it; its context has
      ended exactly when it was stopped or has returned. */
  lemma {:induction false} FlagsExactly(w: World, ls: seq<Label>, s: State)
    requires Execution(w, Init(w), ls, s)
    ensures s.paused <==> PausedBy(ls)
    ensures s.cancelled <==> AnyStop(ls) || s.es.outcome.Some?
    decreases |ls|
  {
    if ls != [] {
      var n := |ls| - 1;
      var before := ExecutionSnoc(w, Init(w), ls, s);
      FlagsExactly(w, ls[..n], before);
      ReachableInv(w, before);
      Flags(w, before, ls[n]);
      PausedBySnoc(ls[..n], ls[n]);
      AnyStopSnoc(ls[..n], ls[n]);
      assert ls == ls[..n] + [ls[n]];
    }
  }

  lemma CallShows(w: World, s: State, status: Status)
    ensures OutsideCall(w, s, status).es.vars.progress.status == status
  {
  }

  /** The status shown after a call is that of the call. */
  lemma StatusFollowsCalls(w: World, s: State)
    ensures Apply(w, s, CallStop).es.vars.progress.status == Cancelled
    ensures Apply(w, s, CallPause).es.vars.progress.status == Paused
    ensures Apply(w, s, CallResume).es.vars.progress.status == Running
  {
    CallShows(w, s, Cancelled);
    CallShows(w, s, Paused);
    CallShows(w, s, Running);
  }

  /** The step that ends a run shows the status of its result. */
  lemma EndShowsStatus(w: World, s: State, l: Label)
    requires Inv(w, s) && Enabled(w, s, l) && s.es.outcome.None?
    ensures var s' := Apply(w, s, l);
      s'.es.outcome.Some? && s'.es.outcome.value.Finished? ==>
        s'.es.vars.progress.status == s'.es.outcome.value.result.status
  {
    TurnOfStep(w, s, l);
    EngineStep(w, s, l);
    var turn := TurnOf(w, s, l);
    if turn.Some? {
      FoldSnoc(w.config, Start(w.count), s.trace, turn.value);
    }
  }

  // ----- A paused run -----

  predicate AtWriter(s: State) { s.engine.Writing? || s.engine.BackingOff? }

  lemma KeptSnoc(t: seq<Event>, ev: Event)
    ensures Kept(t + [ev]) == Kept(t) + if ev.Batch? && !ev.dropped then [ev.batch] else []
  {
    assert (t + [ev])[..|t|] == t;
  }

  /** Since the call to Pause in `s0`, at most the batch that was being written has been finished. */
  ghost predicate HeldBack(s0: State, s: State) {
    && s.paused
    && if AtWriter(s) then AtWriter(s0) && s.engine.batch == s0.engine.batch && Kept(s.trace) == Kept(s0.trace)
       else Kept(s.trace) == Kept(s0.trace)
            || (AtWriter(s0) && Kept(s.trace) == Kept(s0.trace) + [s0.engine.batch])
  }

  /** Where a step can leave the engine: it is writing only if it was, or if a batch passed its stages. */
  lemma WriterStep(w: World, s: State, l: Label)
    requires Enabled(w, s, l) && !l.Stages?
    ensures var s' := Apply(w, s, l);
      AtWriter(s') ==> AtWriter(s) && s'.engine.batch == s.engine.batch && (IsOutsideLabel(l) || TurnOf(w, s, l).None?)
  {
    TurnOfStep(w, s, l);
    if IsReaderLabel(l) {
      ReaderLeavesEngine(w, s, l);
    } else if IsWaitLabel(l) || l.DelayOver? {
      WaitMovesEngineOnly(w, s, l);
    }
  }

  lemma HeldBackStep(w: World, s0: State, s: State, l: Label)
    requires EngineOk(w, s) && HeldBack(s0, s) && Enabled(w, s, l) && !l.CallResume?
    ensures !l.Stages? && HeldBack(s0, Apply(w, s, l))
  {
    var s' := Apply(w, s, l);
    Flags(w, s, l);
    WriterStep(w, s, l);
    TurnOfStep(w, s, l);
    if TurnOf(w, s, l).Some? {
      KeptSnoc(s.trace, TurnOf(w, s, l).value);
    }
  }

  lemma {:induction false} HeldBackExecution(w: World, s0: State, s: State, ls: seq<Label>, s': State)
    requires Inv(w, s) && HeldBack(s0, s) && Execution(w, s, ls, s') && NoResume(ls)
    ensures HeldBack(s0, s') && forall i :: 0 <= i < |ls| ==> !ls[i].Stages?
    decreases ls
  {
    if ls != [] {
      assert !ls[0].CallResume?;
      HeldBackStep(w, s0, s, ls[0]);
      InvStep(w, s, ls[0]);
      HeldBackExecution(w, s0, Apply(w, s, ls[0]), ls[1..], s');
      assert forall i :: 1 <= i < |ls| ==> ls[i] == ls[1..][i - 1];
    }
  }

  lemma PauseBegins(w: World, s: State)
    requires Enabled(w, s, CallPause)
    ensures HeldBack(s, Apply(w, s, CallPause))
  {
    TurnOfStep(w, s, CallPause);
    KeptSnoc(s.trace, StatusCall(Paused));
  }

  /** The rows of batches taken and neither processed nor in hand: those of a batch given up when a
      paused run was cancelled. */
  lemma TakenRows(w: World, s: State) returns (dropped: seq<Record>)
    requires Reachable(w, s)
    ensures Flatten(Taken(s.trace)) == Flatten(Kept(s.trace)) + dropped
    ensures dropped != [] ==> EndedWith(s, Cancelled)
  {
    ReachableInv(w, s);
    AtMostOneDrop(w.config, Start(w.count), s.trace);
    var n := |Kept(s.trace)|;
    dropped := Flatten(Taken(s.trace)[n..]);
    assert Taken(s.trace) == Kept(s.trace) + Taken(s.trace)[n..];
    FlattenConcat(Kept(s.trace), Taken(s.trace)[n..]);
  }

  lemma {:induction false} ExecutionConcat(w: World, s: State, a: seq<Label>, s': State, b: seq<Label>, s'': State)
    requires Execution(w, s, a, s') && Execution(w, s', b, s'')
    ensures Execution(w, s, a + b, s'')
    decreases a
  {
    if a == [] {
      assert a + b == b;
    } else {
      ExecutionConcat(w, Apply(w, s, a[0]), a[1..], s', b, s'');
      assert (a + b)[1..] == a[1..] + b;
    }
  }

  lemma StaysReachable(w: World, s: State, ls: seq<Label>, s': State)
    requires Reachable(w, s) && Execution(w, s, ls, s')
    ensures Reachable(w, s')
  {
    var before :| Execution(w, Init(w), before, s);
    ExecutionConcat(w, Init(w), before, s, ls, s');
  }

  /** From a call to Pause until Resume is called, no batch enters the stages and at most the batch that
      was at the writer is finished; all other rows are in hand, on the channel, at the reader, or
      dropped because the paused run was cancelled. */
  lemma PauseHoldsBack(w: World, s: State, ls: seq<Label>, s': State) returns (dropped: seq<Record>)
    requires Reachable(w, s) && Execution(w, Apply(w, s, CallPause), ls, s') && NoResume(ls)
    ensures forall i :: 0 <= i < |ls| ==> !ls[i].Stages?
    ensures Kept(s'.trace) == Kept(s.trace)
            || (AtWriter(s) && !AtWriter(s') && Kept(s'.trace) == Kept(s.trace) + [s.engine.batch])
    ensures s'.sent <= |w.table|
    ensures Flatten(Kept(s'.trace)) + dropped + InHand(s') + Flatten(s'.buffer) + Unsent(w, s') == w.table
    ensures dropped != [] ==> EndedWith(s', Cancelled)
  {
    var paused := Apply(w, s, CallPause);
    assert Execution(w, paused, [], paused);
    assert Execution(w, s, [CallPause], paused);
    StaysReachable(w, s, [CallPause], paused);
    ReachableInv(w, paused);
    PauseBegins(w, s);
    HeldBackExecution(w, s, paused, ls, s');
    StaysReachable(w, paused, ls, s');
    NoRowLostOrRepeated(w, s');
    dropped := TakenRows(w, s');
  }

  /** When Resume was called after the last Pause, or Pause never, and Pause is not called again, the
      steps left are bounded by the rows and batches left, the calls and half a turn of the pause loop. */
  lemma ResumedRunEnds(w: World, before: seq<Label>, s: State, ls: seq<Label>, s': State)
    requires Execution(w, Init(w), before, s) && !PausedBy(before)
    requires Execution(w, s, ls, s') && NoPause(ls)
    ensures |ls| <= Measure(w, s) + OutsideSteps(ls) + HalfTurn(s)
    ensures Measure(w, s) <= (2 * MaxAttempts(w.config) + 6) * |w.table| + 10
  {
    FlagsExactly(w, before, s);
    UnpausedRunsEnd(w, s, ls, s');
  }

  // ----- A stopped run -----

  predicate NoneWrote(log: seq<Attempt>) { forall i :: 0 <= i < |log| ==> !log[i].Wrote? }

  /** The batch at the writer has not been written yet. */
  predicate LogOk(s: State) { AtWriter(s) ==> NoneWrote(s.engine.log) }

  lemma AttemptLog(w: World, s: State, a: Attempt)
    requires LogOk(s) && s.engine.Writing?
    ensures LogOk(AfterAttempt(w, s, a))
  {
  }

  lemma LogStep(w: World, s: State, l: Label)
    requires LogOk(s) && Enabled(w, s, l)
    ensures LogOk(Apply(w, s, l))
  {
    if IsReaderLabel(l) {
      ReaderLeavesEngine(w, s, l);
    } else if IsWaitLabel(l) || l.DelayOver? {
      WaitMovesEngineOnly(w, s, l);
    } else if l.Attempted? {
      AttemptLog(w, s, l.attempt);
    }
  }

  lemma {:induction false} LogExecution(w: World, s: State, ls: seq<Label>, s': State)
    requires LogOk(s) && Execution(w, s, ls, s')
    ensures LogOk(s')
    decreases ls
  {
    if ls != [] {
      LogStep(w, s, ls[0]);
      LogExecution(w, Apply(w, s, ls[0]), ls[1..], s');
    }
  }

  lemma {:induction false} NothingAccepted(max: nat, log: seq<Attempt>, i: nat)
    requires NoneWrote(log)
    ensures RetryOutcome(max, log, i).None?
    decreases max - i
  {
    if i < max {
      NothingAccepted(max, log, i + 1);
    }
  }

  /** A turn that accepts no write leaves the written total alone. */
  lemma TurnWritesNothing(c: Config, es: EngineState, ev: Event)
    requires ev.Batch? && !ev.dropped ==> NoneWrote(ev.log)
    ensures Deliver(c, es, ev).vars.totals.write == es.vars.totals.write
  {
    if ev.Batch? && !ev.dropped {
      NothingAccepted(MaxAttempts(c), ev.log, 0);
      if es.outcome.None? {
        KeptBatchTurn(c, es, ev);
      }
    } else {
      OtherEventsLeaveCounters(c, es, ev);
    }
  }

  /** On a run whose context has ended no turn carries a write that succeeded. */
  lemma StoppedTurn(w: World, s: State, l: Label)
    requires Enabled(w, s, l) && s.cancelled && LogOk(s)
    ensures var turn := TurnOf(w, s, l);
      turn.Some? && turn.value.Batch? && !turn.value.dropped ==> NoneWrote(turn.value.log)
  {
  }

  lemma StoppedStep(w: World, s: State, l: Label)
    requires Inv(w, s) && Enabled(w, s, l) && s.cancelled && LogOk(s)
    ensures Apply(w, s, l).cancelled && Apply(w, s, l).es.vars.totals.write == s.es.vars.totals.write
  {
    Flags(w, s, l);
    StoppedTurn(w, s, l);
    TurnOfStep(w, s, l);
    EngineStep(w, s, l);
    var turn := TurnOf(w, s, l);
    if turn.Some? {
      TurnWritesNothing(w.config, s.es, turn.value);
      FoldSnoc(w.config, Start(w.count), s.trace, turn.value);
    }
  }

  lemma {:induction false} StoppedExecution(w: World, s: State, ls: seq<Label>, s': State)
    requires Inv(w, s) && Execution(w, s, ls, s') && s.cancelled && LogOk(s)
    ensures s'.es.vars.totals.write == s.es.vars.totals.write
    decreases ls
  {
    if ls != [] {
      StoppedStep(w, s, ls[0]);
      InvStep(w, s, ls[0]);
      LogStep(w, s, ls[0]);
      StoppedExecution(w, Apply(w, s, ls[0]), ls[1..], s');
    }
  }

  /** Once Stop was called, or the caller's context has ended, no further record counts as written. */
  lemma StoppedRunWritesNothing(w: World, before: seq<Label>, s: State, ls: seq<Label>, s': State)
    requires Execution(w, Init(w), before, s) && AnyStop(before) && Execution(w, s, ls, s')
    ensures s'.es.vars.totals.write == s.es.vars.totals.write
  {
    FlagsExactly(w, before, s);
    ReachableInv(w, s);
    LogExecution(w, Init(w), before, s);
    StoppedExecution(w, s, ls, s');
  }
}
