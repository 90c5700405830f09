/** What the counters of a run mean: conservation of records, the statistics, the preview, the
    progress record and the saved checkpoints, over every sequence of messages. */
module EngineAccounting {
  import opened Wrappers
  import opened Arithmetic
  import opened Records
  import opened Sequences
  import opened Engine

  /** Channel messages are only selected while the loop is running. */
  ghost predicate InOrder(c: Config, es: EngineState, t: seq<Event>) {
    t == [] || (InOrder(c, es, t[..|t| - 1])
                && (t[|t| - 1].StatusCall? || Fold(c, es, t[..|t| - 1]).outcome.None?))
  }

  /** The batches taken from the record channel and not dropped. */
  function Kept(t: seq<Event>): seq<seq<Record>> {
    if t == [] then []
    else if t[|t| - 1].Batch? && !t[|t| - 1].dropped then Kept(t[..|t| - 1]) + [t[|t| - 1].batch]
    else Kept(t[..|t| - 1])
  }

  // ----- Conservation -----

  /** A stage accounts for its batch: on success every record comes out or is listed as failed,
      and together with an error it lists none. */
  predicate StageContract(batch: seq<Record>, r: StageResult) {
    if r.err then r.failed == [] else |r.out| + |r.failed| == |batch|
  }

  predicate WriteContract(mapped: seq<Record>, r: WriteResult) {
    r.success >= 0 && r.failed >= 0 && r.skipped >= 0 && r.success + r.failed + r.skipped == |mapped|
  }

  predicate Honest(c: Config, ev: Event) {
    ev.Batch? && !ev.dropped ==>
      && StageContract(ev.batch, ev.tr)
      && StageContract(StageOutput(ev.batch, ev.tr), ev.mp)
      && (!c.previewMode && RetryOutcome(MaxAttempts(c), ev.log, 0).Some? ==>
            WriteContract(Mapped(ev.batch, ev.tr, ev.mp), RetryOutcome(MaxAttempts(c), ev.log, 0).value))
  }

  function TransformLeak(ev: Event): int {
    if ev.Batch? && !ev.dropped then |ev.batch| - |StageOutput(ev.batch, ev.tr)| - |ev.tr.failed| else 0
  }

  function MapLeak(ev: Event): int {
    if ev.Batch? && !ev.dropped
    then |StageOutput(ev.batch, ev.tr)| - |Mapped(ev.batch, ev.tr, ev.mp)| - |ev.mp.failed| else 0
  }

  function WriteLeak(c: Config, ev: Event): int {
    if ev.Batch? && !ev.dropped && !c.previewMode then
      match RetryOutcome(MaxAttempts(c), ev.log, 0)
      case None => 0
      case Some(r) => |Mapped(ev.batch, ev.tr, ev.mp)| - r.success - r.failed - r.skipped
    else 0
  }

  /** The records a sequence of messages loses track of, stage by stage. */
  datatype Leaks = Leaks(transform: int, map_: int, write: int) {
    function Total(): int { transform + map_ + write }
  }

  function LeaksOf(c: Config, t: seq<Event>): Leaks {
    if t == [] then Leaks(0, 0, 0)
    else
      var l := LeaksOf(c, t[..|t| - 1]);
      var ev := t[|t| - 1];
      Leaks(l.transform + TransformLeak(ev), l.map_ + MapLeak(ev), l.write + WriteLeak(c, ev))
  }

  ghost predicate AllHonest(c: Config, t: seq<Event>) {
    forall i :: 0 <= i < |t| ==> Honest(c, t[i])
  }

  lemma {:induction false} HonestRunsLeakNothing(c: Config, t: seq<Event>)
    requires AllHonest(c, t)
    ensures LeaksOf(c, t) == Leaks(0, 0, 0)
  {
    if t != [] {
      HonestRunsLeakNothing(c, t[..|t| - 1]);
      assert Honest(c, t[|t| - 1]);
    }
  }

  /** Each record read is counted exactly once as written, failed or skipped, up to what leaked,
      and the statistics agree with the counters; `s0` are the statistics the run started from. */
  predicate Balanced(c: Config, v: Vars, s0: Stats, rows: nat, l: Leaks) {
    && v.totals.read == rows
    && v.totals.read == v.totals.write + v.totals.failed + v.totals.skipped + l.Total()
    && v.stats.readOk - s0.readOk == v.totals.read
    && v.stats.readOk - s0.readOk
         == v.stats.transformOk - s0.transformOk + v.stats.transformFailed - s0.transformFailed + l.transform
    && v.stats.transformOk - s0.transformOk
         == v.stats.mappingOk - s0.mappingOk + v.stats.mappingFailed - s0.mappingFailed + l.map_
    && v.stats.transformFailed - s0.transformFailed + v.stats.mappingFailed - s0.mappingFailed
         + v.stats.writeFailed - s0.writeFailed == v.totals.failed
    && v.stats.writeOk - s0.writeOk == v.totals.write
    && v.stats.skippedTotal - s0.skippedTotal == (if c.previewMode then v.totals.skipped else 0)
  }

  /** The same between the map stage and the write, with `pending` records in hand. */
  predicate InFlight(c: Config, v: Vars, s0: Stats, rows: nat, l: Leaks, pending: nat) {
    Balanced(c, v.(totals := v.totals.(skipped := v.totals.skipped + pending),
                   stats := v.stats.(skippedTotal := v.stats.skippedTotal + if c.previewMode then pending else 0)),
             s0, rows, l)
  }

  lemma StagesAccount(c: Config, v: Vars, s0: Stats, rows: nat, l: Leaks, ev: Event)
    requires Balanced(c, v, s0, rows, l) && ev.Batch? && !ev.dropped
    ensures InFlight(c, RunStages(c, v, ev.batch, ev.tr, ev.mp), s0, rows + |ev.batch|,
                     l.(transform := l.transform + TransformLeak(ev), map_ := l.map_ + MapLeak(ev)),
                     |Mapped(ev.batch, ev.tr, ev.mp)|)
  {
  }

  lemma WriteAccounts(c: Config, v: Vars, s0: Stats, rows: nat, l: Leaks, ev: Event)
    requires ev.Batch? && !ev.dropped
    requires InFlight(c, v, s0, rows, l, |Mapped(ev.batch, ev.tr, ev.mp)|)
    ensures Balanced(c, RunWrite(c, v, Mapped(ev.batch, ev.tr, ev.mp), ev.log), s0, rows,
                     l.(write := l.write + WriteLeak(c, ev)))
  {
  }

  lemma BatchAccounts(c: Config, v: Vars, s0: Stats, rows: nat, l: Leaks, ev: Event)
    requires Balanced(c, v, s0, rows, l) && ev.Batch? && !ev.dropped
    ensures Balanced(c, HandleBatch(c, v, ev), s0, rows + |ev.batch|,
                     Leaks(l.transform + TransformLeak(ev), l.map_ + MapLeak(ev), l.write + WriteLeak(c, ev)))
  {
    StagesAccount(c, v, s0, rows, l, ev);
    var l' := l.(transform := l.transform + TransformLeak(ev), map_ := l.map_ + MapLeak(ev));
    WriteAccounts(c, RunStages(c, v, ev.batch, ev.tr, ev.mp), s0, rows + |ev.batch|, l', ev);
  }

  /** What a turn does to the variables when the message is not a kept batch. */
  lemma OtherEventsLeaveCounters(c: Config, es: EngineState, ev: Event)
    requires !ev.Batch? || ev.dropped
    ensures var v, v' := es.vars, Deliver(c, es, ev).vars;
      v' == v.(progress := v'.progress) && v'.progress == v.progress.(status := v'.progress.status)
  {
  }

  lemma KeptBatchTurn(c: Config, es: EngineState, ev: Event)
    requires ev.Batch? && !ev.dropped && es.outcome.None?
    ensures var v, v' := HandleBatch(c, es.vars, ev), Deliver(c, es, ev).vars;
      v'.totals == v.totals && v'.stats == v.stats && v'.preview == v.preview
      && v'.progress == v.progress.(status := v'.progress.status)
  {
  }

  /** Every counter of a run, for every sequence of messages. */
  lemma {:induction false} Conservation(c: Config, es: EngineState, t: seq<Event>)
    requires es.vars.totals == NO_TOTALS && InOrder(c, es, t)
    ensures Balanced(c, Fold(c, es, t).vars, es.vars.stats, |Flatten(Kept(t))|, LeaksOf(c, t))
  {
    if t != [] {
      var init, ev := t[..|t| - 1], t[|t| - 1];
      Conservation(c, es, init);
      var es' := Fold(c, es, init);
      if ev.Batch? && !ev.dropped {
        FlattenSnoc(Kept(init), ev.batch);
        BatchAccounts(c, es'.vars, es.vars.stats, |Flatten(Kept(init))|, LeaksOf(c, init), ev);
        KeptBatchTurn(c, es', ev);
      } else {
        OtherEventsLeaveCounters(c, es', ev);
      }
    }
  }

  /** Conservation of a run's counters and of its statistics. */
  predicate Conserved(v: Vars) {
    && v.totals.read == v.totals.write + v.totals.failed + v.totals.skipped
    && v.stats.readOk == v.stats.transformOk + v.stats.transformFailed
    && v.stats.transformOk == v.stats.mappingOk + v.stats.mappingFailed
    && v.stats.transformFailed + v.stats.mappingFailed + v.stats.writeFailed == v.totals.failed
  }

  lemma BalancedIsConserved(c: Config, v: Vars, rows: nat, l: Leaks)
    requires Balanced(c, v, NO_STATS, rows, l)
    ensures Conserved(v) <==> l == Leaks(0, 0, 0)
  {
  }

  /** Conservation holds at a loop boundary exactly when the leaks of each stage add up to zero, as
      those of honest stages and an honest writer do. */
  lemma ConservedExactly(c: Config, es: EngineState, t: seq<Event>, v: Vars)
    requires es.vars.totals == NO_TOTALS && es.vars.stats == NO_STATS && InOrder(c, es, t)
    requires v == Fold(c, es, t).vars
    ensures Conserved(v) <==> LeaksOf(c, t) == Leaks(0, 0, 0)
    ensures AllHonest(c, t) ==> Conserved(v)
  {
    assert Balanced(c, v, NO_STATS, |Flatten(Kept(t))|, LeaksOf(c, t)) by {
      Conservation(c, es, t);
    }
    BalancedIsConserved(c, v, |Flatten(Kept(t))|, LeaksOf(c, t));
    if AllHonest(c, t) {
      HonestRunsLeakNothing(c, t);
    }
  }

  // ----- Preview -----

  function Max(a: int, b: int): int { if a < b then b else a }

  /** The first `limit` rows. */
  function FirstRows(c: Config, rows: seq<Record>): seq<Record> {
    if c.previewMode then rows[..Min(Max(c.previewLimit, 0), |rows|)] else []
  }

  lemma PreviewGrows(c: Config, rows: seq<Record>, batch: seq<Record>)
    ensures AddPreview(c, FirstRows(c, rows), batch) == FirstRows(c, rows + batch)
  {
    if c.previewMode && |FirstRows(c, rows)| >= c.previewLimit {
      assert (rows + batch)[..|FirstRows(c, rows)|] == FirstRows(c, rows);
    }
  }

  /** The preview is the longest prefix of the records read that the limit allows. */
  lemma {:induction false} PreviewIsPrefix(c: Config, es: EngineState, t: seq<Event>)
    requires es.vars.preview == [] && InOrder(c, es, t)
    ensures Fold(c, es, t).vars.preview == FirstRows(c, Flatten(Kept(t)))
  {
    if t != [] {
      var init, ev := t[..|t| - 1], t[|t| - 1];
      PreviewIsPrefix(c, es, init);
      if ev.Batch? && !ev.dropped {
        FlattenSnoc(Kept(init), ev.batch);
        PreviewGrows(c, Flatten(Kept(init)), ev.batch);
      }
    }
  }

  // ----- Results -----

  /** The batches taken from the record channel, dropped or not. */
  function Taken(t: seq<Event>): seq<seq<Record>> {
    if t == [] then []
    else if t[|t| - 1].Batch? then Taken(t[..|t| - 1]) + [t[|t| - 1].batch]
    else Taken(t[..|t| - 1])
  }

  /** `Run` answers Completed only after both channels were seen to be finished. */
  lemma {:induction false} CompletedMeansDrained(c: Config, es: EngineState, t: seq<Event>)
    requires es.outcome.None? && InOrder(c, es, t)
    requires es.recordsOpen || es.errorsOpen
    ensures var f := Fold(c, es, t);
      && (f.outcome.None? ==> f.recordsOpen || f.errorsOpen)
      && (f.outcome.Some? && f.outcome.value.Finished? && f.outcome.value.result.status == Completed ==>
            !f.recordsOpen && !f.errorsOpen && Kept(t) == Taken(t))
      && (f.outcome.None? ==> Kept(t) == Taken(t))
      // a failed run returns before its totals are copied; any other result carries them
      && (f.outcome.Some? && f.outcome.value.ReturnedError? ==>
            f.outcome.value.result == SyncResult(Failed, NO_TOTALS, f.vars.preview))
      && (f.outcome.Some? && f.outcome.value.Finished? ==>
            f.outcome.value.result.totals == f.vars.totals && f.outcome.value.result.preview == f.vars.preview
            && f.outcome.value.result.status in {Completed, Cancelled})
  {
    if t != [] {
      CompletedMeansDrained(c, es, t[..|t| - 1]);
    }
  }

  // ----- Progress -----

  lemma HonestBatchAdds(c: Config, v: Vars, ev: Event)
    requires ev.Batch? && !ev.dropped && Honest(c, ev)
    ensures var n, n' := v.totals, HandleBatch(c, v, ev).totals;
      n.write <= n'.write <= n.write + |ev.batch| && n.failed <= n'.failed && n.skipped <= n'.skipped
  {
  }

  /** The progress record restates the counters, and its percentage is what they make it. */
  predicate ProgressShows(v: Vars) {
    var p, n := v.progress, v.totals;
    && p.synced == n.write && p.failed == n.failed && p.skipped == n.skipped
    && 0 <= n.write && 0 <= n.failed && 0 <= n.skipped
    && p.percent == if p.total > 0 then (n.write + n.failed) as real / p.total as real * 100.0 else 0.0
  }

  lemma BatchProgress(c: Config, v: Vars, ev: Event)
    requires ev.Batch? && !ev.dropped
    ensures var v' := HandleBatch(c, v, ev);
      v'.progress == UpdateProgress(v.(totals := v'.totals)).progress
  {
  }

  lemma {:induction false} ProgressFollows(c: Config, count: Option<int>, t: seq<Event>)
    requires InOrder(c, Start(count), t) && AllHonest(c, t)
    ensures ProgressShows(Fold(c, Start(count), t).vars)
    ensures Fold(c, Start(count), t).vars.progress.total == if count.Some? then count.value else 0
  {
    if t != [] {
      var init, ev := t[..|t| - 1], t[|t| - 1];
      ProgressFollows(c, count, init);
      var es := Fold(c, Start(count), init);
      if ev.Batch? && !ev.dropped {
        HonestBatchAdds(c, es.vars, ev);
        KeptBatchTurn(c, es, ev);
        BatchProgress(c, es.vars, ev);
      } else {
        OtherEventsLeaveCounters(c, es, ev);
      }
    }
  }

  lemma PercentMonotone(a: int, b: int, total: int)
    requires a <= b && total > 0
    ensures a as real / total as real * 100.0 <= b as real / total as real * 100.0
  {
    assert a as real / total as real <= b as real / total as real;
  }

  lemma PercentBounds(a: int, total: int)
    requires 0 <= a <= total && total > 0
    ensures 0.0 <= a as real / total as real * 100.0 <= 100.0
  {
    assert 0.0 <= a as real / total as real <= 1.0;
  }

  lemma CountsCovered(c: Config, total: int, t: seq<Event>, v: Vars)
    requires InOrder(c, Start(Some(total)), t) && AllHonest(c, t) && |Flatten(Kept(t))| <= total
    requires v == Fold(c, Start(Some(total)), t).vars
    ensures v.totals.write + v.totals.failed + v.totals.skipped <= total
  {
    ConservedExactly(c, Start(Some(total)), t, v);
    Conservation(c, Start(Some(total)), t);
  }

  /** With a total that covers the rows read, the three counts never exceed it and the percentage
      stays between 0 and 100. */
  lemma ProgressBounded(c: Config, total: int, t: seq<Event>, p: Progress)
    requires InOrder(c, Start(Some(total)), t) && AllHonest(c, t) && |Flatten(Kept(t))| <= total
    requires p == Fold(c, Start(Some(total)), t).vars.progress
    ensures p.synced + p.failed + p.skipped <= p.total == total
    ensures 0.0 <= p.percent <= 100.0
  {
    var v := Fold(c, Start(Some(total)), t).vars;
    ProgressFollows(c, Some(total), t);
    CountsCovered(c, total, t, v);
    if total > 0 {
      PercentBounds(v.totals.write + v.totals.failed, total);
    }
  }

  /** No message makes the percentage fall. */
  lemma PercentNeverFalls(c: Config, count: Option<int>, t: seq<Event>, ev: Event)
    requires InOrder(c, Start(count), t + [ev]) && AllHonest(c, t + [ev])
    ensures Fold(c, Start(count), t).vars.progress.percent <= Fold(c, Start(count), t + [ev]).vars.progress.percent
  {
    assert (t + [ev])[..|t|] == t;
    forall i | 0 <= i < |t| ensures Honest(c, t[i]) {
      assert t[i] == (t + [ev])[i];
    }
    var es := Fold(c, Start(count), t);
    ProgressFollows(c, count, t);
    FoldSnoc(c, Start(count), t, ev);
    if ev.Batch? && !ev.dropped {
      assert Honest(c, (t + [ev])[|t|]);
      HonestBatchAdds(c, es.vars, ev);
      KeptBatchTurn(c, es, ev);
      BatchProgress(c, es.vars, ev);
      var n, n' := es.vars.totals, HandleBatch(c, es.vars, ev).totals;
      if es.vars.progress.total > 0 {
        PercentMonotone(n.write + n.failed, n'.write + n'.failed, es.vars.progress.total);
      }
    } else {
      OtherEventsLeaveCounters(c, es, ev);
    }
  }

  // ----- Checkpoints -----

  /** Every saved batch number is the number of whole batches written by then; the numbers never
      fall and never exceed the number of batches handled. */
  ghost predicate SavedOk(c: Config, saved: seq<Saved>)
    requires c.batchSize > 0
  {
    forall i :: 0 <= i < |saved| ==>
      && saved[i].tableName == c.tableName
      && saved[i].batchNum * c.batchSize <= saved[i].progress.synced < (saved[i].batchNum + 1) * c.batchSize
      && 0 <= saved[i].batchNum <= i + 1
      && forall j :: 0 <= j < i ==> saved[j].batchNum <= saved[i].batchNum
  }

  lemma QuotientFacts(w: int, b: int, n: nat)
    requires 0 <= w <= n * b && b > 0
    ensures (w / b) * b <= w < (w / b + 1) * b && 0 <= w / b <= n
  {
    QuotientBounds(w, b);
    assert (n + 1) * b == n * b + b;
    CancelFactor(w / b, n + 1, b);
  }

  lemma QuotientMonotone(w: int, w': int, b: int, n: nat)
    requires 0 <= w <= w' <= n * b && b > 0
    ensures w / b <= w' / b
  {
    QuotientFacts(w, b, n);
    QuotientFacts(w', b, n);
    CancelFactor(w / b, w' / b + 1, b);
  }

  lemma SavedAppend(c: Config, saved: seq<Saved>, next: Saved)
    requires c.batchSize > 0 && SavedOk(c, saved) && next.tableName == c.tableName
    requires next.batchNum * c.batchSize <= next.progress.synced < (next.batchNum + 1) * c.batchSize
    requires 0 <= next.batchNum <= |saved| + 1
    requires saved != [] ==> saved[|saved| - 1].batchNum <= next.batchNum
    ensures SavedOk(c, saved + [next])
  {
  }

  lemma QuotientStep(w0: int, w: int, b: int, n: nat)
    requires b > 0 && 0 <= w0 <= n * b && w0 <= w <= w0 + b
    ensures w <= (n + 1) * b
    ensures (w / b) * b <= w < (w / b + 1) * b && 0 <= w / b <= n + 1 && w0 / b <= w / b
  {
    assert (n + 1) * b == n * b + b;
    QuotientFacts(w, b, n + 1);
    QuotientMonotone(w0, w, b, n + 1);
  }

  /** After n batches: one saved checkpoint for each, the last one for the records written so far. */
  ghost predicate CheckpointsOk(c: Config, v: Vars, n: nat)
    requires c.batchSize > 0
  {
    && SavedOk(c, v.saved) && |v.saved| == n && 0 <= v.totals.write <= n * c.batchSize
    && (v.saved != [] ==> v.saved[|v.saved| - 1].batchNum == v.totals.write / c.batchSize)
  }

  lemma CheckpointStep(c: Config, v: Vars, v': Vars, n: nat)
    requires c.batchSize > 0 && SavesCheckpoint(c) && CheckpointsOk(c, v, n)
    requires v'.saved == v.saved && v'.progress.synced == v'.totals.write
    requires v.totals.write <= v'.totals.write <= v.totals.write + c.batchSize
    ensures WithCheckpoint(c, v').Some? && CheckpointsOk(c, WithCheckpoint(c, v').value, n + 1)
  {
    var next := Saved(c.tableName, v'.totals.write / c.batchSize, v'.progress);
    assert SavedOk(c, v.saved + [next]) && v'.totals.write <= (n + 1) * c.batchSize by {
      QuotientStep(v.totals.write, v'.totals.write, c.batchSize, n);
      SavedAppend(c, v.saved, next);
    }
    assert WithCheckpoint(c, v') == Some(v'.(saved := v.saved + [next]));
  }

  lemma CheckpointTurn(c: Config, es: EngineState, ev: Event, n: nat)
    requires c.batchSize > 0 && SavesCheckpoint(c) && CheckpointsOk(c, es.vars, n) && es.outcome.None?
    requires ev.Batch? && !ev.dropped && Honest(c, ev) && |ev.batch| <= c.batchSize
    ensures CheckpointsOk(c, Deliver(c, es, ev).vars, n + 1)
  {
    HonestBatchAdds(c, es.vars, ev);
    BatchProgress(c, es.vars, ev);
    var v' := HandleBatch(c, es.vars, ev);
    CheckpointStep(c, es.vars, v', n);
    assert Deliver(c, es, ev).vars.saved == WithCheckpoint(c, v').value.saved;
    assert Deliver(c, es, ev).vars.totals == v'.totals;
  }

  lemma {:induction false} CheckpointsTrackWrites(c: Config, count: Option<int>, t: seq<Event>)
    requires c.batchSize > 0 && SavesCheckpoint(c) && InOrder(c, Start(count), t) && AllHonest(c, t)
    requires forall i :: 0 <= i < |t| && t[i].Batch? ==> |t[i].batch| <= c.batchSize
    ensures CheckpointsOk(c, Fold(c, Start(count), t).vars, |Kept(t)|)
  {
    if t != [] {
      var init, ev := t[..|t| - 1], t[|t| - 1];
      CheckpointsTrackWrites(c, count, init);
      var es := Fold(c, Start(count), init);
      if ev.Batch? && !ev.dropped {
        CheckpointTurn(c, es, ev, |Kept(init)|);
      } else {
        OtherEventsLeaveCounters(c, es, ev);
      }
    }
  }

  /** The Euclidean quotient of a number that is not negative. */
  lemma QuotientFrom(a: nat, b: int, q: int)
    requires b != 0 && q == a / b
    ensures b > 0 ==> q >= 0 && q * b <= a < q * b + b
    ensures b < 0 ==> q <= 0 && q * b <= a < q * b - b
  {
    assert a == q * b + a % b;
    if b > 0 {
      QuotientBounds(a, b);
    }
  }

  lemma Negated(q: int, b: int)
    ensures (-q) * b == -(q * b)
  {
  }

  /** Go's division truncates toward zero, whatever the signs. */
  lemma TruncatesTowardZero(a: int, b: int, q: int)
    requires b != 0 && q == TruncDiv(a, b)
    ensures a >= 0 && b > 0 ==> q >= 0 && q * b <= a < q * b + b
    ensures a >= 0 && b < 0 ==> q <= 0 && q * b <= a < q * b - b
    ensures a < 0 && b > 0 ==> q <= 0 && q * b - b < a <= q * b
    ensures a < 0 && b < 0 ==> q >= 0 && q * b + b < a <= q * b
  {
    if a >= 0 {
      QuotientFrom(a, b, q);
    } else {
      QuotientFrom(-a, b, -q);
      Negated(q, b);
    }
  }

  lemma PanicTurn(c: Config, es: EngineState, ev: Event)
    requires ev.StatusCall? || es.outcome.None?
    ensures Deliver(c, es, ev).outcome == Some(Panicked)
       <==> es.outcome == Some(Panicked) || (ev.Batch? && !ev.dropped && SavesCheckpoint(c) && c.batchSize == 0)
  {
  }

  /** A run panics exactly when it handles a batch with checkpoints on, a table named and a batch size
      of 0; the first such batch ends it. */
  lemma {:induction false} PanicsExactly(c: Config, es: EngineState, t: seq<Event>)
    requires es.outcome.None? && InOrder(c, es, t)
    ensures Fold(c, es, t).outcome == Some(Panicked) <==> SavesCheckpoint(c) && c.batchSize == 0 && Kept(t) != []
    ensures Fold(c, es, t).outcome == Some(Panicked) ==> |Kept(t)| == 1
  {
    if t != [] {
      PanicsExactly(c, es, t[..|t| - 1]);
      PanicTurn(c, Fold(c, es, t[..|t| - 1]), t[|t| - 1]);
    }
  }
}
