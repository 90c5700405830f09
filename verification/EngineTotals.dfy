/** What each counter of a run counts: every total and every statistic is a sum, over the batches
    handled, of what the stages and the writer answered to them. */
module EngineTotals {
  import opened Wrappers
  import opened Records
  import opened Engine
  import opened EngineAccounting
  import opened Protocol
  import opened ProtocolSafety

  // ----- Which write was accepted -----

  /** Attempt i is made and succeeds with `r`; every attempt before it failed and was waited out. */
  ghost predicate AcceptedAt(c: Config, log: seq<Attempt>, i: nat, r: WriteResult) {
    && i < |log| && (i == 0 || i < c.retryMaxAttempts) && log[i] == Wrote(r)
    && forall j :: 0 <= j < i ==> log[j] == Errored(false)
  }

  lemma {:induction false} AcceptedFrom(c: Config, log: seq<Attempt>, i: nat, r: WriteResult)
    requires forall j :: 0 <= j < i && j < |log| ==> log[j] == Errored(false)
    requires i <= |log| && i <= MaxAttempts(c)
    ensures RetryOutcome(MaxAttempts(c), log, i) == Some(r) <==> exists k :: i <= k && AcceptedAt(c, log, k, r)
    decreases MaxAttempts(c) - i
  {
    if i < MaxAttempts(c) && i < |log| {
      if log[i] == Errored(false) {
        AcceptedFrom(c, log, i + 1, r);
      }
      if log[i] == Wrote(r) {
        assert AcceptedAt(c, log, i, r);
      }
    }
  }

  /** The outcome of the retries is the result of the attempt that was accepted. */
  lemma AcceptedExactly(c: Config, log: seq<Attempt>, r: WriteResult)
    ensures RetryOutcome(MaxAttempts(c), log, 0) == Some(r) <==> exists i :: AcceptedAt(c, log, i, r)
  {
    AcceptedFrom(c, log, 0, r);
  }

  // ----- Sums over the batches handled -----

  /** The batches handled, with what the stages and the writer answered. */
  function KeptEvents(t: seq<Event>): (es: seq<Event>)
    ensures |es| == |Kept(t)|
    ensures forall i :: 0 <= i < |es| ==> es[i].Batch? && !es[i].dropped && es[i].batch == Kept(t)[i]
  {
    if t == [] then []
    else
      var ev := t[|t| - 1];
      KeptEvents(t[..|t| - 1]) + if ev.Batch? && !ev.dropped then [ev] else []
  }

  function Sum(f: Event -> int, es: seq<Event>): int {
    if es == [] then 0 else Sum(f, es[..|es| - 1]) + f(es[|es| - 1])
  }

  /** What the writer answered to a batch, if an attempt was accepted; in preview mode it is not called. */
  function Answer(c: Config, ev: Event): Option<WriteResult> {
    if ev.Batch? && !c.previewMode then RetryOutcome(MaxAttempts(c), ev.log, 0) else None
  }

  /** The records of a batch that reach the writer. */
  function Handed(ev: Event): int { if ev.Batch? then |Mapped(ev.batch, ev.tr, ev.mp)| else 0 }

  function Rows(): Event -> int { (ev: Event) => if ev.Batch? then |ev.batch| else 0 }

  function Transformed(): Event -> int { (ev: Event) => if ev.Batch? then |StageOutput(ev.batch, ev.tr)| else 0 }

  function NotTransformed(): Event -> int { (ev: Event) => if ev.Batch? then |ev.tr.failed| else 0 }

  function MappedRows(): Event -> int { (ev: Event) => Handed(ev) }

  function NotMapped(): Event -> int { (ev: Event) => if ev.Batch? then |ev.mp.failed| else 0 }

  /** The success counts of the accepted writes. */
  function Accepted(c: Config): Event -> int {
    (ev: Event) => if Answer(c, ev).Some? then Answer(c, ev).value.success else 0
  }

  /** The failed counts of the accepted writes, and the whole of a batch that was never accepted. */
  function Refused(c: Config): Event -> int {
    (ev: Event) => if c.previewMode then 0 else if Answer(c, ev).Some? then Answer(c, ev).value.failed else Handed(ev)
  }

  /** The skipped counts of the accepted writes, and in preview mode the whole batch. */
  function Skipped(c: Config): Event -> int {
    (ev: Event) => if c.previewMode then Handed(ev) else if Answer(c, ev).Some? then Answer(c, ev).value.skipped else 0
  }

  function Previewed(c: Config): Event -> int { (ev: Event) => if c.previewMode then Handed(ev) else 0 }

  /** Every counter is the sum of what it counts; `s0` are the statistics the run started from. */
  ghost predicate CountersAre(c: Config, v: Vars, s0: Stats, k: seq<Event>) {
    && v.totals.read == Sum(Rows(), k)
    && v.totals.write == Sum(Accepted(c), k)
    && v.totals.failed == Sum(NotTransformed(), k) + Sum(NotMapped(), k) + Sum(Refused(c), k)
    && v.totals.skipped == Sum(Skipped(c), k)
    && v.stats.readOk == s0.readOk + Sum(Rows(), k)
    && v.stats.transformOk == s0.transformOk + Sum(Transformed(), k)
    && v.stats.transformFailed == s0.transformFailed + Sum(NotTransformed(), k)
    && v.stats.mappingOk == s0.mappingOk + Sum(MappedRows(), k)
    && v.stats.mappingFailed == s0.mappingFailed + Sum(NotMapped(), k)
    && v.stats.writeOk == s0.writeOk + Sum(Accepted(c), k)
    && v.stats.writeFailed == s0.writeFailed + Sum(Refused(c), k)
    && v.stats.skippedTotal == s0.skippedTotal + Sum(Previewed(c), k)
  }

  lemma SumSnoc(f: Event -> int, k: seq<Event>, ev: Event)
    ensures Sum(f, k + [ev]) == Sum(f, k) + f(ev)
  {
    assert (k + [ev])[..|k|] == k;
  }

  lemma SumsSnoc(c: Config, k: seq<Event>, ev: Event)
    requires ev.Batch?
    ensures Sum(Rows(), k + [ev]) == Sum(Rows(), k) + |ev.batch|
    ensures Sum(Transformed(), k + [ev]) == Sum(Transformed(), k) + |StageOutput(ev.batch, ev.tr)|
    ensures Sum(NotTransformed(), k + [ev]) == Sum(NotTransformed(), k) + |ev.tr.failed|
    ensures Sum(MappedRows(), k + [ev]) == Sum(MappedRows(), k) + Handed(ev)
    ensures Sum(NotMapped(), k + [ev]) == Sum(NotMapped(), k) + |ev.mp.failed|
    ensures Sum(Accepted(c), k + [ev]) == Sum(Accepted(c), k) + Accepted(c)(ev)
    ensures Sum(Refused(c), k + [ev]) == Sum(Refused(c), k) + Refused(c)(ev)
    ensures Sum(Skipped(c), k + [ev]) == Sum(Skipped(c), k) + Skipped(c)(ev)
    ensures Sum(Previewed(c), k + [ev]) == Sum(Previewed(c), k) + Previewed(c)(ev)
  {
    SumSnoc(Rows(), k, ev);
    SumSnoc(Transformed(), k, ev);
    SumSnoc(NotTransformed(), k, ev);
    SumSnoc(MappedRows(), k, ev);
    SumSnoc(NotMapped(), k, ev);
    SumSnoc(Accepted(c), k, ev);
    SumSnoc(Refused(c), k, ev);
    SumSnoc(Skipped(c), k, ev);
    SumSnoc(Previewed(c), k, ev);
  }

  lemma BatchCounts(c: Config, v: Vars, s0: Stats, k: seq<Event>, ev: Event)
    requires CountersAre(c, v, s0, k) && ev.Batch? && !ev.dropped
    ensures CountersAre(c, HandleBatch(c, v, ev), s0, k + [ev])
  {
    SumsSnoc(c, k, ev);
  }

  lemma KeptEventsSnoc(t: seq<Event>)
    requires t != []
    ensures var init, ev := KeptEvents(t[..|t| - 1]), t[|t| - 1];
      KeptEvents(t) == if ev.Batch? && !ev.dropped then init + [ev] else init
  {
  }

  lemma CountsCopied(c: Config, v: Vars, v': Vars, s0: Stats, k: seq<Event>)
    requires CountersAre(c, v, s0, k) && v'.totals == v.totals && v'.stats == v.stats
    ensures CountersAre(c, v', s0, k)
  {
  }

  /** Every counter of a run, for every sequence of messages. */
  lemma {:induction false} CountersAreSums(c: Config, es: EngineState, t: seq<Event>)
    requires es.vars.totals == NO_TOTALS && InOrder(c, es, t)
    ensures CountersAre(c, Fold(c, es, t).vars, es.vars.stats, KeptEvents(t))
  {
    if t != [] {
      var init, ev := t[..|t| - 1], t[|t| - 1];
      CountersAreSums(c, es, init);
      KeptEventsSnoc(t);
      var es', v' := Fold(c, es, init), Fold(c, es, t).vars;
      if ev.Batch? && !ev.dropped {
        BatchCounts(c, es'.vars, es.vars.stats, KeptEvents(init), ev);
        KeptBatchTurn(c, es', ev);
        CountsCopied(c, HandleBatch(c, es'.vars, ev), v', es.vars.stats, KeptEvents(t));
      } else {
        OtherEventsLeaveCounters(c, es', ev);
        CountsCopied(c, es'.vars, v', es.vars.stats, KeptEvents(t));
      }
    }
  }

  // ----- What the checkpoints count -----

  /** The i-th checkpoint saved shows the sums over the first i + 1 batches handled. */
  ghost predicate SavedCounts(c: Config, saved: seq<Saved>, k: seq<Event>) {
    && |saved| == |k|
    && forall i :: 0 <= i < |saved| ==>
         && saved[i].tableName == c.tableName
         && saved[i].progress.synced == Sum(Accepted(c), k[..i + 1])
         && saved[i].progress.skipped == Sum(Skipped(c), k[..i + 1])
         && saved[i].progress.failed == Sum(NotTransformed(), k[..i + 1]) + Sum(NotMapped(), k[..i + 1])
                                        + Sum(Refused(c), k[..i + 1])
  }

  lemma SavedSnoc(c: Config, saved: seq<Saved>, k: seq<Event>, next: Saved, ev: Event)
    requires SavedCounts(c, saved, k) && next.tableName == c.tableName
    requires next.progress.synced == Sum(Accepted(c), k + [ev]) && next.progress.skipped == Sum(Skipped(c), k + [ev])
    requires next.progress.failed
          == Sum(NotTransformed(), k + [ev]) + Sum(NotMapped(), k + [ev]) + Sum(Refused(c), k + [ev])
    ensures SavedCounts(c, saved + [next], k + [ev])
  {
    assert (k + [ev])[..|k| + 1] == k + [ev];
    forall i {:trigger k[..i + 1]} | 0 <= i < |k| ensures (k + [ev])[..i + 1] == k[..i + 1] {
    }
  }

  lemma {:induction false} CheckpointsCountAccepted(c: Config, es: EngineState, t: seq<Event>)
    requires es.vars.totals == NO_TOTALS && es.vars.saved == [] && InOrder(c, es, t)
    requires c.checkpointEnabled && c.tableName != "" && c.batchSize != 0
    ensures SavedCounts(c, Fold(c, es, t).vars.saved, KeptEvents(t))
  {
    if t != [] {
      var init, ev := t[..|t| - 1], t[|t| - 1];
      CheckpointsCountAccepted(c, es, init);
      KeptEventsSnoc(t);
      var es' := Fold(c, es, init);
      if ev.Batch? && !ev.dropped {
        CountersAreSums(c, es, init);
        BatchCounts(c, es'.vars, es.vars.stats, KeptEvents(init), ev);
        var v := HandleBatch(c, es'.vars, ev);
        SavedSnoc(c, es'.vars.saved, KeptEvents(init), WithCheckpoint(c, v).value.saved[|v.saved|], ev);
      } else {
        OtherEventsLeaveCounters(c, es', ev);
      }
    }
  }

  /** Without checkpoints or without a table none is saved. */
  lemma {:induction false} NothingSaved(c: Config, es: EngineState, t: seq<Event>)
    requires es.vars.saved == [] && InOrder(c, es, t) && !(c.checkpointEnabled && c.tableName != "")
    ensures Fold(c, es, t).vars.saved == []
  {
    if t != [] {
      NothingSaved(c, es, t[..|t| - 1]);
    }
  }

  // ----- Every run -----

  /** In every reachable state each counter is the sum of what the stages and the writer answered to the
      batches handled, and each checkpoint shows the sums at its time. */
  lemma RunCounts(w: World, s: State)
    requires Reachable(w, s)
    ensures CountersAre(w.config, s.es.vars, NO_STATS, KeptEvents(s.trace))
    ensures w.config.checkpointEnabled && w.config.tableName != "" && w.config.batchSize != 0 ==>
              SavedCounts(w.config, s.es.vars.saved, KeptEvents(s.trace))
    ensures !(w.config.checkpointEnabled && w.config.tableName != "") ==> s.es.vars.saved == []
  {
    ReachableInv(w, s);
    CountersAreSums(w.config, Start(w.count), s.trace);
    if !(w.config.checkpointEnabled && w.config.tableName != "") {
      NothingSaved(w.config, Start(w.count), s.trace);
    } else if w.config.batchSize != 0 {
      CheckpointsCountAccepted(w.config, Start(w.count), s.trace);
    }
  }
}
