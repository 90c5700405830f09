/** The buffered writer behind the engine's retries (writer/database.go, `BatchWriter.Write`, called by
    engine/sync.go, `writeWithRetry`): a failed call is repeated with the whole batch, although earlier
    flushes of it may have delivered some of the records already. */
module BatchRetry {
  import opened Arithmetic
  import opened Records
  import opened Sequences
  import opened Engine
  import opened BatchWriter

  // ----- One call -----

  /** Flushes that succeeded, each of exactly the batch size. */
  ghost predicate FullFlushes(size: nat, log: seq<FlushRecord>, from_: nat, to: nat)
    requires to <= |log|
  {
    forall i :: from_ <= i < to ==> log[i].ok && |log[i].records| == size
  }

  lemma OneMoreFlush(log: seq<FlushRecord>, m: nat)
    requires 0 < m <= |log| && log[m - 1].ok
    ensures Flushed(log[..m]) == Flushed(log[..m - 1]) + log[m - 1].records
    ensures Delivered(log[..m]) == Delivered(log[..m - 1]) + log[m - 1].records
  {
    assert log[..m][..m - 1] == log[..m - 1];
  }

  lemma OneMoreSize(n: nat, size: nat, before: seq<Record>, last: seq<Record>)
    requires n >= 1 && |before| == RowsOf(n - 1, size) && |last| == size
    ensures |before + last| == RowsOf(n, size)
  {
  }

  lemma {:induction false} FullFlushesDeliver(size: nat, log0: seq<FlushRecord>, log: seq<FlushRecord>, m: nat)
    returns (xs: seq<Record>)
    requires log0 <= log && |log0| <= m <= |log| && FullFlushes(size, log, |log0|, m)
    ensures Flushed(log[..m]) == Flushed(log0) + xs && Delivered(log[..m]) == Delivered(log0) + xs
    ensures |xs| == RowsOf(m - |log0|, size)
    decreases m
  {
    if m == |log0| {
      assert log[..m] == log0;
      xs := [];
    } else {
      var before := FullFlushesDeliver(size, log0, log, m - 1);
      var last := log[m - 1].records;
      OneMoreFlush(log, m);
      Regroup(Flushed(log0), before, last);
      Regroup(Delivered(log0), before, last);
      OneMoreSize(m - |log0|, size, before, last);
      xs := before + last;
    }
  }

  lemma CancelFront(a: seq<Record>, x: seq<Record>, y: seq<Record>)
    requires a + x == a + y
    ensures x == y
  {
    assert (a + x)[|a|..] == x && (a + y)[|a|..] == y;
  }

  /** What a call leaves: the log before and after, and the buffer. */
  ghost predicate Called(size: nat, held: seq<Record>, given: seq<Record>, log0: seq<FlushRecord>,
                         log: seq<FlushRecord>, buffer: seq<Record>, err: bool)
  {
    && log0 <= log && Flushed(log0) + (held + given) == Flushed(log) + buffer
    && (forall i :: |log0| <= i < |log| ==> |log[i].records| == size && (log[i].ok <==> !(err && i == |log| - 1)))
    && (err ==> |log| > |log0| && buffer == [])
  }

  /** A call that succeeds delivers or keeps all that was held and given. */
  lemma SuccessDelivers(size: nat, held: seq<Record>, given: seq<Record>, log0: seq<FlushRecord>, log: seq<FlushRecord>,
                        buffer: seq<Record>)
    requires Called(size, held, given, log0, log, buffer, false)
    ensures Delivered(log) + buffer == Delivered(log0) + (held + given)
  {
    var xs := FullFlushesDeliver(size, log0, log, |log|);
    assert log[..|log|] == log;
    assert Flushed(log0) + (xs + buffer) == Flushed(log0) + xs + buffer;
    CancelFront(Flushed(log0), held + given, xs + buffer);
    assert Delivered(log0) + (xs + buffer) == Delivered(log0) + xs + buffer;
  }

  lemma LastFailed(log: seq<FlushRecord>)
    requires log != [] && !log[|log| - 1].ok
    ensures var n := |log| - 1;
      Flushed(log) == Flushed(log[..n]) + log[n].records && Delivered(log) == Delivered(log[..n])
  {
  }

  lemma LastOfStream(front: seq<Record>, stream: seq<Record>, xs: seq<Record>, last: seq<Record>)
    requires front + stream == front + xs + last + []
    ensures |stream| == |xs| + |last| && stream[..|xs|] == xs
  {
    assert front + xs + last + [] == front + (xs + last);
    CancelFront(front, stream, xs + last);
  }

  /** A call that fails delivers the full batches before the failing one, which is lost. */
  lemma FailureDelivers(size: nat, held: seq<Record>, given: seq<Record>, log0: seq<FlushRecord>, log: seq<FlushRecord>)
    returns (k: nat)
    requires Called(size, held, given, log0, log, [], true)
    ensures RowsOf(k, size) + size == |held + given|
    ensures Delivered(log) == Delivered(log0) + (held + given)[..RowsOf(k, size)]
  {
    var n := |log| - 1;
    var xs := FullFlushesDeliver(size, log0, log, n);
    var last := log[n].records;
    LastFailed(log);
    LastOfStream(Flushed(log0), held + given, xs, last);
    k := n - |log0|;
  }

  // ----- All calls of one batch -----

  /** What the i-th call puts through the buffer; only the first finds something in it. */
  function Stream(held: seq<Record>, records: seq<Record>, i: nat): seq<Record> {
    if i == 0 then held + records else records
  }

  /** The failed calls, by how many of their flushes succeeded: the failing flush was full, too. */
  ghost predicate Failing(size: nat, held: seq<Record>, records: seq<Record>, ks: seq<nat>) {
    if ks == [] then true
    else
      var n := |ks| - 1;
      Failing(size, held, records, ks[..n]) && RowsOf(ks[n], size) + size <= |Stream(held, records, n)|
  }

  /** What the failed calls delivered. */
  function Partial(size: nat, held: seq<Record>, records: seq<Record>, ks: seq<nat>): seq<Record>
    requires Failing(size, held, records, ks)
  {
    if ks == [] then []
    else
      var n := |ks| - 1;
      Partial(size, held, records, ks[..n]) + Stream(held, records, n)[..RowsOf(ks[n], size)]
  }

  /** What is delivered or buffered at the end. */
  function Arrived(size: nat, held: seq<Record>, records: seq<Record>, ks: seq<nat>, ok: bool): seq<Record>
    requires Failing(size, held, records, ks)
  {
    Partial(size, held, records, ks)
    + if ok then Stream(held, records, |ks|) else if ks == [] then held else []
  }

  predicate NoneFlushed(ks: seq<nat>) { forall i :: 0 <= i < |ks| ==> ks[i] == 0 }

  lemma {:induction false} PartialLength(size: nat, held: seq<Record>, records: seq<Record>, ks: seq<nat>)
    requires size >= 1 && Failing(size, held, records, ks)
    ensures NoneFlushed(ks) ==> Partial(size, held, records, ks) == []
    ensures !NoneFlushed(ks) ==> |Partial(size, held, records, ks)| >= size
  {
    if ks != [] {
      var n := |ks| - 1;
      PartialLength(size, held, records, ks[..n]);
      assert |Partial(size, held, records, ks)| == |Partial(size, held, records, ks[..n])| + RowsOf(ks[n], size);
      if ks[n] == 0 {
        assert NoneFlushed(ks) <==> NoneFlushed(ks[..n]);
      }
    }
  }

  /** After a batch was accepted, what was held and the batch have arrived once each, and after it was
      reported as failed, only what was held, exactly when no call failed, or nothing was held and
      every failed call failed at its first flush. */
  lemma ArrivesOnceExactly(size: nat, held: seq<Record>, records: seq<Record>, ks: seq<nat>, ok: bool)
    requires |held| < size && Failing(size, held, records, ks)
    ensures multiset(Arrived(size, held, records, ks, ok)) == multiset(if ok then held + records else held)
       <==> ks == [] || (held == [] && NoneFlushed(ks))
  {
    var arrived, wanted := Arrived(size, held, records, ks, ok), if ok then held + records else held;
    PartialLength(size, held, records, ks);
    if multiset(arrived) == multiset(wanted) {
      assert |multiset(arrived)| == |arrived| && |multiset(wanted)| == |wanted|;
    }
    if ks == [] {
      assert arrived == wanted;
    } else if held == [] && NoneFlushed(ks) {
      assert arrived == wanted;
    }
  }

  // ----- The calls in place -----

  lemma CallMade(size: nat, held: seq<Record>, given: seq<Record>, entered: seq<Record>, log0: seq<FlushRecord>,
                 log: seq<FlushRecord>, buffer: seq<Record>, err: bool)
    requires entered == Flushed(log0) + held && entered + given == Flushed(log) + buffer
    requires Flushes(log0, log, err) && (err ==> buffer == [])
    requires forall i :: |log0| <= i < |log| ==> |log[i].records| == size
    ensures Called(size, held, given, log0, log, buffer, err)
  {
    Regroup(Flushed(log0), held, given);
  }

  lemma PrefixOfGiven(held: seq<Record>, records: seq<Record>, n: nat, m: nat)
    requires n <= |records| && m <= |held + records[..n]|
    ensures (held + records[..n])[..m] == (held + records)[..m] && |held + records[..n]| <= |held + records|
  {
  }

  /** What a call has delivered and holds now. */
  ghost predicate Outcome(size: nat, stream: seq<Record>, before: seq<Record>, delivered: seq<Record>,
                          buffer: seq<Record>, err: bool, k: nat)
  {
    if !err then delivered + buffer == before + stream
    else buffer == [] && RowsOf(k, size) + size <= |stream| && delivered == before + stream[..RowsOf(k, size)]
  }

  lemma CallOutcome(size: nat, held: seq<Record>, records: seq<Record>, n: nat, log0: seq<FlushRecord>,
                    log: seq<FlushRecord>, buffer: seq<Record>, err: bool) returns (k: nat)
    requires n <= |records| && (!err ==> n == |records|)
    requires Called(size, held, records[..n], log0, log, buffer, err)
    ensures Outcome(size, held + records, Delivered(log0), Delivered(log), buffer, err, k)
  {
    if err {
      k := FailureDelivers(size, held, records[..n], log0, log);
      PrefixOfGiven(held, records, n, RowsOf(k, size));
    } else {
      SuccessDelivers(size, held, records[..n], log0, log, buffer);
      assert records[..n] == records;
      k := 0;
    }
  }

  /** One call of the writer: all of what was held and given arrives, or the full batches before the
      failing one do and nothing is held any more. */
  method Call(w: BatchWriter, records: seq<Record>) returns (result: WriteResult, err: bool, ghost k: nat)
    requires w.Valid()
    modifies w, w.db
    ensures w.Valid()
    ensures Outcome(w.size, old(w.buffer) + records, Delivered(old(w.log)), Delivered(w.log), w.buffer, err, k)
    ensures result == WriteResult(Affected(w.log) - Affected(old(w.log)), 0, 0)
  {
    ghost var held, log0, entered := w.buffer, w.log, w.entered;
    ghost var n;
    result, err, n := w.Write(records);
    CallMade(w.size, held, records[..n], entered, log0, w.log, w.buffer, err);
    k := CallOutcome(w.size, held, records, n, log0, w.log, w.buffer, err);
  }

  /** What the loop keeps: the failed calls so far have delivered what they did, and only before the
      first of them is anything held. */
  ghost predicate Retrying(size: nat, held: seq<Record>, records: seq<Record>, ks: seq<nat>, before: seq<Record>,
                           delivered: seq<Record>, buffer: seq<Record>)
  {
    && Failing(size, held, records, ks) && buffer == (if ks == [] then held else [])
    && delivered == before + Partial(size, held, records, ks)
  }

  lemma OneMoreFailure(size: nat, held: seq<Record>, records: seq<Record>, ks: seq<nat>, k: nat)
    requires Failing(size, held, records, ks) && RowsOf(k, size) + size <= |Stream(held, records, |ks|)|
    ensures Failing(size, held, records, ks + [k])
    ensures Partial(size, held, records, ks + [k])
         == Partial(size, held, records, ks) + Stream(held, records, |ks|)[..RowsOf(k, size)]
  {
    assert (ks + [k])[..|ks|] == ks;
  }

  lemma FailureStep(size: nat, held: seq<Record>, records: seq<Record>, ks: seq<nat>, k: nat, before: seq<Record>,
                    delivered: seq<Record>, buffer: seq<Record>, delivered': seq<Record>)
    requires Retrying(size, held, records, ks, before, delivered, buffer)
    requires RowsOf(k, size) + size <= |buffer + records|
    requires delivered' == delivered + (buffer + records)[..RowsOf(k, size)]
    ensures Retrying(size, held, records, ks + [k], before, delivered', [])
  {
    assert buffer + records == Stream(held, records, |ks|);
    OneMoreFailure(size, held, records, ks, k);
    Regroup(before, Partial(size, held, records, ks), (buffer + records)[..RowsOf(k, size)]);
  }

  lemma SuccessStep(size: nat, held: seq<Record>, records: seq<Record>, ks: seq<nat>, before: seq<Record>,
                    delivered: seq<Record>, buffer: seq<Record>)
    requires Retrying(size, held, records, ks, before, delivered, buffer)
    ensures delivered + (buffer + records) == before + Arrived(size, held, records, ks, true)
    ensures delivered + buffer == before + Arrived(size, held, records, ks, false)
  {
    var y := Partial(size, held, records, ks);
    assert buffer + records == Stream(held, records, |ks|);
    assert before + y + (buffer + records) == before + (y + (buffer + records));
    assert before + y + buffer == before + (y + buffer);
  }

  /** One attempt that is made: the batch arrives, or one more call has failed. */
  method Attempt(w: BatchWriter, records: seq<Record>, ghost held: seq<Record>, ghost before: seq<Record>,
                 ghost ks: seq<nat>)
    returns (result: WriteResult, err: bool, ghost failed: seq<nat>)
    requires w.Valid() && Retrying(w.size, held, records, ks, before, Delivered(w.log), w.buffer)
    modifies w, w.db
    ensures w.Valid() && result == WriteResult(Affected(w.log) - Affected(old(w.log)), 0, 0)
    ensures !err ==> Delivered(w.log) + w.buffer == before + Arrived(w.size, held, records, ks, true)
    ensures err ==> |failed| == |ks| + 1
    ensures err ==> Retrying(w.size, held, records, failed, before, Delivered(w.log), w.buffer)
    ensures err ==> Delivered(w.log) + w.buffer == before + Arrived(w.size, held, records, failed, false)
  {
    ghost var delivered, buffer := Delivered(w.log), w.buffer;
    SuccessStep(w.size, held, records, ks, before, delivered, buffer);
    ghost var k;
    result, err, k := Call(w, records);
    failed := ks;
    if err {
      FailureStep(w.size, held, records, ks, k, before, delivered, buffer, Delivered(w.log));
      failed := ks + [k];
      SuccessStep(w.size, held, records, failed, before, Delivered(w.log), w.buffer);
    }
  }

  /** Why n failed attempts were not followed by another: they were all, or the context had ended. */
  predicate GaveUp(n: nat, maxAttempts: nat, done: nat -> bool, cut: nat -> bool) {
    n == maxAttempts || done(n) || (n > 0 && cut(n - 1))
  }

  /** The loop of `writeWithRetry`, by the log. */
  method RetryLoop(w: BatchWriter, records: seq<Record>, maxAttempts: nat, done: nat -> bool, cut: nat -> bool,
                   ghost held: seq<Record>, ghost before: seq<Record>, ghost reported: int)
    returns (result: WriteResult, ok: bool, attempt: nat, ghost ks: seq<nat>)
    requires w.Valid() && maxAttempts >= 1 && w.buffer == held && Delivered(w.log) == before
    requires Affected(w.log) == reported
    modifies w, w.db
    ensures w.Valid() && Failing(w.size, held, records, ks)
    ensures |ks| + (if ok then 1 else 0) <= maxAttempts
    ensures |ks| == attempt && (!ok ==> GaveUp(attempt, maxAttempts, done, cut))
    ensures ok && ks == [] ==> result == WriteResult(Affected(w.log) - reported, 0, 0)
    ensures !ok ==> result == WriteResult(0, |records|, 0) || result == WriteResult(0, 0, 0)
    ensures Delivered(w.log) + w.buffer == before + Arrived(w.size, held, records, ks, ok)
  {
    ks := [];
    SuccessStep(w.size, held, records, ks, before, before, held);
    attempt := 0;
    while attempt < maxAttempts
      invariant 0 <= attempt == |ks| <= maxAttempts
      invariant ks == [] ==> Affected(w.log) == reported
      invariant w.Valid() && Retrying(w.size, held, records, ks, before, Delivered(w.log), w.buffer)
      invariant Delivered(w.log) + w.buffer == before + Arrived(w.size, held, records, ks, false)
    {
      if done(attempt) {
        return WriteResult(0, 0, 0), false, attempt, ks;
      }
      var err;
      ghost var failed;
      result, err, failed := Attempt(w, records, held, before, ks);
      if !err {
        return result, true, attempt, ks;
      }
      ks := failed;
      if attempt < maxAttempts - 1 && cut(attempt) {
        return WriteResult(0, 0, 0), false, attempt + 1, ks;
      }
      attempt := attempt + 1;
    }
    return WriteResult(0, |records|, 0), false, attempt, ks;
  }

  /** `writeWithRetry` over a buffered writer.  `done(i)` is the context before the i-th attempt,
      `cut(i)` whether the delay behind it was cut short; `ks` are the failed calls. */
  method WriteRetried(w: BatchWriter, records: seq<Record>, retryMaxAttempts: int, done: nat -> bool, cut: nat -> bool)
    returns (result: WriteResult, ok: bool, ghost ks: seq<nat>)
    requires w.Valid()
    modifies w, w.db
    ensures w.Valid() && Failing(w.size, old(w.buffer), records, ks)
    ensures |ks| + (if ok then 1 else 0) <= if retryMaxAttempts <= 0 then 1 else retryMaxAttempts
    ensures !ok ==> GaveUp(|ks|, if retryMaxAttempts <= 0 then 1 else retryMaxAttempts, done, cut)
    ensures ok && ks == [] ==> result == WriteResult(Affected(w.log) - Affected(old(w.log)), 0, 0)
    ensures !ok ==> result == WriteResult(0, |records|, 0) || result == WriteResult(0, 0, 0)
    // what the data source has accepted, and what is still buffered
    ensures w.AcceptedBySource() + w.buffer
         == old(w.AcceptedBySource()) + Arrived(w.size, old(w.buffer), records, ks, ok)
  {
    w.DeliveredToSource();
    var maxAttempts := retryMaxAttempts;
    if maxAttempts <= 0 {
      maxAttempts := 1;
    }
    var attempts;
    result, ok, attempts, ks :=
      RetryLoop(w, records, maxAttempts, done, cut, w.buffer, Delivered(w.log), Affected(w.log));
    w.DeliveredToSource();
  }
}
