/** The database writer and the buffered writer (writer/database.go).  The data source is an oracle:
    the k-th batch handed to it either reports how many rows it affected or fails. */
module BatchWriter {
  import opened Wrappers
  import opened Records
  import opened Engine

  datatype WriteMode = Unset | Insert | Update | Upsert

  type Oracle = nat -> Result<int, string>

  /** A batch handed to the data source: by which statement, and what it answered. */
  datatype Call = Call(records: seq<Record>, statement: WriteMode, answer: Result<int, string>)

  /** Insert only when the mode says so; every other mode upserts. */
  function StatementOf(mode: WriteMode): (statement: WriteMode)
    ensures mode == Insert ==> statement == Insert
    ensures mode in {Unset, Update, Upsert} ==> statement == Upsert
  {
    if mode == Insert then Insert else Upsert
  }

  class DatabaseWriter {
    const connected: bool
    const mode: WriteMode
    const source: Oracle
    /** Batches handed to the data source so far, and each of them with its answer. */
    var calls: nat
    ghost var handed: seq<Call>

    constructor (connected: bool, mode: WriteMode, source: Oracle)
      ensures this.connected == connected && this.mode == mode && this.source == source
      ensures calls == 0 && handed == []
    {
      this.connected, this.mode, this.source := connected, mode, source;
      calls, handed := 0, [];
    }

    /** Nothing to write is a success; otherwise a failure counts the whole batch as failed and a
        success reports the rows affected.  Every mode but insert is an upsert. */
    method WriteWithMode(records: seq<Record>, mode: WriteMode) returns (result: WriteResult, err: bool)
      modifies this
      ensures records == [] ==> !err && result == WriteResult(0, 0, 0)
      ensures records != [] && !connected ==> err && result == WriteResult(0, |records|, 0)
      ensures records == [] || !connected ==> calls == old(calls) && handed == old(handed)
      ensures records != [] && connected ==>
                calls == old(calls) + 1
                && handed == old(handed) + [Call(records, StatementOf(mode), source(old(calls)))]
                && result == (match source(old(calls))
                              case Ok(affected) => WriteResult(affected, 0, 0)
                              case Err(_) => WriteResult(0, |records|, 0))
                && (err <==> source(old(calls)).Err?)
    {
      if |records| == 0 {
        return WriteResult(0, 0, 0), false;
      }
      if !connected {
        return WriteResult(0, |records|, 0), true;
      }
      var answer := source(calls);
      calls := calls + 1;
      handed := handed + [Call(records, if mode == Insert then Insert else Upsert, answer)];
      match answer {
        case Err(_) => return WriteResult(0, |records|, 0), true;
        case Ok(affected) => return WriteResult(affected, 0, 0), false;
      }
    }

    /** The configured mode: insert only when it says so. */
    method Write(records: seq<Record>) returns (result: WriteResult, err: bool)
      modifies this
      ensures records == [] ==> !err && result == WriteResult(0, 0, 0)
      ensures records == [] || !connected ==> calls == old(calls) && handed == old(handed)
      ensures records != [] && connected ==>
                calls == old(calls) + 1
                && handed == old(handed) + [Call(records, StatementOf(mode), source(old(calls)))]
      ensures records != [] ==> (err <==> !connected || source(old(calls)).Err?)
      ensures records != [] && err ==> result == WriteResult(0, |records|, 0)
      ensures records != [] && !err ==> result == WriteResult(source(old(calls)).value, 0, 0)
    {
      var m := mode;
      if m == Unset {
        m := Upsert;
      }
      result, err := WriteWithMode(records, m);
    }
  }

  // ----- The history of a buffered writer -----

  /** One non-empty flush of the buffer. */
  datatype FlushRecord = FlushRecord(records: seq<Record>, automatic: bool, ok: bool, affected: int)

  function Flushed(log: seq<FlushRecord>): seq<Record> {
    if log == [] then [] else Flushed(log[..|log| - 1]) + log[|log| - 1].records
  }

  function Delivered(log: seq<FlushRecord>): seq<Record> {
    if log == [] then []
    else Delivered(log[..|log| - 1]) + if log[|log| - 1].ok then log[|log| - 1].records else []
  }

  function Lost(log: seq<FlushRecord>): seq<Record> {
    if log == [] then []
    else Lost(log[..|log| - 1]) + if log[|log| - 1].ok then [] else log[|log| - 1].records
  }

  /** The rows the data source reported for the flushes that succeeded. */
  function Affected(log: seq<FlushRecord>): int {
    if log == [] then 0
    else Affected(log[..|log| - 1]) + if log[|log| - 1].ok then log[|log| - 1].affected else 0
  }

  /** Arrival order: what entered the buffer is what was flushed, then what is still buffered; an
      automatic flush holds exactly `size` records. */
  ghost predicate Accounts(size: nat, entered: seq<Record>, log: seq<FlushRecord>, buffer: seq<Record>) {
    && entered == Flushed(log) + buffer
    && |buffer| < size
    && forall i :: 0 <= i < |log| ==> 0 < |log[i].records| <= size && (log[i].automatic ==> |log[i].records| == size)
  }

  lemma {:induction false} FlushedPartition(log: seq<FlushRecord>)
    ensures multiset(Flushed(log)) == multiset(Delivered(log)) + multiset(Lost(log))
    ensures |Flushed(log)| == |Delivered(log)| + |Lost(log)|
    ensures Lost(log) == [] ==> Flushed(log) == Delivered(log)
  {
    if log != [] {
      FlushedPartition(log[..|log| - 1]);
    }
  }

  lemma {:induction false} LostNothing(log: seq<FlushRecord>)
    requires forall i :: 0 <= i < |log| ==> |log[i].records| > 0
    ensures (forall i :: 0 <= i < |log| ==> log[i].ok) <==> Lost(log) == []
  {
    if log != [] {
      var n := |log| - 1;
      assert forall i :: 0 <= i < n ==> log[..n][i] == log[i];
      LostNothing(log[..n]);
    }
  }

  /** Delivered, lost and buffered records are exactly those that entered, each once; when no flush
      failed, the delivered ones followed by the buffered ones are in arrival order. */
  lemma {:induction false} NothingUnaccounted(size: nat, entered: seq<Record>, log: seq<FlushRecord>,
                                              buffer: seq<Record>)
    requires Accounts(size, entered, log, buffer)
    ensures multiset(entered) == multiset(Delivered(log)) + multiset(Lost(log)) + multiset(buffer)
    ensures |entered| == |Delivered(log)| + |Lost(log)| + |buffer|
    ensures (forall i :: 0 <= i < |log| ==> log[i].ok) <==> Lost(log) == []
    ensures Lost(log) == [] ==> entered == Delivered(log) + buffer
  {
    FlushedPartition(log);
    LostNothing(log);
  }

  lemma AppendFlush(log: seq<FlushRecord>, f: FlushRecord)
    ensures Flushed(log + [f]) == Flushed(log) + f.records
    ensures Affected(log + [f]) == Affected(log) + if f.ok then f.affected else 0
  {
    assert (log + [f])[..|log|] == log;
  }

  /** A flush of a full buffer keeps the accounts. */
  lemma FlushAccounts(size: nat, entered: seq<Record>, log: seq<FlushRecord>, full: seq<Record>, f: FlushRecord)
    requires entered == Flushed(log) + full && |full| == size > 0 && f.records == full && f.automatic
    requires forall i :: 0 <= i < |log| ==>
               0 < |log[i].records| <= size && (log[i].automatic ==> |log[i].records| == size)
    ensures Accounts(size, entered, log + [f], [])
    ensures log + [f] != log && (log + [f])[..|log|] == log && (log + [f])[|log|] == f
  {
    AppendFlush(log, f);
    assert Flushed(log + [f]) + [] == Flushed(log) + full;
    assert |log + [f]| != |log|;
  }

  // ----- The log and the data source -----

  /** Each flush is a batch that was handed to the data source, and went well exactly when that accepted
      it; without a data source none did. */
  ghost predicate Logged(connected: bool, log: seq<FlushRecord>, calls: seq<Call>) {
    if connected then
      && |calls| == |log|
      && forall i :: 0 <= i < |log| ==>
           && calls[i].records == log[i].records && (log[i].ok <==> calls[i].answer.Ok?)
           && (log[i].ok ==> log[i].affected == calls[i].answer.value)
    else calls == [] && forall i :: 0 <= i < |log| ==> !log[i].ok
  }

  /** The records of the batches that the data source accepted. */
  function AcceptedRecords(calls: seq<Call>): seq<Record> {
    if calls == [] then []
    else
      var last := calls[|calls| - 1];
      AcceptedRecords(calls[..|calls| - 1]) + if last.answer.Ok? then last.records else []
  }

  /** The rows that the data source reported. */
  function ReportedRows(calls: seq<Call>): int {
    if calls == [] then 0
    else
      var last := calls[|calls| - 1];
      ReportedRows(calls[..|calls| - 1]) + if last.answer.Ok? then last.answer.value else 0
  }

  /** What counts as delivered is what the data source accepted. */
  lemma {:induction false} DeliveredIsAccepted(connected: bool, log: seq<FlushRecord>, calls: seq<Call>)
    requires Logged(connected, log, calls)
    ensures Delivered(log) == AcceptedRecords(calls) && Affected(log) == ReportedRows(calls)
  {
    if log != [] {
      var n := |log| - 1;
      DeliveredIsAccepted(connected, log[..n], if connected then calls[..n] else []);
    }
  }

  lemma LoggedSnoc(connected: bool, log: seq<FlushRecord>, calls: seq<Call>, f: FlushRecord, call: Call)
    requires Logged(connected, log, calls) && (!connected ==> !f.ok)
    requires connected ==> call.records == f.records && (f.ok <==> call.answer.Ok?)
    requires connected && f.ok ==> f.affected == call.answer.value
    ensures Logged(connected, log + [f], if connected then calls + [call] else calls)
  {
  }

  /** When the data source reports one row per record, the counts are the delivered records. */
  lemma {:induction false} DeliveredCounts(log: seq<FlushRecord>)
    requires forall i :: 0 <= i < |log| && log[i].ok ==> log[i].affected == |log[i].records|
    ensures Affected(log) == |Delivered(log)|
  {
    if log != [] {
      var n := |log| - 1;
      assert forall i :: 0 <= i < n ==> log[..n][i] == log[i];
      DeliveredCounts(log[..n]);
    }
  }

  /** What the returned success counts miss of the records written is exactly what is still in the
      buffer, when no flush failed and every row was reported; a run never flushes it. */
  lemma CountsMissTheBuffer(size: nat, entered: seq<Record>, log: seq<FlushRecord>, buffer: seq<Record>)
    requires Accounts(size, entered, log, buffer)
    requires forall i :: 0 <= i < |log| ==> log[i].ok && log[i].affected == |log[i].records|
    ensures |entered| - Affected(log) == |buffer| < size
    ensures Affected(log) == |entered| <==> buffer == []
  {
    NothingUnaccounted(size, entered, log, buffer);
    DeliveredCounts(log);
  }

  /** The log got longer by automatic flushes, of which the last failed if there was an error. */
  ghost predicate Flushes(log0: seq<FlushRecord>, log: seq<FlushRecord>, err: bool) {
    && log0 <= log && (err ==> |log| > |log0|)
    && forall i :: |log0| <= i < |log| ==> log[i].automatic && (log[i].ok <==> !(err && i == |log| - 1))
  }

  lemma OneFlush(log: seq<FlushRecord>, f: FlushRecord)
    requires f.automatic
    ensures Flushes(log, log, false) && Flushes(log, log + [f], !f.ok)
  {
  }

  lemma FlushesStep(log0: seq<FlushRecord>, before: seq<FlushRecord>, log: seq<FlushRecord>, failed: bool)
    requires Flushes(log0, before, false) && Flushes(before, log, failed)
    ensures Flushes(log0, log, failed)
  {
    forall i | |log0| <= i < |log| ensures log[i].automatic && (log[i].ok <==> !(failed && i == |log| - 1)) {
      assert i < |before| ==> log[i] == before[i];
    }
  }

  /** A record enters a buffer with room left. */
  lemma EnterFits(size: nat, entered: seq<Record>, log: seq<FlushRecord>, buffer: seq<Record>, record: Record)
    requires Accounts(size, entered, log, buffer) && |buffer| + 1 < size
    ensures Accounts(size, entered + [record], log, buffer + [record]) && Flushes(log, log, false)
  {
    assert Flushed(log) + (buffer + [record]) == Flushed(log) + buffer + [record];
  }

  /** A record fills the buffer, which is flushed. */
  lemma EnterFull(size: nat, entered: seq<Record>, log: seq<FlushRecord>, buffer: seq<Record>, record: Record,
                  f: FlushRecord)
    requires Accounts(size, entered, log, buffer) && |buffer| + 1 >= size
    requires f.records == buffer + [record] && f.automatic
    ensures Accounts(size, entered + [record], log + [f], []) && Flushes(log, log + [f], !f.ok)
    ensures |log + [f]| == |log| + 1
    ensures Affected(log + [f]) == Affected(log) + if f.ok then f.affected else 0
  {
    assert Flushed(log) + (buffer + [record]) == Flushed(log) + buffer + [record];
    OneFlush(log, f);
    AppendFlush(log, f);
    FlushAccounts(size, entered + [record], log, buffer + [record], f);
  }

  class BatchWriter {
    const size: nat
    const db: DatabaseWriter
    var buffer: seq<Record>
    /** What the data source had been handed before this writer was made. */
    ghost const first: nat
    ghost var entered: seq<Record>
    ghost var log: seq<FlushRecord>

    /** The log is what this writer handed to the data source. */
    ghost predicate LogIsTrue()
      reads this, db
    {
      && first <= |db.handed| && Logged(db.connected, log, db.handed[first..])
      && forall i :: first <= i < |db.handed| ==> db.handed[i].statement == StatementOf(db.mode)
    }

    /** What the data source has accepted from this writer. */
    ghost function AcceptedBySource(): seq<Record>
      requires first <= |db.handed|
      reads this, db
    {
      AcceptedRecords(db.handed[first..])
    }

    lemma DeliveredToSource()
      requires LogIsTrue()
      ensures Delivered(log) == AcceptedBySource() && Affected(log) == ReportedRows(db.handed[first..])
    {
      DeliveredIsAccepted(db.connected, log, db.handed[first..]);
    }

    ghost predicate Valid()
      reads this, db
    {
      Accounts(size, entered, log, buffer) && LogIsTrue()
    }

    constructor (db: DatabaseWriter, batchSize: int)
      ensures Valid() && size == (if batchSize <= 0 then 1000 else batchSize) && this.db == db
      ensures buffer == entered == [] && log == []
    {
      this.db := db;
      size := if batchSize <= 0 then 1000 else batchSize;
      first := |db.handed|;
      buffer, entered, log := [], [], [];
    }

    /** Empties the buffer into one write; on failure the records are gone from the buffer. */
    method FlushBuffer(ghost automatic: bool) returns (result: WriteResult, err: bool)
      requires LogIsTrue()
      modifies this, db
      ensures LogIsTrue()
      ensures buffer == [] && entered == old(entered)
      ensures old(buffer) == [] ==> !err && result == WriteResult(0, 0, 0) && log == old(log)
      ensures old(buffer) != [] ==>
                log == old(log) + [FlushRecord(old(buffer), automatic, !err, result.success)]
                && result == (if err then WriteResult(0, |old(buffer)|, 0) else WriteResult(result.success, 0, 0))
    {
      if |buffer| == 0 {
        return WriteResult(0, 0, 0), false;
      }
      var records := buffer;
      buffer := [];
      result, err := db.Write(records);
      ghost var f := FlushRecord(records, automatic, !err, result.success);
      if db.connected {
        LoggedSnoc(true, log, old(db.handed)[first..], f, db.handed[|db.handed| - 1]);
        assert db.handed[first..] == old(db.handed)[first..] + [db.handed[|db.handed| - 1]];
      }
      log := log + [f];
    }

    /** One turn of the loop in `Write`. */
    method Add(record: Record) returns (written: WriteResult, failed: bool)
      requires Valid()
      modifies this, db
      ensures Valid() && entered == old(entered) + [record]
      ensures Flushes(old(log), log, failed) && |log| <= |old(log)| + 1
      ensures |log| > |old(log)| ==> buffer == []
      ensures log == old(log) ==> written == WriteResult(0, 0, 0)
      ensures !failed ==> written == WriteResult(Affected(log) - Affected(old(log)), 0, 0)
      ensures failed ==> Affected(log) == Affected(old(log))
    {
      ghost var held, before := buffer, entered;
      buffer := buffer + [record];
      entered := entered + [record];
      written, failed := WriteResult(0, 0, 0), false;
      if |buffer| >= size {
        written, failed := FlushBuffer(true);
        EnterFull(size, before, old(log), held, record, FlushRecord(held + [record], true, !failed, written.success));
      } else {
        EnterFits(size, before, old(log), held, record);
      }
    }

    /** `n` records enter the buffer: all of them, unless a flush fails; the failing flush is then
        the last one, the buffer is empty and the rest of the records never entered. */
    method Write(records: seq<Record>) returns (result: WriteResult, err: bool, ghost n: nat)
      requires Valid()
      modifies this, db
      ensures Valid()
      ensures n <= |records| && (!err ==> n == |records|) && entered == old(entered) + records[..n]
      ensures Flushes(old(log), log, err)
      ensures err ==> buffer == []
      ensures result == WriteResult(Affected(log) - Affected(old(log)), 0, 0)
    {
      result, err, n := WriteResult(0, 0, 0), false, 0;
      for i := 0 to |records|
        invariant Valid() && n == i && entered == old(entered) + records[..i]
        invariant Flushes(old(log), log, false)
        invariant result == WriteResult(Affected(log) - Affected(old(log)), 0, 0)
      {
        ghost var before := log;
        var written, failed := Add(records[i]);
        n := i + 1;
        assert records[..i + 1] == records[..i] + [records[i]];
        FlushesStep(old(log), before, log, failed);
        if failed {
          return result, true, n;
        }
        result := result.(success := result.success + written.success, failed := result.failed + written.failed);
      }
      assert records[..|records|] == records;
    }

    method Flush() returns (err: bool)
      requires Valid()
      modifies this, db
      ensures Valid() && buffer == [] && entered == old(entered)
      ensures old(buffer) == [] ==> !err && log == old(log)
      ensures old(buffer) != [] ==> |log| == |old(log)| + 1 && log[..|old(log)|] == old(log)
      ensures old(buffer) != [] ==> log[|old(log)|].records == old(buffer) && log[|old(log)|].ok == !err
    {
      ghost var log0, full := log, buffer;
      var _, e := FlushBuffer(false);
      if full != [] {
        AppendFlush(log0, log[|log0|]);
      }
      err := e;
    }
  }
}
