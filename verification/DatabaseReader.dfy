/** The paging reader (reader/database.go): a query is a slice of a fixed, totally ordered row
    sequence, and `Read` sends it page by page. */
module DatabaseReader {
  import opened Wrappers
  import opened Arithmetic
  import opened Records
  import opened Sequences

  /** The record made from a row; the source key is filled in when the row has the key column. */
  function ToRecord(pk: Option<string>, row: Data): Record {
    Record(row, if pk.Some? && pk.value in row then Some(row[pk.value]) else None)
  }

  function ToRecords(pk: Option<string>, rows: seq<Data>): (records: seq<Record>)
    ensures |records| == |rows|
    ensures forall i :: 0 <= i < |rows| ==> records[i] == ToRecord(pk, rows[i])
  {
    seq(|rows|, i requires 0 <= i < |rows| => ToRecord(pk, rows[i]))
  }

  function EffectiveBatchSize(batchSize: int): (b: nat)
    ensures b >= 1
  {
    if batchSize <= 0 then 1000 else batchSize
  }

  /** What LIMIT `limit` OFFSET `offset` returns of an ordered row sequence. */
  function Page<T>(table: seq<T>, offset: nat, limit: nat): seq<T> {
    if offset >= |table| then []
    else if offset + limit <= |table| then table[offset..offset + limit]
    else table[offset..]
  }

  function PageCount(n: nat, b: nat): nat
    requires b >= 1
  {
    if n == 0 then 0 else (n - 1) / b + 1
  }

  /** The results of the first k queries. */
  function FirstPages<T>(table: seq<T>, b: nat, k: nat): seq<seq<T>> {
    if k == 0 then [] else FirstPages(table, b, k - 1) + [Page(table, (k - 1) * b, b)]
  }

  /** The table cut into pages of `b` rows, the last one possibly shorter. */
  function Pages<T>(table: seq<T>, b: nat): seq<seq<T>>
    requires b >= 1
  {
    FirstPages(table, b, PageCount(|table|, b))
  }

  lemma PageCountBounds(n: nat, b: nat)
    requires b >= 1
    ensures var k := PageCount(n, b);
      n <= k * b && (k > 0 ==> (k - 1) * b < n)
  {
    if n > 0 {
      QuotientBounds(n - 1, b);
    }
  }

  lemma PageCountUnique(n: nat, b: nat, k: nat)
    requires b >= 1 && n <= k * b && (k > 0 ==> k * b - b < n)
    ensures PageCount(n, b) == k
  {
    if k > 0 {
      assert (k - 1) * b == k * b - b;
      QuotientUnique(n - 1, b, k - 1);
    }
  }

  /** The pages after k full ones: all of the table up to there, and nothing empty. */
  ghost predicate PagesUpTo<T>(table: seq<T>, b: nat, ps: seq<seq<T>>, end: nat) {
    && Flatten(ps) == (if end <= |table| then table[..end] else table)
    && (forall i :: 0 <= i < |ps| ==> 0 < |ps[i]| <= b)
    && (forall i :: 0 <= i < |ps| - 1 ==> |ps[i]| == b)
    && (ps != [] && end <= |table| ==> |ps[|ps| - 1]| == b)
  }

  lemma OnePageMore<T>(table: seq<T>, b: nat, ps: seq<seq<T>>, end: nat)
    requires b >= 1 && end < |table| && PagesUpTo(table, b, ps, end)
    ensures PagesUpTo(table, b, ps + [Page(table, end, b)], end + b)
  {
    FlattenSnoc(ps, Page(table, end, b));
  }

  lemma {:induction false} FirstPagesShape<T>(table: seq<T>, b: nat, k: nat, end: int)
    requires end == k * b < |table| + b && b >= 1
    ensures end >= 0 && |FirstPages(table, b, k)| == k && PagesUpTo(table, b, FirstPages(table, b, k), end)
  {
    if k > 0 {
      StepBack(k, b);
      FirstPagesShape(table, b, k - 1, end - b);
      OnePageMore(table, b, FirstPages(table, b, k - 1), end - b);
    }
  }

  lemma {:induction false} FirstPagesPrefix<T>(table: seq<T>, b: nat, j: nat, k: nat)
    requires j <= k
    ensures FirstPages(table, b, j) <= FirstPages(table, b, k)
  {
    if j < k {
      FirstPagesPrefix(table, b, j, k - 1);
    }
  }

  /** The pages are the table in order, none is empty, and all but the last are full. */
  lemma PagesShape<T>(table: seq<T>, b: nat)
    requires b >= 1
    ensures var ps := Pages(table, b);
      && Flatten(ps) == table
      && (forall i :: 0 <= i < |ps| ==> 0 < |ps[i]| <= b)
      && (forall i :: 0 <= i < |ps| - 1 ==> |ps[i]| == b)
      && |ps| == PageCount(|table|, b)
  {
    var k := PageCount(|table|, b);
    PageCountBounds(|table|, b);
    assert k > 0 ==> (k - 1) * b == k * b - b;
    FirstPagesShape(table, b, k, k * b);
  }

  lemma PrefixOfPages<T>(table: seq<T>, b: nat, k: nat)
    requires b >= 1 && k * b <= |table|
    ensures FirstPages(table, b, k) <= Pages(table, b)
  {
    var n := PageCount(|table|, b);
    PageCountBounds(|table|, b);
    assert (n + 1) * b == n * b + b;
    CancelFactor(k, n + 1, b);
    FirstPagesPrefix(table, b, k, n);
  }

  /** A query that returns no row, or fewer rows than asked for, is the last one. */
  lemma ShortPageIsLast<T>(table: seq<T>, b: nat, k: nat)
    requires b >= 1 && k * b <= |table| < k * b + b
    ensures |table| / b == k
    ensures Pages(table, b) == FirstPages(table, b, if |table| == k * b then k else k + 1)
  {
    QuotientUnique(|table|, b, k);
    assert (k + 1) * b == k * b + b;
    PageCountUnique(|table|, b, if |table| == k * b then k else k + 1);
  }

  lemma FullPageAdvances<T>(table: seq<T>, b: nat, k: nat)
    requires b >= 1 && k * b + b <= |table|
    ensures (k + 1) * b == k * b + b
    ensures |Flatten(FirstPages(table, b, k + 1))| == k * b + b
  {
    assert (k + 1) * b == k * b + b;
    FirstPagesShape(table, b, k + 1, (k + 1) * b);
  }

  /** The state of a paging loop: `k` full pages were sent. */
  ghost predicate Sending<T>(table: seq<T>, b: nat, k: nat, offset: int, sent: seq<seq<T>>) {
    offset == RowsOf(k, b) <= |table| && sent == FirstPages(table, b, k)
  }

  lemma PageSent<T>(table: seq<T>, b: nat, k: nat, offset: int, sent: seq<seq<T>>, page: seq<T>, last: nat)
    requires b >= 1 && Sending(table, b, k, offset, sent) && page == Page(table, offset, b) && last == |table| / b
    ensures page == [] ==> sent == Pages(table, b) && k == last
    ensures 0 < |page| < b ==> sent + [page] == Pages(table, b) && k == last
    ensures |page| >= b ==> Sending(table, b, k + 1, offset + b, sent + [page]) && k < last
  {
    RowsProduct(k, b);
    if |page| < b {
      ShortPageIsLast(table, b, k);
    } else {
      FullPageAdvances(table, b, k);
      QuotientBounds(|table|, b);
      StepBack(last + 1, b);
      CancelFactor(k + 1, last + 1, b);
    }
  }

  lemma SentIsPrefix<T>(table: seq<T>, b: nat, k: nat, offset: int, sent: seq<seq<T>>)
    requires b >= 1 && Sending(table, b, k, offset, sent)
    ensures sent <= Pages(table, b)
  {
    RowsProduct(k, b);
    PrefixOfPages(table, b, k);
  }

  /** The number of full pages, which is how many queries come before the last one. */
  function FullPages(rows: nat, b: nat): (n: nat)
    requires b >= 1
  {
    QuotientBounds(rows, b);
    rows / b
  }

  /** Record by record: the row itself, with its key when a key column is configured and in the row. */
  ghost predicate AreRecordsOf(pk: Option<string>, rows: seq<Data>, records: seq<Record>) {
    && |records| <= |rows|
    && forall i :: 0 <= i < |records| ==>
         && records[i].data == rows[i]
         && (pk.Some? && pk.value in rows[i] ==> records[i].sourcePK == Some(rows[i][pk.value]))
         && (pk.None? || pk.value !in rows[i] ==> records[i].sourcePK == None)
  }

  lemma RecordsMatch(pk: Option<string>, rows: seq<Data>)
    ensures AreRecordsOf(pk, rows, ToRecords(pk, rows))
  {
  }

  /** The records built from the rows of one query. */
  method BuildRecords(rows: seq<Data>, pk: Option<string>) returns (records: seq<Record>)
    ensures records == ToRecords(pk, rows)
    ensures AreRecordsOf(pk, rows, records) && |records| == |rows|
  {
    records := [];
    for j := 0 to |rows|
      invariant records == ToRecords(pk, rows[..j])
    {
      records := records + [ToRecord(pk, rows[j])];
    }
    assert rows[..|rows|] == rows;
    RecordsMatch(pk, rows);
  }

  lemma ToRecordsPage(pk: Option<string>, rows: seq<Data>, offset: nat, b: nat)
    ensures ToRecords(pk, Page(rows, offset, b)) == Page(ToRecords(pk, rows), offset, b)
  {
  }

  /** What the reader meets in its i-th turn of the loop. */
  datatype Interrupt = Quiet | CancelledAtHead | QueryError(msg: string) | CancelledAtSend

  /** The paging loop of `DatabaseReader.Read`. */
  method ReadPages(rows: seq<Data>, pk: Option<string>, size: nat, at: nat -> Interrupt)
    returns (sent: seq<seq<Record>>, report: Option<string>, queries: nat)
    requires size >= 1
    ensures sent <= Pages(ToRecords(pk, rows), size)
    ensures report.None? ==> sent == Pages(ToRecords(pk, rows), size)
    ensures (forall i :: at(i).Quiet?) ==> report.None? && queries == FullPages(|rows|, size) + 1
  {
    sent, queries := [], 0;
    ghost var table := ToRecords(pk, rows);
    ghost var last := FullPages(|table|, size);
    var offset := 0;
    while true
      invariant Sending(table, size, queries, offset, sent) && offset >= 0
      decreases |table| - offset
    {
      SentIsPrefix(table, size, queries, offset, sent);
      ToRecordsPage(pk, rows, offset, size);
      PageSent(table, size, queries, offset, sent, Page(table, offset, size), last);
      var turn := at(queries);
      if turn.CancelledAtHead? {
        return sent, Some("context canceled"), queries;
      }
      queries := queries + 1;
      if turn.QueryError? {
        return sent, Some("read batch failed: " + turn.msg), queries;
      }
      var records := BuildRecords(Page(rows, offset, size), pk);
      if |records| == 0 {
        return sent, None, queries;
      }
      if turn.CancelledAtSend? {
        return sent, Some("context canceled"), queries;
      }
      sent := sent + [records];
      if |records| < size {
        return sent, None, queries;
      }
      offset := offset + size;
    }
  }

  /** What a reader may have sent of its rows: from the first row on, in order, each as its record, in
      batches of the size asked for, or of 1000, of which only the last can be shorter. */
  ghost predicate SentOf(pk: Option<string>, rows: seq<Data>, batchSize: int, sent: seq<seq<Record>>) {
    && AreRecordsOf(pk, rows, Flatten(sent))
    && forall i :: 0 <= i < |sent| ==>
         && 0 < |sent[i]| <= (if batchSize <= 0 then 1000 else batchSize)
         && (|Flatten(sent)| < |rows| || i < |sent| - 1 ==> |sent[i]| == if batchSize <= 0 then 1000 else batchSize)
  }

  /** Pages sent from the front are the first records. */
  lemma SentMatch(pk: Option<string>, rows: seq<Data>, batchSize: int, sent: seq<seq<Record>>)
    requires sent <= Pages(ToRecords(pk, rows), EffectiveBatchSize(batchSize))
    ensures SentOf(pk, rows, batchSize, sent)
    ensures sent == Pages(ToRecords(pk, rows), EffectiveBatchSize(batchSize)) ==> |Flatten(sent)| == |rows|
  {
    var all := Pages(ToRecords(pk, rows), EffectiveBatchSize(batchSize));
    PagesShape(ToRecords(pk, rows), EffectiveBatchSize(batchSize));
    FlattenConcat(sent, all[|sent|..]);
    assert all == sent + all[|sent|..];
    RecordsMatch(pk, rows);
    assert Flatten(sent) <= ToRecords(pk, rows);
    assert sent == all || |sent| < |all|;
  }

  /** The goroutine of `DatabaseReader.Read` on its own: `sent` are the batches put on the record
      channel in order and `report` is the one value put on the error channel. */
  method Read(configured: bool, rows: seq<Data>, pk: Option<string>, batchSize: int, at: nat -> Interrupt)
    returns (sent: seq<seq<Record>>, report: Option<string>, queries: nat)
    ensures SentOf(pk, rows, batchSize, sent)
    ensures report.None? ==> |Flatten(sent)| == |rows|
    ensures sent <= Pages(ToRecords(pk, rows), EffectiveBatchSize(batchSize))
    ensures configured && (forall i :: at(i).Quiet?) ==>
              report.None? && queries == FullPages(|rows|, EffectiveBatchSize(batchSize)) + 1
    ensures !configured ==> sent == [] && report.Some? && queries == 0
  {
    SentMatch(pk, rows, batchSize, []);
    if !configured {
      return [], Some("datasource is not configured"), 0;
    }
    var size := batchSize;
    if size <= 0 {
      size := 1000;
    }
    sent, report, queries := ReadPages(rows, pk, size, at);
    SentMatch(pk, rows, batchSize, sent);
  }
}
