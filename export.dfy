/** `filter_by_date` of the emotion-log export script: the records dated on or
    after a start date. The records become a table; without a `date` column
    the result is empty; otherwise the column is converted to timestamps and
    the rows with `date >= start` are kept. A missing or null date converts
    to NaT, which fails every comparison; a string that is not a date makes
    the conversion raise. */
module EmotionExport {
  import opened Seqs

  /** The `date` field of one JSON record. Dates are time points on one
      integer scale; the conversion from strings is not modelled. */
  datatype DateField =
    | NoKey             // the record has no `date` key
    | Null              // `"date": null`
    | Date(at: int)     // a string the conversion understands
    | Garbled(text: string)  // a string the conversion rejects

  datatype LogRecord<P> = LogRecord(date: DateField, payload: P)

  datatype Filtered<P> =
    | Rows(rows: seq<LogRecord<P>>)
    | DateParseError(text: string)

  /** The table has a `date` column when any record carries the key. */
  predicate HasDateColumn<P>(data: seq<LogRecord<P>>)
  {
    exists i :: 0 <= i < |data| && !data[i].date.NoKey?
  }

  predicate OnOrAfter<P>(r: LogRecord<P>, start: int)
  {
    r.date.Date? && r.date.at >= start
  }

  /** Index of the first record whose date cannot be converted, or `|data|`. */
  function FirstGarbled<P>(data: seq<LogRecord<P>>): (k: nat)
    ensures k <= |data|
    ensures k < |data| ==> data[k].date.Garbled?
    ensures forall j :: 0 <= j < k ==> !data[j].date.Garbled?
  {
    if data == [] then 0
    else if data[0].date.Garbled? then 0
    else 1 + FirstGarbled(data[1..])
  }

  function FilterByDate<P>(data: seq<LogRecord<P>>, start: int): (r: Filtered<P>)
    ensures data == [] ==> r == Rows([])
    ensures !HasDateColumn(data) ==> r == Rows([])
    ensures r.DateParseError? <==> exists i :: 0 <= i < |data| && data[i].date.Garbled?
    ensures r.Rows? ==> forall k :: 0 <= k < |r.rows| ==> OnOrAfter(r.rows[k], start) && r.rows[k] in data
    ensures r.Rows? ==> forall i :: 0 <= i < |data| && OnOrAfter(data[i], start) ==> data[i] in r.rows
    ensures r.Rows? ==> forall i :: 0 <= i < |data| ==>
      multiset(r.rows)[data[i]] == if OnOrAfter(data[i], start) then multiset(data)[data[i]] else 0
  {
    if data == [] then Rows([])
    else if !HasDateColumn(data) then Rows([])
    else
      var g := FirstGarbled(data);
      if g < |data| then DateParseError(data[g].date.text)
      else
        FilterCount(data, (x: LogRecord<P>) => OnOrAfter(x, start));
        Rows(Filter(data, (x: LogRecord<P>) => OnOrAfter(x, start)))
  }

  /** The kept rows are a subsequence of the input: their order is the input's. */
  lemma FilterByDateKeepsOrder<P>(data: seq<LogRecord<P>>, start: int)
    requires FilterByDate(data, start).Rows?
    ensures IsSubseq(FilterByDate(data, start).rows, data)
  {
    if data != [] && HasDateColumn(data) {
      FilterIsSubseq(data, (x: LogRecord<P>) => OnOrAfter(x, start));
    }
  }

  /** The comparison is inclusive: a record dated exactly `start` is kept,
      one dated just before is not. */
  lemma FilterByDateBoundary<P>(start: int, a: P, b: P)
    ensures FilterByDate([LogRecord(Date(start - 1), a), LogRecord(Date(start), b)], start)
      == Rows([LogRecord(Date(start), b)])
  {
    var data := [LogRecord(Date(start - 1), a), LogRecord(Date(start), b)];
    assert HasDateColumn(data) by { assert !data[0].date.NoKey?; }
    assert FirstGarbled(data) == 2 by { assert FirstGarbled(data[1..]) == 1 by { assert FirstGarbled(data[2..]) == 0; } }
    var p := (x: LogRecord<P>) => OnOrAfter(x, start);
    assert data[..1] == [data[0]];
    assert Filter(data[..1], p) == [] by { assert data[..1][..0] == []; }
  }
}
