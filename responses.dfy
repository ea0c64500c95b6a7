/**
 * What the client does with the server's answer (index.js): `_parseCallback`
 * classifies a transport error, an HTTP status and a JSON body into an error
 * or the statement results, and `_parseResults` flattens each statement
 * result into row objects.
 */
module Responses {
  import opened Wrappers
  import opened JsValues

  /** One series of a statement result. An absent `values` or `tags` is
      modelled by an empty sequence, which `_.map` and `_.extend` treat alike. */
  datatype Series = Series(columns: seq<string>, values: seq<seq<Value>>, tags: KeyValues)

  /** One statement result: its `error` property, and its `series` array
      (`None` when the property is absent). */
  datatype StatementResult = StatementResult(error: Value, series: Option<seq<Series>>)

  /** An error object handed over by the transport, identified by its `code`. */
  datatype Err = Err(code: Value)

  /** The body the HTTP layer delivers: absent, `null`, a string, or a parsed
      JSON object with its `error` property and its `results` array (`None`
      when that is absent or not an array). */
  datatype Body = NoBody | NullBody | TextBody(text: string)
                | ObjectBody(error: Value, results: Option<seq<StatementResult>>)

  /** How a response ends: the user's callback receives a transport error, a
      failure message or the results; `Thrown` stands for a TypeError raised
      inside the request callback while reading a property of an absent or
      `null` body, which the user's callback never receives. */
  datatype Outcome = TransportError(err: Err) | Failure(message: string) | Thrown
                   | Success(results: Option<seq<StatementResult>>)

  // ---------------------------------------------------------------------
  // Flattening results into rows
  // ---------------------------------------------------------------------

  /** `_.zipObject(columns, values)`: each column in order is assigned the
      value at its index, `undefined` past the end of `values`. */
  function ZipObject(columns: seq<string>, values: seq<Value>): KeyValues
  {
    if columns == [] then []
    else
      var n := |columns| - 1;
      Set(ZipObject(columns[..n], values), columns[n], if n < |values| then values[n] else Undefined)
  }

  /** One row: the zipped values with the series tags assigned over them. */
  function Row(s: Series, values: seq<Value>): KeyValues {
    Assign(ZipObject(s.columns, values), s.tags)
  }

  /** `_.map(series.values, ...)`: the rows of one series, in order. */
  function Rows(s: Series): (rows: seq<KeyValues>)
    ensures |rows| == |s.values|
    ensures forall i :: 0 <= i < |rows| ==> rows[i] == Row(s, s.values[i])
  {
    seq(|s.values|, i requires 0 <= i < |s.values| => Row(s, s.values[i]))
  }

  /** The rows of several series, series by series. */
  function SeriesRows(ss: seq<Series>): seq<KeyValues>
  {
    if ss == [] then [] else SeriesRows(ss[..|ss| - 1]) + Rows(ss[|ss| - 1])
  }

  /** The row list of one statement result: empty without `series`. */
  function ResultRows(r: StatementResult): seq<KeyValues> {
    if r.series.Some? then SeriesRows(r.series.value) else []
  }

  /** The value `_parseResults` passes on: one row list per statement result.
      An absent response is iterated as an empty one. */
  function Table(response: Option<seq<StatementResult>>): seq<seq<KeyValues>>
  {
    if response.None? then []
    else seq(|response.value|, i requires 0 <= i < |response.value| => ResultRows(response.value[i]))
  }

  /** The number of rows of several series. */
  function RowCount(ss: seq<Series>): nat
  {
    if ss == [] then 0 else RowCount(ss[..|ss| - 1]) + |ss[|ss| - 1].values|
  }

  /** `_parseResults`: an outer loop over the statement results, and for each
      an inner loop concatenating the rows of its series. */
  method ParseResults(response: Option<seq<StatementResult>>) returns (results: seq<seq<KeyValues>>)
    ensures results == Table(response)
  {
    results := [];
    if response.None? {
      return;
    }
    var rs := response.value;
    var i := 0;
    while i < |rs|
      invariant 0 <= i <= |rs|
      invariant |results| == i
      invariant forall k :: 0 <= k < i ==> results[k] == ResultRows(rs[k])
    {
      var tmp: seq<KeyValues> := [];
      if rs[i].series.Some? {
        tmp := ConcatRows(rs[i].series.value);
      }
      assert tmp == ResultRows(rs[i]);
      results := results + [tmp];
      i := i + 1;
    }
    TableOf(rs, results);
  }

  /** A list holding the rows of each statement result, in order, is the
      table. */
  lemma TableOf(rs: seq<StatementResult>, results: seq<seq<KeyValues>>)
    requires |results| == |rs|
    requires forall k :: 0 <= k < |rs| ==> results[k] == ResultRows(rs[k])
    ensures results == Table(Some(rs))
  {
  }

  /** The inner loop of `_parseResults`: the rows of each series appended in
      turn. */
  method ConcatRows(ss: seq<Series>) returns (tmp: seq<KeyValues>)
    ensures tmp == SeriesRows(ss)
  {
    tmp := [];
    var j := 0;
    while j < |ss|
      invariant 0 <= j <= |ss|
      invariant tmp == SeriesRows(ss[..j])
    {
      SeriesRowsSnoc(ss, j);
      tmp := tmp + Rows(ss[j]);
      j := j + 1;
    }
    assert ss[..j] == ss;
  }

  lemma SeriesRowsSnoc(ss: seq<Series>, j: nat)
    requires j < |ss|
    ensures SeriesRows(ss[..j + 1]) == SeriesRows(ss[..j]) + Rows(ss[j])
  {
    assert ss[..j + 1][..j] == ss[..j];
  }

  // ---------------------------------------------------------------------
  // What the rows hold
  // ---------------------------------------------------------------------

  /** There is one row list per statement result, and a result without
      `series` gives an empty list. */
  lemma TableShape(response: Option<seq<StatementResult>>)
    ensures |Table(response)| == if response.Some? then |response.value| else 0
    ensures forall i :: 0 <= i < |Table(response)| && response.value[i].series.None? ==> Table(response)[i] == []
  {
  }

  /** A result has as many rows as its series have value rows together. */
  lemma {:induction false} SeriesRowsLength(ss: seq<Series>)
    ensures |SeriesRows(ss)| == RowCount(ss)
  {
    if ss != [] {
      SeriesRowsLength(ss[..|ss| - 1]);
    }
  }

  /** Rows come series by series, then row by row: row `i` of series `j` sits
      after the rows of the series before `j`. */
  lemma {:induction false} SeriesRowsAt(ss: seq<Series>, j: nat, i: nat)
    requires j < |ss| && i < |ss[j].values|
    ensures RowCount(ss[..j]) + i < |SeriesRows(ss)|
    ensures SeriesRows(ss)[RowCount(ss[..j]) + i] == Row(ss[j], ss[j].values[i])
    decreases |ss|
  {
    var n := |ss| - 1;
    assert ss[..n] == ss[..|ss| - 1];
    SeriesRowsLength(ss[..n]);
    if j == n {
      assert ss[..j] == ss[..n];
    } else {
      assert ss[..n][j] == ss[j];
      assert ss[..n][..j] == ss[..j];
      SeriesRowsAt(ss[..n], j, i);
    }
  }

  /** No column name repeats. */
  predicate DistinctColumns(columns: seq<string>) {
    columns == [] || (columns[|columns| - 1] !in columns[..|columns| - 1] && DistinctColumns(columns[..|columns| - 1]))
  }

  /** With distinct column names, the zipped object holds exactly the columns,
      in order, each with the value at its index. */
  lemma {:induction false} ZipObjectGet(columns: seq<string>, values: seq<Value>, j: nat)
    requires DistinctColumns(columns)
    requires j < |columns|
    ensures Get(ZipObject(columns, values), columns[j]) == if j < |values| then values[j] else Undefined
  {
    if j < |columns| - 1 {
      ZipObjectGet(columns[..|columns| - 1], values, j);
      ZipObjectGetEarlier(columns, values, j);
    } else {
      ZipObjectGetLast(columns, values);
    }
  }

  /** The last column holds its value. */
  lemma ZipObjectGetLast(columns: seq<string>, values: seq<Value>)
    requires columns != []
    ensures var j := |columns| - 1;
            Get(ZipObject(columns, values), columns[j]) == if j < |values| then values[j] else Undefined
  {
    var n := |columns| - 1;
    var v := if n < |values| then values[n] else Undefined;
    ZipObjectSnoc(columns, values);
    GetSet(ZipObject(columns[..n], values), columns[n], v, columns[n]);
  }

  /** An earlier column keeps what it held before the last was assigned,
      since the last column name is new. */
  lemma ZipObjectGetEarlier(columns: seq<string>, values: seq<Value>, j: nat)
    requires columns != [] && columns[|columns| - 1] !in columns[..|columns| - 1]
    requires j < |columns| - 1
    requires Get(ZipObject(columns[..|columns| - 1], values), columns[j]) == if j < |values| then values[j] else Undefined
    ensures Get(ZipObject(columns, values), columns[j]) == if j < |values| then values[j] else Undefined
  {
    var n := |columns| - 1;
    var init := columns[..n];
    var v := if n < |values| then values[n] else Undefined;
    ZipObjectSnoc(columns, values);
    GetSet(ZipObject(init, values), columns[n], v, columns[j]);
    assert init[j] == columns[j] && columns[j] in init;
  }

  lemma ZipObjectSnoc(columns: seq<string>, values: seq<Value>)
    requires columns != []
    ensures var n := |columns| - 1;
            ZipObject(columns, values) == Set(ZipObject(columns[..n], values), columns[n], if n < |values| then values[n] else Undefined)
  {
  }

  lemma GetSet(o: KeyValues, k: string, v: Value, k': string)
    ensures Get(Set(o, k, v), k') == if k' == k then v else Get(o, k')
  {
  }

  /** The keys of a zipped object are the columns, in order, when they are
      distinct. */
  lemma {:induction false} ZipObjectKeys(columns: seq<string>, values: seq<Value>)
    requires DistinctColumns(columns)
    ensures Keys(ZipObject(columns, values)) == columns
  {
    if columns != [] {
      var n := |columns| - 1;
      ZipObjectKeys(columns[..n], values);
      ButLastLast(columns);
    }
  }

  lemma ButLastLast(s: seq<string>)
    requires s != []
    ensures s[..|s| - 1] + [s[|s| - 1]] == s
  {
  }

  /** A key that is no column is absent from the zipped object. */
  lemma {:induction false} ZipObjectOther(columns: seq<string>, values: seq<Value>, k: string)
    requires k !in columns
    ensures !Has(ZipObject(columns, values), k)
  {
    if columns != [] {
      var n := |columns| - 1;
      assert forall c :: c in columns[..n] ==> c in columns;
      ZipObjectOther(columns[..n], values, k);
    }
  }

  /** In a row the tags win: a tag key holds the tag's value, and every other
      key holds the value zipped for its column. */
  lemma RowGet(s: Series, values: seq<Value>, k: string)
    requires DistinctKeys(s.tags)
    ensures Get(Row(s, values), k) == if Has(s.tags, k) then Get(s.tags, k) else Get(ZipObject(s.columns, values), k)
  {
    AssignGet(ZipObject(s.columns, values), s.tags, k);
  }

  // ---------------------------------------------------------------------
  // Classifying the answer
  // ---------------------------------------------------------------------

  /** A statement result whose error `_parseCallback` reports. */
  predicate Flagged(r: StatementResult) {
    Truthy(r.error) && r.error != Str("")
  }

  /** The index of the first flagged result at or after `from`. */
  function FirstFlagged(rs: seq<StatementResult>, from: nat): (r: Option<nat>)
    requires from <= |rs|
    ensures r.Some? ==> from <= r.value < |rs| && Flagged(rs[r.value])
    ensures r.Some? ==> forall j :: from <= j < r.value ==> !Flagged(rs[j])
    ensures r.None? ==> forall j :: from <= j < |rs| ==> !Flagged(rs[j])
    decreases |rs| - from
  {
    if from == |rs| then None
    else if Flagged(rs[from]) then Some(from)
    else FirstFlagged(rs, from + 1)
  }

  /** `new Error(body.error || body)` for a status outside 2xx. Reading
      `error` of an absent or `null` body throws. */
  function StatusFailure(body: Body): Outcome {
    match body
    case NoBody => Thrown
    case NullBody => Thrown
    case TextBody(t) => Failure(t)
    case ObjectBody(e, _) => Failure(if Truthy(e) then Text(e) else "[object Object]")
  }

  /** The outcome `_parseCallback` hands to the user's callback. */
  function Classify(err: Option<Err>, statusCode: int, body: Body): Outcome {
    if err.Some? then TransportError(err.value)
    else if statusCode < 200 || statusCode >= 300 then StatusFailure(body)
    else if body.ObjectBody? && body.results.Some? && FirstFlagged(body.results.value, 0).Some? then
      Failure(Text(body.results.value[FirstFlagged(body.results.value, 0).value].error))
    else if body.NoBody? then Failure("body is undefined")
    else if body.NullBody? then Thrown
    else if body.TextBody? then Success(None)
    else Success(body.results)
  }

  /** `_parseCallback`'s returned function, for a defined callback. The scan
      runs one index past the end, where the entry is undefined. */
  method ParseCallback(err: Option<Err>, statusCode: int, body: Body) returns (outcome: Outcome)
    ensures outcome == Classify(err, statusCode, body)
  {
    if err.Some? {
      return TransportError(err.value);
    }
    if statusCode < 200 || statusCode >= 300 {
      match body
      case NoBody => return Thrown;
      case NullBody => return Thrown;
      case TextBody(t) => return Failure(t);
      case ObjectBody(e, _) => return Failure(if Truthy(e) then Text(e) else "[object Object]");
    }
    if body.ObjectBody? && body.results.Some? {
      var rs := body.results.value;
      var i := 0;
      while i <= |rs|
        invariant 0 <= i <= |rs| + 1
        invariant FirstFlagged(rs, 0) == if i <= |rs| then FirstFlagged(rs, i) else None
      {
        var entry := if i < |rs| then Some(rs[i]) else None;
        if entry.Some? && Truthy(entry.value.error) && entry.value.error != Str("") {
          return Failure(Text(entry.value.error));
        }
        i := i + 1;
      }
    }
    if body.NoBody? {
      return Failure("body is undefined");
    }
    if body.NullBody? {
      return Thrown;
    }
    if body.TextBody? {
      return Success(None);
    }
    return Success(body.results);
  }

  // ---------------------------------------------------------------------
  // What the classification means
  // ---------------------------------------------------------------------

  /** A transport error passes through whatever the status and body. */
  lemma TransportErrorFirst(e: Err, statusCode: int, body: Body)
    ensures Classify(Some(e), statusCode, body) == TransportError(e)
  {
  }

  /** Statement errors: with a 2xx status, a body holding results fails
      exactly when some result carries a truthy error, and the message is
      that of the first such result. */
  lemma FirstErrorWins(statusCode: int, e: Value, rs: seq<StatementResult>)
    requires 200 <= statusCode < 300
    ensures Classify(None, statusCode, ObjectBody(e, Some(rs))).Failure? <==>
            exists i :: 0 <= i < |rs| && Truthy(rs[i].error)
    ensures forall i :: 0 <= i < |rs| && Truthy(rs[i].error) && (forall j :: 0 <= j < i ==> !Truthy(rs[j].error)) ==>
              Classify(None, statusCode, ObjectBody(e, Some(rs))) == Failure(Text(rs[i].error))
  {
    var c := Classify(None, statusCode, ObjectBody(e, Some(rs)));
    var f := FirstFlagged(rs, 0);
    if f.Some? {
      forall i | 0 <= i < |rs| && Truthy(rs[i].error) && (forall j :: 0 <= j < i ==> !Truthy(rs[j].error))
        ensures c == Failure(Text(rs[i].error))
      {
        TruthyIsFlagged(rs[i]);
      }
    } else {
      forall i | 0 <= i < |rs| ensures !Truthy(rs[i].error) {
        TruthyIsFlagged(rs[i]);
      }
    }
  }

  /** The empty-string test of the scan never decides anything: the empty
      string is already falsy. */
  lemma TruthyIsFlagged(r: StatementResult)
    ensures Flagged(r) <==> Truthy(r.error)
  {
  }

  /** A success means no transport error, a 2xx status, a body that is a
      string or an object, and no result carrying a truthy error. */
  lemma SuccessMeans(err: Option<Err>, statusCode: int, body: Body)
    requires Classify(err, statusCode, body).Success?
    ensures err.None? && 200 <= statusCode < 300
    ensures body.TextBody? || body.ObjectBody?
    ensures Classify(err, statusCode, body).results ==
              if body.ObjectBody? then body.results else None
    ensures body.ObjectBody? && body.results.Some? ==>
              forall i :: 0 <= i < |body.results.value| ==> !Truthy(body.results.value[i].error)
  {
    if body.ObjectBody? && body.results.Some? {
      forall i | 0 <= i < |body.results.value| ensures !Truthy(body.results.value[i].error) {
        TruthyIsFlagged(body.results.value[i]);
      }
    }
  }

  /** Reading the body throws exactly for a `null` body without a transport
      error, and for an absent body with a status outside 2xx; an absent body
      with a 2xx status gives `'body is undefined'` instead. */
  lemma ThrowsExactly(err: Option<Err>, statusCode: int, body: Body)
    ensures Classify(err, statusCode, body) == Thrown <==>
            err.None? && (body.NullBody? || (body.NoBody? && (statusCode < 200 || statusCode >= 300)))
    ensures err.None? && body.NoBody? && 200 <= statusCode < 300 ==>
            Classify(err, statusCode, body) == Failure("body is undefined")
  {
  }

  // ---------------------------------------------------------------------
  // The flattening example of the library's own tests
  // ---------------------------------------------------------------------

  lemma ZipTwo(c1: string, c2: string, v1: Value, v2: Value)
    requires c1 != c2
    ensures ZipObject([c1, c2], [v1, v2]) == [(c1, v1), (c2, v2)]
  {
    var cols := [c1, c2];
    assert cols[..1] == [c1] && cols[..1][..0] == [];
    var z1 := ZipObject([c1], [v1, v2]);
    assert [c1][..0] == [];
    assert ZipObject([c1][..0], [v1, v2]) == [];
    assert z1 == [(c1, v1)];
    assert Keys(z1) == [c1];
    SetNew(z1, c2, v2);
  }

  /** A row of a two-column series with one tag. */
  lemma TwoColumnRow(c1: string, c2: string, vs: seq<seq<Value>>, tag: string, tv: Value, v1: Value, v2: Value)
    requires c1 != c2 && tag != c1 && tag != c2
    ensures Row(Series([c1, c2], vs, [(tag, tv)]), [v1, v2]) == [(c1, v1), (c2, v2), (tag, tv)]
  {
    var z := [(c1, v1), (c2, v2)];
    ZipTwo(c1, c2, v1, v2);
    assert !Has(z, tag) by {
      assert Keys(z) == [c1, c2];
    }
    RowOneTag(Series([c1, c2], vs, [(tag, tv)]), [v1, v2], z, tag, tv);
  }

  /** A row whose series has one tag, new to the zipped object, ends with it. */
  lemma RowOneTag(s: Series, values: seq<Value>, z: KeyValues, tag: string, tv: Value)
    requires ZipObject(s.columns, values) == z && s.tags == [(tag, tv)]
    requires !Has(z, tag)
    ensures Row(s, values) == z + [(tag, tv)]
  {
    AssignOne(z, tag, tv);
    SetNew(z, tag, tv);
  }

  lemma AssignOne(o: KeyValues, k: string, v: Value)
    ensures Assign(o, [(k, v)]) == Set(o, k, v)
  {
    assert [(k, v)][1..] == [];
  }

  lemma RowsOne(s: Series)
    requires |s.values| == 1
    ensures Rows(s) == [Row(s, s.values[0])]
  {
  }

  lemma SeriesRowsTwo(s1: Series, s2: Series)
    ensures SeriesRows([s1, s2]) == Rows(s1) + Rows(s2)
  {
    var ss := [s1, s2];
    assert ss[..1] == [s1] && ss[..1][..0] == [];
    assert SeriesRows(ss[..1]) == Rows(s1);
  }

  lemma TableOne(r: StatementResult)
    ensures Table(Some([r])) == [ResultRows(r)]
  {
  }

  /** Two series of one value row each give one result with two rows, each
      row holding the columns' values and then the series tag. */
  lemma ParseResultsExample(t: string)
    ensures var s1 := Series(["time", "value"], [[Str(t), Num(55)]], [("mytag", Str("foobarfoo"))]);
            var s2 := Series(["time", "value"], [[Str(t), Num(29)]], [("mytag", Str("foobarfoo2"))]);
            Table(Some([StatementResult(Undefined, Some([s1, s2]))])) ==
              [[[("time", Str(t)), ("value", Num(55)), ("mytag", Str("foobarfoo"))],
                [("time", Str(t)), ("value", Num(29)), ("mytag", Str("foobarfoo2"))]]]
  {
    var s1 := Series(["time", "value"], [[Str(t), Num(55)]], [("mytag", Str("foobarfoo"))]);
    var s2 := Series(["time", "value"], [[Str(t), Num(29)]], [("mytag", Str("foobarfoo2"))]);
    TwoColumnRow("time", "value", s1.values, "mytag", Str("foobarfoo"), Str(t), Num(55));
    TwoColumnRow("time", "value", s2.values, "mytag", Str("foobarfoo2"), Str(t), Num(29));
    var r1 := [("time", Str(t)), ("value", Num(55)), ("mytag", Str("foobarfoo"))];
    var r2 := [("time", Str(t)), ("value", Num(29)), ("mytag", Str("foobarfoo2"))];
    RowsOne(s1);
    RowsOne(s2);
    SeriesRowsTwo(s1, s2);
    TwoRows(Rows(s1), Rows(s2), r1, r2);
    TableOne(StatementResult(Undefined, Some([s1, s2])));
  }

  lemma TwoRows(a: seq<KeyValues>, b: seq<KeyValues>, r1: KeyValues, r2: KeyValues)
    requires a == [r1] && b == [r2]
    ensures a + b == [r1, r2]
  {
  }
}
