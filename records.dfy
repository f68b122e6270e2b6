/**
  Metric records returned by a metric query, and the record collection:
  a forward-only cursor over the records plus the row sequences its CSV
  export writes. The two client modules of the SDK hold the same code.
 */
module Records {
  import opened PyValues

  /** One row of a metric query's result. The constructor stores whatever it is
      given, so the dimensions need not be a dict. */
  datatype MetricRecord = MetricRecord(evaluationTime: Json, value: Json, dimensions: Json)

  /** The keyword parameters of `MetricRecord.__init__`. */
  const RecordParameters: seq<string> := ["evaluation_time", "value", "dimensions"]

  /** `MetricRecord(**row)`: the row must be a dict whose keys are exactly the
      constructor's parameters, otherwise Python raises TypeError. */
  function DecodeRecord(row: Json): (r: Result<MetricRecord>)
    ensures r.Ok? <==>
              && row.JObject?
              && (forall k :: k in Keys(row.entries) ==> k in RecordParameters)
              && (forall p :: p in RecordParameters ==> p in Keys(row.entries))
    ensures r.Ok? ==>
              && Lookup(row.entries, "evaluation_time") == Some(r.value.evaluationTime)
              && Lookup(row.entries, "value") == Some(r.value.value)
              && Lookup(row.entries, "dimensions") == Some(r.value.dimensions)
    ensures r.Err? ==> r.error == TypeError
  {
    if row.JObject?
       && (forall k :: k in Keys(row.entries) ==> k in RecordParameters)
       && (forall p :: p in RecordParameters ==> p in Keys(row.entries))
    then
      var d := row.entries;
      assert "evaluation_time" in RecordParameters && "value" in RecordParameters
        && "dimensions" in RecordParameters;
      Ok(MetricRecord(Lookup(d, "evaluation_time").value, Lookup(d, "value").value,
                      Lookup(d, "dimensions").value))
    else Err(TypeError)
  }

  /** The dict `to_dict` starts from. */
  function BaseDict(rec: MetricRecord): Dict {
    [Entry("evaluation_time", rec.evaluationTime), Entry("value", rec.value)]
  }

  /** What `to_dict` returns: the two base fields updated with the dimensions, in
      order. Dimensions that are not a dict have no `items` to call. */
  function DictOf(rec: MetricRecord): Result<Dict> {
    if rec.dimensions.JObject? then Ok(PutAll(BaseDict(rec), rec.dimensions.entries))
    else Err(AttributeError("items"))
  }

  /** `MetricRecord.to_dict`: fills the base dict with one assignment per dimension. */
  method ToDict(rec: MetricRecord) returns (r: Result<Dict>)
    ensures r == DictOf(rec)
  {
    var d := BaseDict(rec);
    if !rec.dimensions.JObject? {
      return Err(AttributeError("items"));
    }
    var items := rec.dimensions.entries;
    var i := 0;
    while i < |items|
      invariant 0 <= i <= |items|
      invariant PutAll(d, items[i..]) == PutAll(BaseDict(rec), items)
    {
      d := Put(d, items[i].key, items[i].val);
      i := i + 1;
    }
    r := Ok(d);
  }

  /** The keys of `to_dict` are `evaluation_time`, `value` and the dimension keys; a
      dimension key maps to its dimension value, even when it is named
      `evaluation_time` or `value`, and the base fields keep their values otherwise. */
  lemma DictOfContents(rec: MetricRecord, k: string)
    requires rec.dimensions.JObject? && DistinctKeys(rec.dimensions.entries)
    ensures DictOf(rec).Ok?
    ensures k in Keys(DictOf(rec).value)
        <==> k == "evaluation_time" || k == "value" || k in Keys(rec.dimensions.entries)
    ensures Lookup(DictOf(rec).value, k) ==
              if k in Keys(rec.dimensions.entries) then Lookup(rec.dimensions.entries, k)
              else if k == "evaluation_time" then Some(rec.evaluationTime)
              else if k == "value" then Some(rec.value)
              else None
  {
    LookupPutAll(BaseDict(rec), rec.dimensions.entries, k);
  }

  /** The dict's key order: the two base fields first, then the dimension keys other
      than those two, in the dimensions' order. */
  lemma DictOfKeyOrder(rec: MetricRecord)
    requires rec.dimensions.JObject? && DistinctKeys(rec.dimensions.entries)
    ensures DictOf(rec).Ok?
    ensures Keys(DictOf(rec).value)
         == ["evaluation_time", "value"]
            + KeysNotIn(Keys(rec.dimensions.entries), ["evaluation_time", "value"])
  {
    assert Keys(BaseDict(rec)) == ["evaluation_time", "value"];
    KeysPutAll(BaseDict(rec), rec.dimensions.entries);
  }

  /** A dimension called `value` replaces the metric value in `to_dict`. */
  lemma DimensionNamedValueWins(t: Json, v: Json, w: Json)
    ensures DictOf(MetricRecord(t, v, JObject([Entry("value", w)])))
         == Ok([Entry("evaluation_time", t), Entry("value", w)])
  {
    var base := [Entry("evaluation_time", t), Entry("value", v)];
    var dims := [Entry("value", w)];
    assert base[1..] == [Entry("value", v)] && dims[1..] == [];
    assert Put(base[1..], "value", w) == [Entry("value", w)];
    assert Put(base, "value", w) == [Entry("evaluation_time", t), Entry("value", w)];
    assert PutAll(base, dims) == PutAll(Put(base, "value", w), []);
  }

  /** `[vals[field] for field in columns]`: the first missing column raises KeyError. */
  function Project(d: Dict, columns: seq<string>): (r: Result<seq<Json>>)
    ensures r.Ok? <==> forall i :: 0 <= i < |columns| ==> columns[i] in Keys(d)
    ensures r.Ok? ==>
              && |r.value| == |columns|
              && forall i :: 0 <= i < |columns| ==> Lookup(d, columns[i]) == Some(r.value[i])
    ensures r.Err? ==>
              exists i :: && 0 <= i < |columns| && columns[i] !in Keys(d)
                          && r.error == KeyError(columns[i])
                          && forall j :: 0 <= j < i ==> columns[j] in Keys(d)
  {
    if columns == [] then Ok([])
    else
      match Lookup(d, columns[0])
      case None => Err(KeyError(columns[0]))
      case Some(v) =>
        match Project(d, columns[1..])
        case Err(e) =>
          ghost var i :| && 0 <= i < |columns| - 1 && columns[1..][i] !in Keys(d)
                         && e == KeyError(columns[1..][i])
                         && forall j :: 0 <= j < i ==> columns[1..][j] in Keys(d);
          assert columns[i + 1] == columns[1..][i];
          Err(e)
        case Ok(vs) => Ok([v] + vs)
  }

  /** The CSV row `to_csv` writes for one record under the given columns. */
  function RowOf(rec: MetricRecord, columns: seq<string>): Result<seq<Json>> {
    match DictOf(rec)
    case Err(e) => Err(e)
    case Ok(d) => Project(d, columns)
  }

  /** The header cells, as the CSV writer receives them. */
  function Cells(names: seq<string>): (r: seq<Json>)
    ensures |r| == |names| && forall i :: 0 <= i < |names| ==> r[i] == JStr(names[i])
  {
    StrList(names).elems
  }

  /** `MetricRecordList`: the query's group-by fields, its records, and a cursor. */
  class MetricRecordList {
    const groupByFields: seq<string>
    const records: seq<MetricRecord>
    var index: nat

    ghost predicate Valid()
      reads this
    {
      index <= |records|
    }

    /** The records a consumer has not seen yet. */
    ghost function Remaining(): seq<MetricRecord>
      reads this
      requires Valid()
    {
      records[index..]
    }

    /** `MetricRecordList.__init__`, after the rows have been decoded. */
    constructor (groupByFields: seq<string>, records: seq<MetricRecord>)
      ensures Valid()
      ensures this.groupByFields == groupByFields && this.records == records
      ensures index == 0 && Remaining() == records
    {
      this.groupByFields := groupByFields;
      this.records := records;
      index := 0;
    }

    /** `__iter__` hands back the collection itself, cursor and all. */
    method Iter() returns (it: MetricRecordList)
      ensures it == this
    {
      it := this;
    }

    /** `__next__`: the record under the cursor, then the cursor moves one on;
        at the end, StopIteration and nothing moves. */
    method Next() returns (r: Result<MetricRecord>)
      requires Valid()
      modifies this`index
      ensures Valid()
      ensures old(index) < |records| ==> r == Ok(records[old(index)]) && index == old(index) + 1
      ensures old(index) == |records| ==> r == Err(StopIteration) && index == old(index)
      ensures r.Ok? ==> Remaining() == old(Remaining())[1..]
    {
      if index >= |records| {
        return Err(StopIteration);
      }
      var record := records[index];
      index := index + 1;
      r := Ok(record);
    }

    /** A Python `for` loop over the collection: `iter()`, then `next()` until
        StopIteration. It sees exactly the records the cursor had not passed. */
    method Consume() returns (items: seq<MetricRecord>)
      requires Valid()
      modifies this`index
      ensures Valid()
      ensures items == old(Remaining()) && index == |records|
    {
      var it := Iter();
      items := [];
      var done := false;
      while !done
        invariant Valid()
        invariant items + records[index..] == old(records[index..])
        invariant done ==> index == |records|
        decreases |records| - index, if done then 0 else 1
      {
        var r := it.Next();
        match r
        case Ok(x) =>
          items := items + [x];
        case Err(_) =>
          done := true;
      }
    }

    /** Iterating a fresh collection twice: the first pass sees every record, the
        second none, because `__iter__` does not rewind the cursor. */
    method TwoPasses() returns (first: seq<MetricRecord>, second: seq<MetricRecord>)
      requires Valid() && index == 0
      modifies this`index
      ensures first == records && second == []
    {
      first := Consume();
      second := Consume();
    }

    /** The header row: `evaluation_time`, `value`, then the group-by fields in order. */
    method HeaderColumns() returns (columns: seq<string>)
      ensures columns == Columns()
    {
      columns := ["evaluation_time", "value"];
      var i := 0;
      while i < |groupByFields|
        invariant 0 <= i <= |groupByFields|
        invariant columns == ["evaluation_time", "value"] + groupByFields[..i]
      {
        columns := columns + [groupByFields[i]];
        i := i + 1;
      }
    }

    /** The columns of the CSV export: `evaluation_time`, `value`, then the group-by
        fields in order. */
    function Columns(): seq<string> {
      ["evaluation_time", "value"] + groupByFields
    }

    /** What the data part of the export holds: one row per record, in order, each
        that record's dict projected onto `columns`; when a record's row raises, the
        rows before it and that error. */
    predicate WritesRows(rows: seq<seq<Json>>, err: Option<PyError>, columns: seq<string>) {
      && |rows| <= |records|
      && (forall i :: 0 <= i < |rows| ==> RowOf(records[i], columns) == Ok(rows[i]))
      && (err.None? ==> |rows| == |records|)
      && (err.Some? ==> |rows| < |records| && RowOf(records[|rows|], columns) == Err(err.value))
    }

    /** The data rows `to_csv` writes under `columns`. A record whose row raises ends
        the export. */
    method DataRows(columns: seq<string>) returns (rows: seq<seq<Json>>, err: Option<PyError>)
      ensures WritesRows(rows, err, columns)
    {
      rows := [];
      err := None;
      var i := 0;
      while i < |records|
        invariant 0 <= i <= |records| && |rows| == i
        invariant forall j :: 0 <= j < i ==> RowOf(records[j], columns) == Ok(rows[j])
      {
        var vals := ToDict(records[i]);
        if vals.Err? {
          return rows, Some(vals.error);
        }
        var row := Project(vals.value, columns);
        if row.Err? {
          return rows, Some(row.error);
        }
        rows := rows + [row.value];
        i := i + 1;
      }
    }

    /** `to_csv(filename, header)` as written: with a header, the header row and then
        the data rows; without one, `output_array` is never assigned, so the first
        record (after its `to_dict`) raises UnboundLocalError and nothing is written. */
    method ToCsv(header: bool) returns (rows: seq<seq<Json>>, err: Option<PyError>)
      ensures header ==> |rows| >= 1 && rows[0] == Cells(Columns()) && WritesRows(rows[1..], err, Columns())
      ensures !header ==> rows == []
      ensures !header ==> (err.None? <==> records == [])
      ensures !header && records != [] && DictOf(records[0]).Ok? ==>
                err == Some(UnboundLocalError("output_array"))
      ensures !header && records != [] && DictOf(records[0]).Err? ==>
                err == Some(DictOf(records[0]).error)
    {
      if header {
        var columns := HeaderColumns();
        var data;
        data, err := DataRows(columns);
        rows := [Cells(columns)] + data;
        assert rows[1..] == data;
      } else if records == [] {
        rows, err := [], None;
      } else {
        var vals := ToDict(records[0]);
        rows := [];
        err := if vals.Err? then Some(vals.error) else Some(UnboundLocalError("output_array"));
      }
    }

    /** `to_csv` as evidently intended: the same data rows with or without the header
        row, which is the only difference between the two. */
    method ToCsvIntended(header: bool) returns (rows: seq<seq<Json>>, err: Option<PyError>)
      ensures header ==> |rows| >= 1 && rows[0] == Cells(Columns()) && WritesRows(rows[1..], err, Columns())
      ensures !header ==> WritesRows(rows, err, Columns())
    {
      var columns := HeaderColumns();
      var data;
      data, err := DataRows(columns);
      if header {
        rows := [Cells(columns)] + data;
        assert rows[1..] == data;
      } else {
        rows := data;
      }
    }
  }

  /** `[MetricRecord(**record) for record in records]` */
  function DecodeRecords(rows: seq<Json>): (r: Result<seq<MetricRecord>>)
    ensures r.Ok? <==> forall i :: 0 <= i < |rows| ==> DecodeRecord(rows[i]).Ok?
    ensures r.Ok? ==> |r.value| == |rows| && forall i :: 0 <= i < |rows| ==> DecodeRecord(rows[i]) == Ok(r.value[i])
    ensures r.Err? ==> r.error == TypeError
  {
    MapAll(rows, DecodeRecord)
  }
}
