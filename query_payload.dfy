/**
  The metric query: the request body `query()` builds from an indicator, a time
  range, group-by fields, an optional aggregation and an optional filter, and the
  record collection it makes of the response.
 */
module QueryPayload {
  import opened PyValues
  import opened Metadata
  import opened Records

  /** `FilterClause(field, operator, values)`: its attributes are `field`, `operator`
      and `values`. */
  datatype FilterClause = FilterClause(field: string, operator: string, values: Json)

  datatype Filter = Filter(clauses: seq<FilterClause>, operator: string)

  /** The attribute the clause comprehension reads for a clause's value, as written. */
  const WrittenValueAttribute := "value"

  /** The attribute a `FilterClause` stores its values under. */
  const StoredValueAttribute := "values"

  /** `clause.<name>`: a clause has exactly the three instance attributes its
      constructor sets; reading any other instance attribute raises AttributeError. */
  function ClauseAttr(c: FilterClause, name: string): (r: Result<Json>)
    ensures r.Ok? <==> name == "field" || name == "operator" || name == "values"
    ensures r.Err? ==> r.error == AttributeError(name)
    ensures name == "field" ==> r == Ok(JStr(c.field))
    ensures name == "operator" ==> r == Ok(JStr(c.operator))
    ensures name == "values" ==> r == Ok(c.values)
  {
    if name == "field" then Ok(JStr(c.field))
    else if name == "operator" then Ok(JStr(c.operator))
    else if name == "values" then Ok(c.values)
    else Err(AttributeError(name))
  }

  /** `{"field": clause.field, "operator": clause.operator, "value": clause.<valueAttr>}` */
  function ClauseObject(c: FilterClause, valueAttr: string): Result<Json> {
    var field :- ClauseAttr(c, "field");
    var operator :- ClauseAttr(c, "operator");
    var value :- ClauseAttr(c, valueAttr);
    Ok(JObject([Entry("field", field), Entry("operator", operator), Entry("value", value)]))
  }

  /** The payload object of one clause when its values are read correctly. */
  function ClausePayload(c: FilterClause): Json {
    JObject([Entry("field", JStr(c.field)), Entry("operator", JStr(c.operator)), Entry("value", c.values)])
  }

  /** The payload objects of a clause list, in order, values read correctly. */
  function ClausePayloads(clauses: seq<FilterClause>): (r: seq<Json>)
    ensures |r| == |clauses| && forall i :: 0 <= i < |clauses| ==> r[i] == ClausePayload(clauses[i])
  {
    seq(|clauses|, i requires 0 <= i < |clauses| => ClausePayload(clauses[i]))
  }

  /** The comprehension over the filter's clauses. */
  function ClauseObjects(clauses: seq<FilterClause>, valueAttr: string): Result<seq<Json>> {
    MapAll(clauses, c => ClauseObject(c, valueAttr))
  }

  /** As written, the comprehension reads `clause.value`, which no clause has: an empty
      clause list gives `[]`, any other raises AttributeError on its first clause. */
  lemma ClauseObjectsAsWritten(clauses: seq<FilterClause>)
    ensures ClauseObjects(clauses, WrittenValueAttribute)
         == if clauses == [] then Ok([]) else Err(AttributeError("value"))
  {
    if clauses != [] {
      MapAllFirstError(clauses, c => ClauseObject(c, WrittenValueAttribute), 0);
    }
  }

  /** Reading `clause.values` instead gives one object per clause, in clause order,
      carrying the clause's field, operator and values. */
  lemma ClauseObjectsIntended(clauses: seq<FilterClause>)
    ensures ClauseObjects(clauses, StoredValueAttribute)
         == Ok(ClausePayloads(clauses))
  {
    MapAllOk(clauses, c => ClauseObject(c, StoredValueAttribute), ClausePayloads(clauses));
  }

  /** Python truthiness of the optional `aggregate` string. */
  predicate AggregateGiven(aggregate: Option<string>) {
    aggregate.Some? && aggregate.value != ""
  }

  /** The optional `group_by_clauses` entry of the filter. */
  function GroupByEntries(groupBy: seq<string>): Dict {
    if groupBy != [] then [Entry("group_by_clauses", StrList(groupBy))] else []
  }

  /** A `data_filter` object: `operator` and `filters`, then `group_by_clauses` when
      there are group-by fields. */
  function FilterObject(operator: string, filters: seq<Json>, groupBy: seq<string>): Json {
    JObject([Entry("operator", JStr(operator)), Entry("filters", JList(filters))] + GroupByEntries(groupBy))
  }

  /** The `data_filter` of `query()`: the default operator `or` and no filters, or the
      filter's operator and its clause objects. */
  function FilterPayload(groupBy: seq<string>, queryFilter: Option<Filter>, valueAttr: string): Result<Json> {
    match queryFilter
    case None => Ok(FilterObject("or", [], groupBy))
    case Some(f) =>
      var objs :- ClauseObjects(f.clauses, valueAttr);
      Ok(FilterObject(f.operator, objs, groupBy))
  }

  /** A request body: `indicator_id`, `filter`, `time_range` (epoch milliseconds), then
      `aggregation` when an aggregation is given. */
  function PayloadObject(indicator: Indicator, filter: Json, fromMs: int, toMs: int, aggregate: Option<string>): Json {
    var timeRange := JObject([Entry("from_ts", JInt(fromMs)), Entry("to_ts", JInt(toMs))]);
    JObject([Entry("indicator_id", indicator.id), Entry("filter", filter), Entry("time_range", timeRange)]
            + (if AggregateGiven(aggregate) then [Entry("aggregation", JStr(aggregate.value))] else []))
  }

  /** The request body `query()` sends. */
  function Payload(indicator: Indicator, fromMs: int, toMs: int, groupBy: seq<string>,
                   aggregate: Option<string>, queryFilter: Option<Filter>, valueAttr: string): Result<Json>
  {
    var filter :- FilterPayload(groupBy, queryFilter, valueAttr);
    Ok(PayloadObject(indicator, filter, fromMs, toMs, aggregate))
  }

  /** `data_filter` as `query()` fills it in: the default operator and empty filter
      list, then `group_by_clauses` when there are group-by fields, then the filter's
      operator and clause objects when a filter is given. `valueAttr` is the clause
      attribute the comprehension reads. */
  method BuildDataFilter(groupBy: seq<string>, queryFilter: Option<Filter>, valueAttr: string)
    returns (r: Result<Json>)
    ensures r == FilterPayload(groupBy, queryFilter, valueAttr)
  {
    var dataFilter := [Entry("operator", JStr("or")), Entry("filters", JList([]))];
    if groupBy != [] {
      PutNew(dataFilter, "group_by_clauses", StrList(groupBy));
      dataFilter := Put(dataFilter, "group_by_clauses", StrList(groupBy));
    }
    assert JObject(dataFilter) == FilterObject("or", [], groupBy);
    if queryFilter.Some? {
      var f := queryFilter.value;
      PutExisting(dataFilter, 0, "operator", JStr(f.operator));
      dataFilter := Put(dataFilter, "operator", JStr(f.operator));
      var objs :- ClauseObjects(f.clauses, valueAttr);
      PutExisting(dataFilter, 1, "filters", JList(objs));
      dataFilter := Put(dataFilter, "filters", JList(objs));
      assert dataFilter == [Entry("operator", JStr(f.operator)), Entry("filters", JList(objs))] + GroupByEntries(groupBy);
    }
    r := Ok(JObject(dataFilter));
  }

  /** The body of `query()` up to the request: `data` holds the indicator id, the
      filter and the time range, and gains `aggregation` when one is given. */
  method BuildPayload(indicator: Indicator, fromMs: int, toMs: int, groupBy: seq<string>,
                      aggregate: Option<string>, queryFilter: Option<Filter>, valueAttr: string)
    returns (r: Result<Json>)
    ensures r == Payload(indicator, fromMs, toMs, groupBy, aggregate, queryFilter, valueAttr)
  {
    var dataFilter :- BuildDataFilter(groupBy, queryFilter, valueAttr);
    var data := [Entry("indicator_id", indicator.id), Entry("filter", dataFilter),
                 Entry("time_range", JObject([Entry("from_ts", JInt(fromMs)), Entry("to_ts", JInt(toMs))]))];
    if AggregateGiven(aggregate) {
      PutNew(data, "aggregation", JStr(aggregate.value));
      data := Put(data, "aggregation", JStr(aggregate.value));
    } else {
      assert data == data + [];
    }
    r := Ok(JObject(data));
  }

  /** A filter object's keys: `operator` and `filters`, then `group_by_clauses`
      exactly when there are group-by fields. */
  lemma FilterObjectKeys(operator: string, filters: seq<Json>, groupBy: seq<string>)
    ensures KeysOf(FilterObject(operator, filters, groupBy))
         == ["operator", "filters"] + (if groupBy != [] then ["group_by_clauses"] else [])
  {
    KeysEach(FilterObject(operator, filters, groupBy).entries);
  }

  /** A filter object holds its operator, its filter list and, when there are
      group-by fields, those fields in order. */
  lemma FilterObjectFields(operator: string, filters: seq<Json>, groupBy: seq<string>)
    ensures var fp := FilterObject(operator, filters, groupBy);
            && At(fp, ["operator"]) == Some(JStr(operator))
            && At(fp, ["filters"]) == Some(JList(filters))
            && (groupBy != [] ==> At(fp, ["group_by_clauses"]) == Some(StrList(groupBy)))
  {
    var d := FilterObject(operator, filters, groupBy).entries;
    LookupFirst(d, 0);
    LookupFirst(d, 1);
    if groupBy != [] {
      LookupFirst(d, 2);
    }
  }

  /** A request body's keys: `indicator_id`, `filter` and `time_range` in that order,
      then `aggregation` exactly when an aggregation is given. */
  lemma PayloadObjectKeys(indicator: Indicator, filter: Json, fromMs: int, toMs: int, aggregate: Option<string>)
    ensures KeysOf(PayloadObject(indicator, filter, fromMs, toMs, aggregate))
         == ["indicator_id", "filter", "time_range"] + (if AggregateGiven(aggregate) then ["aggregation"] else [])
  {
    KeysEach(PayloadObject(indicator, filter, fromMs, toMs, aggregate).entries);
  }

  /** A request body carries the indicator's id, the filter and the aggregation it was
      built from. */
  lemma PayloadObjectFields(indicator: Indicator, filter: Json, fromMs: int, toMs: int, aggregate: Option<string>)
    ensures var p := PayloadObject(indicator, filter, fromMs, toMs, aggregate);
            && At(p, ["indicator_id"]) == Some(indicator.id)
            && At(p, ["filter"]) == Some(filter)
            && (AggregateGiven(aggregate) ==> At(p, ["aggregation"]) == Some(JStr(aggregate.value)))
  {
    var d := PayloadObject(indicator, filter, fromMs, toMs, aggregate).entries;
    LookupFirst(d, 0);
    LookupFirst(d, 1);
    if AggregateGiven(aggregate) {
      LookupFirst(d, 3);
    }
  }

  /** A request body's time range holds the two timestamps. */
  lemma PayloadObjectTimeRange(indicator: Indicator, filter: Json, fromMs: int, toMs: int, aggregate: Option<string>)
    ensures var p := PayloadObject(indicator, filter, fromMs, toMs, aggregate);
            && At(p, ["time_range", "from_ts"]) == Some(JInt(fromMs))
            && At(p, ["time_range", "to_ts"]) == Some(JInt(toMs))
  {
    var d := PayloadObject(indicator, filter, fromMs, toMs, aggregate).entries;
    LookupFirst(d, 2);
    var timeRange := d[2].val;
    LookupFirst(timeRange.entries, 0);
    LookupFirst(timeRange.entries, 1);
    assert ["time_range", "from_ts"][1..] == ["from_ts"] && ["from_ts"][1..] == [];
    assert ["time_range", "to_ts"][1..] == ["to_ts"] && ["to_ts"][1..] == [];
  }

  /** Without a filter the `data_filter` is `{'operator': 'or', 'filters': []}` plus the
      group-by clauses; with one, it carries the filter's operator. */
  lemma FilterPayloadOperator(groupBy: seq<string>, queryFilter: Option<Filter>, valueAttr: string)
    requires FilterPayload(groupBy, queryFilter, valueAttr).Ok?
    ensures var fp := FilterPayload(groupBy, queryFilter, valueAttr).value;
            && At(fp, ["operator"]) == Some(JStr(if queryFilter.Some? then queryFilter.value.operator else "or"))
            && (queryFilter.None? ==> At(fp, ["filters"]) == Some(JList([])))
  {
    match queryFilter
    case None => FilterObjectFields("or", [], groupBy);
    case Some(f) =>
      var objs := ClauseObjects(f.clauses, valueAttr).value;
      FilterObjectFields(f.operator, objs, groupBy);
  }

  /** As written, a filter with clauses makes `query()` raise AttributeError for
      `value` before any request is sent; with no filter or no clauses the payload is
      built. */
  lemma PayloadAsWritten(indicator: Indicator, fromMs: int, toMs: int, groupBy: seq<string>,
                         aggregate: Option<string>, queryFilter: Option<Filter>)
    ensures var p := Payload(indicator, fromMs, toMs, groupBy, aggregate, queryFilter, WrittenValueAttribute);
            && (p.Ok? <==> queryFilter.None? || queryFilter.value.clauses == [])
            && (p.Err? ==> p.error == AttributeError("value"))
  {
    if queryFilter.Some? {
      ClauseObjectsAsWritten(queryFilter.value.clauses);
    }
  }

  /** Reading `values` instead, every filter is sent: its clauses become one object
      each, in clause order. */
  lemma FilterPayloadIntended(groupBy: seq<string>, f: Filter)
    ensures FilterPayload(groupBy, Some(f), StoredValueAttribute)
         == Ok(FilterObject(f.operator, ClausePayloads(f.clauses), groupBy))
  {
    ClauseObjectsIntended(f.clauses);
  }

  /** The records of a query response: `response['records']`, each row passed to
      `MetricRecord(**row)`. */
  function ResponseRecords(response: Json): (r: Result<seq<MetricRecord>>)
    ensures r == match Subscript(response, "records")
                 case Err(e) => Err(e)
                 case Ok(rows) => (match Iterate(rows)
                                   case Err(e) => Err(e)
                                   case Ok(items) => MapAll(items, DecodeRecord))
    ensures r.Ok? ==>
              && Subscript(response, "records").Ok?
              && Iterate(Subscript(response, "records").value).Ok?
              && var rows := Iterate(Subscript(response, "records").value).value;
                 && |r.value| == |rows|
                 && forall i :: 0 <= i < |rows| ==> DecodeRecord(rows[i]) == Ok(r.value[i])
  {
    var rows :- Subscript(response, "records");
    var items :- Iterate(rows);
    DecodeRecords(items)
  }

  /** `query(...)`: the payload is built as written, sent to the server, and the
      response's records become a fresh collection with its cursor at the start. The
      server is a parameter. */
  method Query(indicator: Indicator, fromMs: int, toMs: int, groupBy: seq<string>,
               aggregate: Option<string>, queryFilter: Option<Filter>, server: Json -> Json)
    returns (r: Result<MetricRecordList>)
    ensures var payload := Payload(indicator, fromMs, toMs, groupBy, aggregate, queryFilter, WrittenValueAttribute);
            && (payload.Err? ==> r == Err(payload.error))
            && (payload.Ok? && ResponseRecords(server(payload.value)).Err? ==>
                  r == Err(ResponseRecords(server(payload.value)).error))
            && (payload.Ok? && ResponseRecords(server(payload.value)).Ok? ==>
                  && r.Ok? && fresh(r.value) && r.value.Valid() && r.value.index == 0
                  && r.value.groupByFields == groupBy
                  && r.value.records == ResponseRecords(server(payload.value)).value)
  {
    var data :- BuildPayload(indicator, fromMs, toMs, groupBy, aggregate, queryFilter, WrittenValueAttribute);
    var records :- ResponseRecords(server(data));
    var list := new MetricRecordList(groupBy, records);
    r := Ok(list);
  }
}
