/**
  The metadata objects of the analytics API as `lariat_client` decodes them:
  indicators (with their synthesized query text), datasets, raw datasets and
  schema fields.
 */
module Metadata {
  import opened PyValues
  import opened PyText

  /** `Indicator`: every attribute holds what the response object held, except `query`. */
  datatype Indicator = Indicator(
    id: Json, datasetId: Json, datasetName: Json, query: Json,
    aggregations: Json, name: Json, dimensions: Json, tags: Json)

  datatype Dataset = Dataset(dataSource: Json, sourceId: Json, name: Json, id: Json, query: Json, schema: Json)

  datatype RawDataset = RawDataset(sourceId: Json, dataSource: Json, name: Json, schema: Json)

  /** A flattened schema path of one dataset. */
  datatype Field = Field(datasetId: Json, name: string)

  /** The keys an indicator object must have, in the order the decoder reads them. */
  const IndicatorKeys: seq<string> :=
    ["calculation", "computed_dataset_name", "filters", "group_fields",
     "indicator_id", "computed_dataset_id", "name"]

  /** The query text shown for an indicator:
      `SELECT <calculation> AS value FROM <dataset>[ WHERE <filters>][ GROUP BY <group fields>]`,
      each part written as an f-string writes it, each optional clause present when its
      value is truthy. */
  function QueryText(calculation: Json, datasetName: Json, filters: Json, groupFields: Json): string {
    "SELECT " + Str(calculation) + " AS value FROM " + Str(datasetName)
      + (if Truthy(filters) then " WHERE " + Str(filters) else "")
      + (if Truthy(groupFields) then " GROUP BY " + Str(groupFields) else "")
  }

  /** The query text as `get_indicators` grows it: the SELECT clause, then `+=` of each
      optional clause whose value is truthy. */
  method BuildQueryText(calculation: Json, datasetName: Json, filters: Json, groupFields: Json)
    returns (query: string)
    ensures query == QueryText(calculation, datasetName, filters, groupFields)
  {
    var select := "SELECT " + Str(calculation) + " AS value FROM " + Str(datasetName);
    query := select;
    if Truthy(filters) {
      query := query + (" WHERE " + Str(filters));
    } else {
      assert query == query + "";
    }
    if Truthy(groupFields) {
      query := query + (" GROUP BY " + Str(groupFields));
    } else {
      assert query == query + "";
    }
  }

  /** The text always opens with the SELECT clause; the WHERE clause follows it exactly
      when the filters are truthy, and the GROUP BY clause closes it exactly when the
      group fields are truthy. */
  lemma QueryTextParts(calculation: Json, datasetName: Json, filters: Json, groupFields: Json)
    ensures var q := QueryText(calculation, datasetName, filters, groupFields);
            var select := "SELECT " + Str(calculation) + " AS value FROM " + Str(datasetName);
            var where := " WHERE " + Str(filters);
            var groupBy := " GROUP BY " + Str(groupFields);
            && |select| <= |q| && q[..|select|] == select
            && (Truthy(filters) ==> |select| + |where| <= |q| && q[|select|..|select| + |where|] == where)
            && (!Truthy(filters) && !Truthy(groupFields) ==> q == select)
            && (Truthy(groupFields) ==> |groupBy| <= |q| && q[|q| - |groupBy|..] == groupBy)
            && (!Truthy(groupFields) ==> Truthy(filters) ==> q == select + where)
            && (!Truthy(filters) && Truthy(groupFields) ==> q == select + groupBy)
            && (Truthy(filters) && Truthy(groupFields) ==> q == select + where + groupBy)
  {
    var select := "SELECT " + Str(calculation) + " AS value FROM " + Str(datasetName);
    var where := if Truthy(filters) then " WHERE " + Str(filters) else "";
    var groupBy := if Truthy(groupFields) then " GROUP BY " + Str(groupFields) else "";
    assert QueryText(calculation, datasetName, filters, groupFields) == select + where + groupBy;
    ConcatParts(select, where, groupBy);
  }

  /** Where each of three concatenated strings sits in the result. */
  lemma ConcatParts(a: string, b: string, c: string)
    ensures var q := a + b + c;
            && q[..|a|] == a && q[|a|..|a| + |b|] == b && q[|q| - |c|..] == c
            && (b == [] && c == [] ==> q == a)
            && (c == [] ==> q == a + b)
  {
  }

  /** A calculation over a dataset with empty filters and no group fields. */
  lemma QueryTextWithoutClauses()
    ensures QueryText(JStr("SUM(x)"), JStr("orders"), JStr(""), JList([]))
         == "SELECT SUM(x) AS value FROM orders"
  {
  }

  /** Group fields that are a list are written with Python's list syntax: one plain
      field `f` gives the clause ` GROUP BY ['f']`. */
  lemma GroupFieldsListText(field: string)
    requires Plain(field)
    ensures Str(StrList([field])) == "['" + field + "']"
  {
    var fields := StrList([field]);
    assert fields == JList([JStr(field)]);
    var parts := seq(1, i requires 0 <= i < 1 => Repr(fields.elems[i]));
    assert Str(fields) == "[" + Join(parts) + "]";
    assert parts == [ReprStr(field)];
    assert Join(parts) == ReprStr(field);
    ReprPlain(field);
  }

  /** The `Indicator` built from one indicator object of a response: the query text is
      synthesized, `aggregations` and `tags` default to empty lists. */
  function IndicatorFromObject(obj: Json): (r: Result<Indicator>)
    ensures !obj.JObject? ==> r == Err(TypeError)
    ensures obj.JObject? ==>
              && (r.Err? ==> r.error.KeyError? && r.error.key in IndicatorKeys && r.error.key !in Keys(obj.entries))
    ensures r.Ok? ==>
              var d := obj.entries;
              && Lookup(d, "indicator_id") == Some(r.value.id)
              && Lookup(d, "computed_dataset_id") == Some(r.value.datasetId)
              && Lookup(d, "computed_dataset_name") == Some(r.value.datasetName)
              && Lookup(d, "name") == Some(r.value.name)
              && Lookup(d, "group_fields") == Some(r.value.dimensions)
              && "calculation" in Keys(d) && "filters" in Keys(d)
              && r.value.query == JStr(QueryText(Lookup(d, "calculation").value, r.value.datasetName,
                                                 Lookup(d, "filters").value, r.value.dimensions))
              && r.value.aggregations == (if "aggregations" in Keys(d) then Lookup(d, "aggregations").value
                                          else JList([]))
              && r.value.tags == (if "tags" in Keys(d) then Lookup(d, "tags").value else JList([]))
  {
    var calculation :- Subscript(obj, "calculation");
    var datasetName :- Subscript(obj, "computed_dataset_name");
    var filters :- Subscript(obj, "filters");
    var groupFields :- Subscript(obj, "group_fields");
    var id :- Subscript(obj, "indicator_id");
    var datasetId :- Subscript(obj, "computed_dataset_id");
    var aggregations := GetOr(obj, "aggregations", JList([])).value;
    var name :- Subscript(obj, "name");
    var tags := GetOr(obj, "tags", JList([])).value;
    Ok(Indicator(id, datasetId, datasetName, JStr(QueryText(calculation, datasetName, filters, groupFields)),
                 aggregations, name, groupFields, tags))
  }

  const DatasetKeys: seq<string> := ["data_source", "source_id", "dataset_name", "id", "query", "schema"]

  /** A `Dataset` built from one computed-dataset object; its name is the object's
      `dataset_name`. */
  function DatasetFromObject(obj: Json): (r: Result<Dataset>)
    ensures !obj.JObject? ==> r == Err(TypeError)
    ensures obj.JObject? ==>
              && (r.Err? ==> r.error.KeyError? && r.error.key in DatasetKeys && r.error.key !in Keys(obj.entries))
    ensures r.Ok? ==>
              var d := obj.entries;
              && Lookup(d, "data_source") == Some(r.value.dataSource)
              && Lookup(d, "source_id") == Some(r.value.sourceId)
              && Lookup(d, "dataset_name") == Some(r.value.name)
              && Lookup(d, "id") == Some(r.value.id)
              && Lookup(d, "query") == Some(r.value.query)
              && Lookup(d, "schema") == Some(r.value.schema)
  {
    var dataSource :- Subscript(obj, "data_source");
    var sourceId :- Subscript(obj, "source_id");
    var name :- Subscript(obj, "dataset_name");
    var id :- Subscript(obj, "id");
    var query :- Subscript(obj, "query");
    var schema :- Subscript(obj, "schema");
    Ok(Dataset(dataSource, sourceId, name, id, query, schema))
  }

  const RawDatasetKeys: seq<string> := ["source_id", "data_source", "name", "schema"]

  function RawDatasetFromObject(obj: Json): (r: Result<RawDataset>)
    ensures !obj.JObject? ==> r == Err(TypeError)
    ensures obj.JObject? ==>
              && (r.Err? ==> r.error.KeyError? && r.error.key in RawDatasetKeys && r.error.key !in Keys(obj.entries))
    ensures r.Ok? ==>
              var d := obj.entries;
              && Lookup(d, "source_id") == Some(r.value.sourceId)
              && Lookup(d, "data_source") == Some(r.value.dataSource)
              && Lookup(d, "name") == Some(r.value.name)
              && Lookup(d, "schema") == Some(r.value.schema)
  {
    var sourceId :- Subscript(obj, "source_id");
    var dataSource :- Subscript(obj, "data_source");
    var name :- Subscript(obj, "name");
    var schema :- Subscript(obj, "schema");
    Ok(RawDataset(sourceId, dataSource, name, schema))
  }

  /** `Dataset.get_schema_fields`: one field per flattened schema key, in key order,
      each tagged with the dataset's id. The flattening itself is a parameter. */
  function SchemaFields(dataset: Dataset, flattenKeys: Json -> seq<string>): (r: seq<Field>)
    ensures |r| == |flattenKeys(dataset.schema)|
    ensures forall i :: 0 <= i < |r| ==> r[i].datasetId == dataset.id
  {
    var keys := flattenKeys(dataset.schema);
    seq(|keys|, i requires 0 <= i < |keys| => Field(dataset.id, keys[i]))
  }

  function FieldNames(fields: seq<Field>): seq<string> {
    seq(|fields|, i requires 0 <= i < |fields| => fields[i].name)
  }

  /** The fields' names give back the flattened keys, in order. */
  lemma SchemaFieldNames(dataset: Dataset, flattenKeys: Json -> seq<string>)
    ensures FieldNames(SchemaFields(dataset, flattenKeys)) == flattenKeys(dataset.schema)
  {
  }

}
