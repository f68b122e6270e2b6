/**
  What `lariat_public_api.client` does differently from `lariat_client`: an
  indicator's query is the server's `computed_dataset_query`, taken as it is.
  Everything else it shares (records, the query and its payload, parameters,
  datasets, schema fields) is the model in the other modules.
 */
module PublicApi {
  import opened PyValues
  import opened Metadata

  /** The keys an indicator object must have here, in the order they are read. */
  const PublicIndicatorKeys: seq<string> :=
    ["indicator_id", "computed_dataset_id", "computed_dataset_name", "computed_dataset_query",
     "name", "group_fields"]

  /** The `Indicator` built from one response object: every attribute is read from the
      object, `query` from `computed_dataset_query`; `aggregations` and `tags` default
      to empty lists. */
  function IndicatorFromObject(obj: Json): (r: Result<Indicator>)
    ensures !obj.JObject? ==> r == Err(TypeError)
    ensures obj.JObject? ==>
              (r.Err? ==> r.error.KeyError? && r.error.key in PublicIndicatorKeys
                          && r.error.key !in Keys(obj.entries))
    ensures r.Ok? ==>
              var d := obj.entries;
              && Lookup(d, "indicator_id") == Some(r.value.id)
              && Lookup(d, "computed_dataset_id") == Some(r.value.datasetId)
              && Lookup(d, "computed_dataset_name") == Some(r.value.datasetName)
              && Lookup(d, "computed_dataset_query") == Some(r.value.query)
              && Lookup(d, "name") == Some(r.value.name)
              && Lookup(d, "group_fields") == Some(r.value.dimensions)
              && r.value.aggregations == (if "aggregations" in Keys(d) then Lookup(d, "aggregations").value
                                          else JList([]))
              && r.value.tags == (if "tags" in Keys(d) then Lookup(d, "tags").value else JList([]))
  {
    var id :- Subscript(obj, "indicator_id");
    var datasetId :- Subscript(obj, "computed_dataset_id");
    var datasetName :- Subscript(obj, "computed_dataset_name");
    var query :- Subscript(obj, "computed_dataset_query");
    var aggregations := GetOr(obj, "aggregations", JList([])).value;
    var name :- Subscript(obj, "name");
    var groupFields :- Subscript(obj, "group_fields");
    var tags := GetOr(obj, "tags", JList([])).value;
    Ok(Indicator(id, datasetId, datasetName, query, aggregations, name, groupFields, tags))
  }

  /** `get_indicators` after the request: one indicator per object of the response's
      `indicators` list, in order; the first object that fails raises. */
  function IndicatorsOf(response: Json): (r: Result<seq<Indicator>>)
    ensures r == match Subscript(response, "indicators")
                 case Err(e) => Err(e)
                 case Ok(list) => (match Iterate(list)
                                   case Err(e) => Err(e)
                                   case Ok(objs) => MapAll(objs, IndicatorFromObject))
    ensures r.Ok? ==>
              && Subscript(response, "indicators").Ok?
              && Iterate(Subscript(response, "indicators").value).Ok?
              && var objs := Iterate(Subscript(response, "indicators").value).value;
                 && |r.value| == |objs|
                 && forall i :: 0 <= i < |objs| ==> IndicatorFromObject(objs[i]) == Ok(r.value[i])
  {
    var list :- Subscript(response, "indicators");
    var objs :- Iterate(list);
    MapAll(objs, IndicatorFromObject)
  }

  /** `get_indicator` after the request: the response's `indicator` object, decoded. */
  function IndicatorOf(response: Json): (r: Result<Indicator>)
    ensures Subscript(response, "indicator").Err? ==> r == Err(Subscript(response, "indicator").error)
    ensures Subscript(response, "indicator").Ok? ==>
              r == IndicatorFromObject(Subscript(response, "indicator").value)
  {
    var obj :- Subscript(response, "indicator");
    IndicatorFromObject(obj)
  }

  /** When both clients decode the same object, they agree on every attribute except
      the query: one synthesizes it, the other takes the server's. */
  lemma DecodersAgree(obj: Json)
    requires IndicatorFromObject(obj).Ok? && Metadata.IndicatorFromObject(obj).Ok?
    ensures var p := IndicatorFromObject(obj).value;
            var l := Metadata.IndicatorFromObject(obj).value;
            p == l.(query := p.query)
  {
  }

  /** An object the synthesizing decoder accepts is accepted here exactly when it
      also carries `computed_dataset_query`. */
  lemma DecoderAcceptsWithQuery(obj: Json)
    requires Metadata.IndicatorFromObject(obj).Ok?
    ensures IndicatorFromObject(obj).Ok? <==> "computed_dataset_query" in Keys(obj.entries)
  {
  }
}
