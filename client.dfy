/**
  The module-level operations of `lariat_client`: the listing and lookup calls
  after their HTTP request has returned, the request parameters they send, and
  the session's credential headers.
 */
module Client {
  import opened PyValues
  import opened Metadata

  /** `get_indicators` after the request: the objects of the response's `indicators`
      list, decoded and appended one at a time; the first that fails raises. */
  method GetIndicators(response: Json) returns (r: Result<seq<Indicator>>)
    ensures Subscript(response, "indicators").Err? ==> r == Err(Subscript(response, "indicators").error)
    ensures Subscript(response, "indicators").Ok? ==>
              var objs := Iterate(Subscript(response, "indicators").value);
              r == if objs.Err? then Err(objs.error) else MapAll(objs.value, IndicatorFromObject)
  {
    var list :- Subscript(response, "indicators");
    var objs :- Iterate(list);
    r := Collect(objs, IndicatorFromObject);
  }

  /** `get_indicator` after the request: the response's `indicator` object, decoded. */
  method GetIndicator(response: Json) returns (r: Result<Indicator>)
    ensures Subscript(response, "indicator").Err? ==> r == Err(Subscript(response, "indicator").error)
    ensures Subscript(response, "indicator").Ok? ==>
              r == IndicatorFromObject(Subscript(response, "indicator").value)
  {
    var obj :- Subscript(response, "indicator");
    r := IndicatorFromObject(obj);
  }

  /** The query parameters of the indicator listing: each key is present only when
      its argument is non-empty. */
  datatype IndicatorsRequest = IndicatorsRequest(
    datasetId: Option<seq<Json>>, tags: Option<seq<string>>, fields: Option<seq<Field>>)

  /** `params` of `get_indicators`, filled in one conditional assignment at a time. */
  method IndicatorParams(datasets: seq<Dataset>, tags: seq<string>, fields: seq<Field>)
    returns (params: IndicatorsRequest)
    ensures params.datasetId.Some? <==> datasets != []
    ensures params.datasetId.Some? ==>
              && |params.datasetId.value| == |datasets|
              && forall i :: 0 <= i < |datasets| ==> params.datasetId.value[i] == datasets[i].id
    ensures params.tags.Some? <==> tags != []
    ensures params.tags.Some? ==> params.tags.value == tags
    ensures params.fields.Some? <==> fields != []
    ensures params.fields.Some? ==> params.fields.value == fields
  {
    params := IndicatorsRequest(None, None, None);
    if datasets != [] {
      params := params.(datasetId := Some(seq(|datasets|, i requires 0 <= i < |datasets| => datasets[i].id)));
    }
    if tags != [] {
      params := params.(tags := Some(tags));
    }
    if fields != [] {
      params := params.(fields := Some(fields));
    }
  }

  /** `Dataset.get_indicators`: the listing restricted to this one dataset's id. */
  method DatasetIndicatorParams(dataset: Dataset) returns (params: IndicatorsRequest)
    ensures params == IndicatorsRequest(Some([dataset.id]), None, None)
  {
    params := IndicatorParams([dataset], [], []);
    assert params.datasetId.value == [dataset.id];
  }

  /** `get_datasets` after the request: every object of `computed_datasets`, in order. */
  function DatasetsOf(response: Json): (r: Result<seq<Dataset>>)
    ensures r == match Subscript(response, "computed_datasets")
                 case Err(e) => Err(e)
                 case Ok(list) => (match Iterate(list)
                                   case Err(e) => Err(e)
                                   case Ok(objs) => MapAll(objs, DatasetFromObject))
    ensures r.Ok? ==>
              && Subscript(response, "computed_datasets").Ok?
              && Iterate(Subscript(response, "computed_datasets").value).Ok?
              && var objs := Iterate(Subscript(response, "computed_datasets").value).value;
                 && |r.value| == |objs|
                 && forall i :: 0 <= i < |objs| ==> DatasetFromObject(objs[i]) == Ok(r.value[i])
  {
    var list :- Subscript(response, "computed_datasets");
    var objs :- Iterate(list);
    MapAll(objs, DatasetFromObject)
  }

  /** `get_dataset` after the request: None for a falsy response, otherwise the first
      dataset `get_datasets` would list; IndexError when that list is empty. */
  function FirstDataset(response: Json): (r: Result<Option<Dataset>>)
    ensures !Truthy(response) ==> r == Ok(None)
    ensures Truthy(response) && DatasetsOf(response).Err? ==> r == Err(DatasetsOf(response).error)
    ensures Truthy(response) && DatasetsOf(response) == Ok([]) ==> r == Err(IndexError)
    ensures Truthy(response) && DatasetsOf(response).Ok? && DatasetsOf(response).value != [] ==>
              r == Ok(Some(DatasetsOf(response).value[0]))
  {
    if !Truthy(response) then Ok(None)
    else
      var list :- Subscript(response, "computed_datasets");
      var objs :- Iterate(list);
      var datasets :- MapAll(objs, DatasetFromObject);
      if |datasets| == 0 then Err(IndexError) else Ok(Some(datasets[0]))
  }

  /** `get_raw_datasets` after the request: every object of `raw_datasets`, in order. */
  function RawDatasetsOf(response: Json): (r: Result<seq<RawDataset>>)
    ensures r == match Subscript(response, "raw_datasets")
                 case Err(e) => Err(e)
                 case Ok(list) => (match Iterate(list)
                                   case Err(e) => Err(e)
                                   case Ok(objs) => MapAll(objs, RawDatasetFromObject))
    ensures r.Ok? ==>
              && Subscript(response, "raw_datasets").Ok?
              && Iterate(Subscript(response, "raw_datasets").value).Ok?
              && var objs := Iterate(Subscript(response, "raw_datasets").value).value;
                 && |r.value| == |objs|
                 && forall i :: 0 <= i < |objs| ==> RawDatasetFromObject(objs[i]) == Ok(r.value[i])
  {
    var list :- Subscript(response, "raw_datasets");
    var objs :- Iterate(list);
    MapAll(objs, RawDatasetFromObject)
  }

  const ApplicationKeyHeader := "X-Lariat-Application-Key"
  const ApiKeyHeader := "X-Lariat-Api-Key"

  /** The process-wide HTTP session; only its headers are modelled. */
  class Session {
    var headers: map<string, string>

    constructor (headers: map<string, string>)
      ensures this.headers == headers
    {
      this.headers := headers;
    }

    /** `configure(api_key, application_key)`: the two credential headers take the
        given keys; every other header is left as it was. */
    method Configure(apiKey: string, applicationKey: string)
      modifies this
      ensures headers == old(headers)[ApplicationKeyHeader := applicationKey][ApiKeyHeader := apiKey]
      ensures headers[ApplicationKeyHeader] == applicationKey && headers[ApiKeyHeader] == apiKey
      ensures headers.Keys == old(headers).Keys + {ApplicationKeyHeader, ApiKeyHeader}
      ensures forall h :: h in old(headers) && h != ApplicationKeyHeader && h != ApiKeyHeader ==>
                headers[h] == old(headers)[h]
    {
      headers := headers[ApplicationKeyHeader := applicationKey][ApiKeyHeader := apiKey];
    }
  }
}
