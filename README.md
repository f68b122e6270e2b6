# Lariat Python SDK: data-shaping core

This project models the deterministic part of the Lariat Python SDK. It sits
between the caller and the HTTP transport, and the two client modules
`lariat_client/lariat_client.py` and `lariat_public_api/client/client.py` both
hold a copy of it. Every property is stated about the model and proved by Dafny.

The model covers:

- metric records, `MetricRecord.to_dict`, and the `MetricRecordList` collection: its cursor (`__iter__` / `__next__`) and the rows its CSV export writes;
- the request body `query()` builds from an indicator, a time range, group-by fields, an optional aggregation and an optional `Filter`;
- decoding of indicator objects:
  - `lariat_client` synthesizes `SELECT … AS value FROM …[ WHERE …][ GROUP BY …]` from the object's fields;
  - `lariat_public_api` takes `computed_dataset_query` as it is;
- decoding of datasets and raw datasets, the first-or-None choice of `get_dataset`, and the request parameters of `get_indicators`;
- `configure` on the session headers;
- `Dataset.get_schema_fields`.

Python values are modelled as decoded JSON (`PyValues.Json`):
- A dict is its entries in insertion order. `d[k] = v` keeps an existing key's position and appends a new key (`PyValues.Put`).
- A raised exception is the `Err` case of `PyValues.Result`.
- A comprehension that may raise is `PyValues.MapAll`. The loop that appends one element at a time is `PyValues.Collect`, proved equal to it.
- `str()` and `repr()` of values, which f-strings insert, are in `PyText`.

In the public-API module, `MetricRecord`, `MetricRecordList`, `query`, `get_indicators`' parameters, the dataset comprehensions, `get_dataset`, `configure` and `get_schema_fields` shape the response data with the same code as in `lariat_client`, and share its model. The request side differs: the public functions call neither `raise_for_status()` nor wrap the request in `try`/`except`, and the public `get_dataset` takes `(source_id=None, name=None)`; both are left out with HTTP and error handling. The table cites `lariat_client`; the same code sits in `lariat_public_api/client/client.py` at these lines:
- schema fields: 78-80;
- `to_dict`: 108-115;
- `MetricRecordList`: 118-131;
- `to_csv`: 137-147;
- `configure`: 151-155;
- raw datasets: 160-164;
- `get_dataset`: 169-177;
- `get_indicators` parameters: 190-196;
- `query`, clause comprehension and the return of the record list included: 224-268, apart from two `print` calls and the missing `raise_for_status()`/`try`.

`PublicApi` models only what differs: the indicator decoding, whose query is the server's `computed_dataset_query`.

Modules:
- `PyValues` (py_values.dfy): Python values and built-ins.
- `PyText` (py_text.dfy): `str` and `repr`.
- `Metadata` (metadata.dfy): indicators, datasets and fields.
- `Records` (records.dfy): metric records and the record list.
- `QueryPayload` (query_payload.dfy): the request body of `query()`.
- `Client` (client.dfy): module-level calls after their response has arrived.
- `PublicApi` (public_api.dfy): what differs in `lariat_public_api`.

## Model

| member | source | states |
|---|---|---|
| PyValues.LookupPut | lariat_client/lariat_client.py:243 | after `d[k] = v`, `k` maps to `v` and every other key keeps its value |
| PyValues.PutNew | lariat_client/lariat_client.py:510 | assigning a key the dict lacks appends the entry at the end |
| PyValues.PutExisting | lariat_client/lariat_client.py:512 | assigning a key the dict has replaces that entry where it stands |
| PyValues.LookupPutAll | lariat_client/lariat_client.py:242-243 | after assigning every dimension into a dict, a key maps to its dimension value if it has one, else to its old value |
| PyValues.KeysPutAll | lariat_client/lariat_client.py:242-243 | after those assignments the keys are the old keys in order, then the new keys in dimension order |
| PyValues.Subscript | lariat_client/lariat_client.py:415 | `j[k]` succeeds exactly when `j` is a dict holding `k`, and gives its value; KeyError for a missing key, TypeError for a non-dict |
| PyValues.GetOr | lariat_client/lariat_client.py:425 | `j.get(k, default)` on a dict gives the value of `k` when present, else the default; on anything else AttributeError `get` |
| PyValues.Iterate | lariat_client/lariat_client.py:414 | a `for` loop visits a list's elements, a dict's keys or a string's characters; anything else raises TypeError, and that is the only error |
| PyValues.MapAll | lariat_client/lariat_client.py:374-380 | a comprehension succeeds exactly when every element does, one result per element in order; otherwise it raises what the first failing element raises |
| PyValues.MapAllOk | lariat_client/lariat_client.py:374-380 | a comprehension whose elements all succeed gives exactly their values |
| PyValues.MapAllFirstError | lariat_client/lariat_client.py:374-380 | a comprehension raises the error of its first failing element |
| PyValues.Collect | lariat_client/lariat_client.py:413-430 | the append loop gives what the comprehension gives, error included |
| PyText.NatToDecimal | lariat_client/lariat_client.py:415 | `str(n)` is a non-empty string of digits with no leading zero |
| PyText.DecimalRoundTrip | lariat_client/lariat_client.py:415 | reading back `str(n)` gives `n` |
| PyText.EscapeRoundTrip | lariat_client/lariat_client.py:417-419 | the escaping `repr()` applies inside a list or dict can be undone |
| PyText.ReprStr | lariat_client/lariat_client.py:417-419 | `repr(s)` is quoted with the quote Python picks, and its body reads back as `s` |
| PyText.ReprPlain | lariat_client/lariat_client.py:419 | a string with nothing to escape is written between single quotes unchanged |
| Metadata.BuildQueryText | lariat_client/lariat_client.py:415-419 | the `+=` construction yields exactly the query text |
| Metadata.QueryTextParts | lariat_client/lariat_client.py:415-419 | the text opens with the SELECT clause; WHERE follows it iff the filters are truthy; GROUP BY ends it iff the group fields are truthy; each of the four combinations is pinned to exactly SELECT, then WHERE if present, then GROUP BY if present |
| Metadata.QueryTextWithoutClauses | lariat_client/lariat_client.py:415-419 | empty filters and group fields add no clause |
| Metadata.GroupFieldsListText | lariat_client/lariat_client.py:418-419 | a group-fields list `['f']` is inserted as Python's list syntax |
| Metadata.IndicatorFromObject | lariat_client/lariat_client.py:414-469 | non-dict: TypeError; missing required key: KeyError naming one of them; on success, id, dataset id and name, name and dimensions are the object's fields, the query is the synthesized text, and aggregations and tags default to `[]` |
| Metadata.DatasetFromObject | lariat_client/lariat_client.py:374-380 | a dataset's fields are the object's, its name from `dataset_name`; KeyError naming a missing key |
| Metadata.RawDatasetFromObject | lariat_client/lariat_client.py:312-316 | a raw dataset's fields are the object's; KeyError naming a missing key |
| Metadata.SchemaFields | lariat_client/lariat_client.py:157-158 | one field per flattened key, each with the dataset's id |
| Metadata.SchemaFieldNames | lariat_client/lariat_client.py:157-158 | the fields' names are the flattened keys, in order |
| Records.DecodeRecord | lariat_client/lariat_client.py:255 | `MetricRecord(**row)` succeeds iff the row is a dict with exactly the keys `evaluation_time`, `value`, `dimensions`, and takes their values; TypeError otherwise |
| Records.DecodeRecords | lariat_client/lariat_client.py:255 | decoding succeeds iff every row decodes, record i being row i's; otherwise TypeError |
| Records.ToDict | lariat_client/lariat_client.py:238-244 | the dict-filling loop gives the base dict updated by the dimensions; a dimensions value that is not a dict raises AttributeError |
| Records.DictOfContents | lariat_client/lariat_client.py:238-244 | the keys are `evaluation_time`, `value` and the dimension keys; a dimension key maps to its dimension value even when it is a base field's name |
| Records.DictOfKeyOrder | lariat_client/lariat_client.py:238-244 | the dict lists the two base fields first, then the other dimension keys in order |
| Records.DimensionNamedValueWins | lariat_client/lariat_client.py:242-243 | a dimension named `value` overwrites the metric value |
| Records.Project | lariat_client/lariat_client.py:294 | projecting a dict onto columns succeeds iff every column is a key, giving their values in column order; otherwise KeyError for the first missing column |
| Records.MetricRecordList.constructor | lariat_client/lariat_client.py:253-256 | the list keeps the group-by fields and records; the cursor is 0 |
| Records.MetricRecordList.Iter | lariat_client/lariat_client.py:261-262 | `__iter__` returns the list itself without rewinding |
| Records.MetricRecordList.Next | lariat_client/lariat_client.py:264-269 | below the end: the record at the cursor, cursor plus one; at the end: StopIteration, cursor unchanged; the records never change and the cursor never passes their count |
| Records.MetricRecordList.Consume | lariat_client/lariat_client.py:261-269 | a `for` loop yields exactly the records the cursor has not passed, and leaves the cursor at the end |
| Records.MetricRecordList.TwoPasses | lariat_client/lariat_client.py:261-269 | on a fresh list, the first pass yields every record and a second pass yields none |
| Records.MetricRecordList.HeaderColumns | lariat_client/lariat_client.py:288-290 | the header is `evaluation_time`, `value`, then the group-by fields in order |
| Records.MetricRecordList.DataRows | lariat_client/lariat_client.py:292-294 | one row per record, in order, each the record's dict projected on the columns; the first failing record stops the export with its error |
| Records.MetricRecordList.ToCsv | lariat_client/lariat_client.py:281-294 | with a header: the header row, then the data rows; without one: no rows, and UnboundLocalError on the first record unless there are none |
| Records.MetricRecordList.ToCsvIntended | lariat_client/lariat_client.py:281-294 | the intended export: the same data rows with or without the header row |
| QueryPayload.ClauseAttr | lariat_client/lariat_client.py:191-194 | a clause has exactly the instance attributes `field`, `operator` and `values`; reading any other instance attribute raises AttributeError |
| QueryPayload.ClauseObjectsAsWritten | lariat_client/lariat_client.py:513-519 | as written, the clause comprehension gives `[]` for no clauses and raises AttributeError `value` otherwise |
| QueryPayload.ClauseObjectsIntended | lariat_client/lariat_client.py:513-519 | reading `values`, each clause gives one `{field, operator, value}` object, in clause order |
| QueryPayload.BuildDataFilter | lariat_client/lariat_client.py:505-519 | the in-place filling of `data_filter` gives the filter object: default operator `or` and `[]`, `group_by_clauses` when group-by fields are given, then the filter's operator and clause objects |
| QueryPayload.BuildPayload | lariat_client/lariat_client.py:505-530 | the in-place filling of `data` gives the request body, or the error the clause comprehension raises |
| QueryPayload.FilterObjectKeys | lariat_client/lariat_client.py:505-510 | the filter's keys are `operator`, `filters`, then `group_by_clauses` iff group-by is non-empty |
| QueryPayload.FilterObjectFields | lariat_client/lariat_client.py:505-519 | the filter holds its operator, its filter list and, when present, the group-by fields |
| QueryPayload.FilterPayloadOperator | lariat_client/lariat_client.py:505-512 | with no filter: operator `or` and `filters` `[]`; with one, the filter's operator |
| QueryPayload.PayloadObjectKeys | lariat_client/lariat_client.py:521-530 | the body's keys are `indicator_id`, `filter`, `time_range`, then `aggregation` iff the aggregate is truthy |
| QueryPayload.PayloadObjectFields | lariat_client/lariat_client.py:521-530 | `indicator_id` is the indicator's id, `filter` the filter object, `aggregation` the aggregate |
| QueryPayload.PayloadObjectTimeRange | lariat_client/lariat_client.py:524-527 | `time_range` holds `from_ts` and `to_ts` as given |
| QueryPayload.PayloadAsWritten | lariat_client/lariat_client.py:511-519 | as written, the body is built iff there is no filter or it has no clauses; otherwise AttributeError `value` |
| QueryPayload.FilterPayloadIntended | lariat_client/lariat_client.py:511-519 | reading `values`, every filter gives its operator and one object per clause |
| QueryPayload.ResponseRecords | lariat_client/lariat_client.py:535-537 | the records are the comprehension over the response's `records`: one record per row, in order, or the error of the lookup, the iteration or the first row that fails |
| QueryPayload.Query | lariat_client/lariat_client.py:481-537 | a payload error is raised before any request; otherwise a response-decoding error is raised, or a fresh list of the response's records with the group-by fields and cursor 0 is returned |
| Client.GetIndicators | lariat_client/lariat_client.py:413-430 | the listing decodes every object of `indicators`, in order, and raises the first error |
| Client.GetIndicator | lariat_client/lariat_client.py:455-469 | the response's `indicator` object is decoded, or its absence raised |
| Client.IndicatorParams | lariat_client/lariat_client.py:403-409 | `dataset_id` is present iff datasets are given and lists their ids in order; `tags` and `fields` are present iff non-empty and equal the arguments |
| Client.DatasetIndicatorParams | lariat_client/lariat_client.py:167 | a dataset's own listing asks for exactly its id |
| Client.DatasetsOf | lariat_client/lariat_client.py:374-380 | the listing is the comprehension over the response's `computed_datasets`: one dataset per object, in order, or the error of the lookup, the iteration or the first object that fails |
| Client.FirstDataset | lariat_client/lariat_client.py:342-350 | a falsy response gives None; otherwise the first dataset listed, IndexError when there is none, or the decoding error |
| Client.RawDatasetsOf | lariat_client/lariat_client.py:312-316 | the listing is the comprehension over the response's `raw_datasets`: one raw dataset per object, in order, or the error of the lookup, the iteration or the first object that fails |
| Client.Session.Configure | lariat_client/lariat_client.py:32-35 | `X-Lariat-Application-Key` becomes the application key and `X-Lariat-Api-Key` the API key; every other header is unchanged |
| PublicApi.IndicatorFromObject | lariat_public_api/client/client.py:198-206 | non-dict: TypeError; missing required key: KeyError naming one of them; on success every attribute is the object's field, the query is `computed_dataset_query`, and aggregations and tags default to `[]` |
| PublicApi.IndicatorsOf | lariat_public_api/client/client.py:197-206 | the listing is the comprehension over the response's `indicators`: one indicator per object, in order, or the error of the lookup, the iteration or the first object that fails |
| PublicApi.IndicatorOf | lariat_public_api/client/client.py:211-222 | the response's `indicator` object is decoded, with the decoder's error if it fails, or its absence raised |
| PublicApi.DecodersAgree | lariat_public_api/client/client.py:198-206 | when both clients decode an object, they agree on everything but the query |
| PublicApi.DecoderAcceptsWithQuery | lariat_public_api/client/client.py:198-206 | an object the synthesizing decoder accepts is accepted here iff it has `computed_dataset_query` |

## Left out

- HTTP: the session, endpoint URLs and every request are left out. Each call is modelled from the response it receives, given as a JSON value; `query()`'s server is a function parameter.
- Error handling: the `except` chains, `logging` and `sys.exit` (I/O and process control) are left out. An exception raised while shaping data is an `Err` result. `raise_for_status()` is left out with HTTP, so the difference that the public-API functions lack it (and their `try`/`except`) and go on to `r.json()` on an error status is not modelled.
- The module-level header initialisation from environment variables is left out (an environment read).
- `__repr__`, `json.dumps` and `print` are serialisation and output.
- `to_df` is a pandas call.
- `to_csv`: opening the file and the CSV writer's quoting are left out. The rows are modelled as the values handed to `writerow`.
- `Indicator.get_dimension_values` is a request plus a dict comprehension over its response, left out with the network.
- `flatten` is a foreign library. It is a function parameter returning the ordered flattened keys.
- Floating point is not modelled, including metric values and `timestamp() * 1000`. Times are integer epoch milliseconds, and JSON numbers are integers.
- `datetime.now()` as the default end time is a clock read.
- Aliasing: `query()` hands the caller's `group_by` list object (the shared default `[]` when omitted) to both the request filter and `MetricRecordList.group_by_fields`, and the list keeps the `records` list it was given. The model holds these as immutable sequences, so the sharing is not modelled; nothing in the SDK mutates them afterwards.
- JSON objects: a decoded Python dict never holds a key twice, so only duplicate-free objects are meant; the `Json` type does not enforce this, and on a duplicate key `PyValues.Lookup` finds the first entry.
- PyText.ReprStr: escapes for non-printable characters other than newline, carriage return and tab are not modelled.
- Metadata.IndicatorFromObject: on a missing key the contract says only that the KeyError names a required key the object lacks, not which one is read first. The same holds for Metadata.DatasetFromObject, Metadata.RawDatasetFromObject and PublicApi.IndicatorFromObject.
- Client.Session.Configure: headers are a map from names to strings. Header-name case-insensitivity and `None` values are not modelled.
- QueryPayload.Query: a `Filter` is always truthy in Python, so a given filter is `Some`. The query follows the code as written and reads `clause.value`.

## Findings

| source | as written | input that shows it | evidently intended | confidence | as-written member | corrected member |
|---|---|---|---|---|---|---|
| lariat_client/lariat_client.py:513-519 | the clause comprehension reads `clause.value`, but `FilterClause` stores `values` | `query(ind, t0, t1, query_filter=Filter([FilterClause('a', 'eq', 'x')], 'and'))` raises AttributeError before any request | send each clause's `values` as `value` | high, not executed | QueryPayload.ClauseObjectsAsWritten | QueryPayload.FilterPayloadIntended |
| lariat_client/lariat_client.py:287-294 | `output_array` is assigned only under `if header:` | `to_csv('f.csv', header=False)` on a list with one record raises UnboundLocalError | write the same data rows without the header row | high, not executed | Records.MetricRecordList.ToCsv | Records.MetricRecordList.ToCsvIntended |
