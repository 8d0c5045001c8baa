# Koku report pipeline and small helpers, modelled in Dafny

Koku is the cost-management back end of Red Hat's hybrid-cloud console. This
project models the report pipeline of two of its report query handlers:

- GCP (`koku/api/report/gcp/query_handler.py`);
- OpenShift-on-Azure (`koku/api/report/azure/openshift/query_handler.py`).

Both handlers take the rows the database returns and run the same stages:

- convert every amount column into the caller's currency with a fixed
  exchange-rate table;
- group the rows, aggregating with `max` for any column whose name contains
  "units" and with `sum` for the rest;
- fold the per-currency records into one total and drop the currency key;
- force the unit keys of the total;
- order the rows. When one of the order terms is a date, the order of the
  first group-by field on that date is imposed on every other date;
- put the total's keys in order.

The model also covers five smaller parts of koku:

- the tag-filter serializer's cross-field check on time scopes
  (`koku/api/tags/serializers.py`);
- the Kafka client configuration layering, back-off wait and header lookup
  (`koku/kafka_utils/utils.py`);
- the provider builder's header normalisation, payload builders and identity
  rule (`koku/api/provider/provider_builder.py`);
- the Sources view's filter whitelist (`koku/masu/api/sourceproviders/sources/views.py`);
- the recursive in-place merge of nested dicts (`figuring_it_out.py`).

## How the model is built

- **Modules.** One module per concern:
  - `PyValues` holds Python values, rows and insertion-ordered dicts;
  - `PyTrees` holds nested JSON-like dicts;
  - `Wrappers` holds `Option` and `Result`;
  - `Currency`, `Aggregation`, `Totals` and `Ordering` hold the stages the two
    handlers share;
  - `GcpReport` and `AzureOcpReport` hold the handlers themselves;
  - `TagFilters`, `KafkaConfig`, `ProviderBuilder`, `SourcesFilters` and
    `NestedMerge` hold the smaller parts.
- **Values.** A Python value is `VNone`, `VBool`, `VNum` or `VStr`. `Decimal`
  and `int` amounts are exact reals. A raised exception is the `Failure` of a
  `Result`, carrying the Python exception it models (`KeyError`,
  `TypeError`, `AttributeError`, `IndexError`, ...).
- **Dicts and rows.** A dict whose order matters is a `Dict<V>`: a sequence of
  distinct keys plus a map. This covers totals, annotation dicts and Kafka
  configurations. A DataFrame row and a queryset row are a `map<string, Value>`;
  a missing cell reads as `None`.
- **Loops and state.** Code that loops or updates state is a `method` proved
  against a specification function. Examples are the conversion loop, the
  `defaultdict` fold, the units loop, the date-anchor loops, the Kafka `conf`
  object and the nested-dict merge. The source's promises are then proved as
  lemmas about that function. An object whose fields the source updates is a
  `class` (`KafkaConfig.Conf`, `NestedMerge.DictObject`,
  `ProviderBuilder.Builder`).
- **Parameters.** The database and the base-class helpers the handlers call
  are parameters of the model (see "Left out"). Those helpers are `order_by`,
  `_group_by_ranks`, `add_deltas`, `check_if_valid_date_str` and
  `pandas_agg_for_currency`.

Where the code and its documentation disagree, the model follows the code.
`_update_nested_dict` documents that it modifies "source" in place; it
modifies `original`. The date-anchor ordering is described as imposing the
anchor date's order; the code can also repeat rows, as "Findings" below
shows. The handler models order their rows as the code is written.

## Model

| member | source | states |
|---|---|---|
| Currency.Rate | koku/api/report/gcp/query_handler.py:273-290 | the rate lookup succeeds exactly when the row's currency is a string with a row in the table holding the target, and then yields that entry |
| Currency.GcpRatesFacts | koku/api/report/gcp/query_handler.py:273-288 | in the GCP table USD to USD is exactly 1, USD to CAD is missing and AUD to USD is 0.7194244604 |
| Currency.OcpAzureRatesFacts | koku/api/report/azure/openshift/query_handler.py:101-115 | the OpenShift-on-Azure table has no AUD row for any target, has no USD to CAD entry, and holds the exact EUR to USD Decimal |
| Currency.ConvertOneColumn | koku/api/report/gcp/query_handler.py:290 | the `df.apply` loop over the rows yields the converted frame of one column, or the exception of the first row that raises |
| Currency.ConvertFrame | koku/api/report/gcp/query_handler.py:289-291 | the column loop converts each column in turn and stops at the first failure |
| Currency.ConvertRowsFromAll | koku/api/report/gcp/query_handler.py:290 | converting one column succeeds iff every row has a rate for its currency and a number in the column; the result has one row per input row, each multiplied by its own rate |
| Currency.ConvertColumnsMeaning | koku/api/report/gcp/query_handler.py:289-291 | converting all columns succeeds iff every row is convertible in every column; each output row is that row with every column multiplied by its rate and cost_units set to the target; no columns leave the frame as it was |
| Currency.ConvertIdentity | koku/api/report/gcp/query_handler.py:287-290 | rows already in the target currency, when the table maps it to itself with rate 1, keep every amount unchanged |
| Currency.MissingRateFails | koku/api/report/gcp/query_handler.py:289-290 | one row whose currency has no rate to the target makes the whole conversion fail instead of skipping the row |
| Aggregation.AggsFor | koku/api/report/gcp/query_handler.py:297-301 | the aggregation dict covers exactly the report annotations not skipped; each gets `max` when its name contains "units" and `sum` otherwise |
| Aggregation.MaxOfUniform | koku/api/report/gcp/query_handler.py:298 | `max` over a units column whose cells all carry one label (or nothing) is that label, or None when every cell is missing |
| Aggregation.MaxIsMaximum | koku/api/report/gcp/query_handler.py:298 | a numeric `max` is at least every numeric cell of the column and is one of the cells |
| Aggregation.NoneMaxMeansMissing | koku/api/report/gcp/query_handler.py:298 | a `max` of None means every cell of the column is missing |
| Aggregation.GroupKeys | koku/api/report/azure/openshift/query_handler.py:131 | the group keys are distinct, and are exactly the keys of the rows whose group-by cells are all present |
| Aggregation.Group | koku/api/report/azure/openshift/query_handler.py:131 | every row of a group carries that group's key |
| Aggregation.GroupCount | koku/api/report/azure/openshift/query_handler.py:131 | a group holds each row with its key exactly as often as the frame does, and no other row |
| Aggregation.GroupComplete | koku/api/report/azure/openshift/query_handler.py:131 | every row of the frame with a group's key is in that group |
| Aggregation.MissingColumn | koku/api/report/azure/openshift/query_handler.py:131 | reports a group-by or aggregate column exactly when one is absent from the frame, naming it so that `groupby` raises `KeyError` |
| Aggregation.GroupSumsPartition | koku/api/report/azure/openshift/query_handler.py:131-135 | the group sums of a column add up to the column's sum over all keyed rows, so grouping neither loses nor double-counts an amount |
| Aggregation.GroupAggShape | koku/api/report/azure/openshift/query_handler.py:131-135 | the grouped records are one per group key, and each carries its key's values in the group-by columns |
| Aggregation.AggRecordsSum | koku/api/report/azure/openshift/query_handler.py:131-135 | each grouped record holds, in a summed column, the sum of that column over the rows of its group |
| Aggregation.AggRecordsTotal | koku/api/report/azure/openshift/query_handler.py:131-135 | the records' values of a summed column add up to the sum of the group sums |
| Aggregation.GroupAggSums | koku/api/report/gcp/query_handler.py:302-306 | the grouped records all hold a number in a summed column, and together they add up to the column's total over the keyed rows |
| Aggregation.AccumulateGet | koku/api/report/gcp/query_handler.py:311-314 | one step of the `defaultdict` fold adds a number to the key, or overwrites it with a string, and leaves every other key alone |
| Aggregation.FoldRecordInto | koku/api/report/gcp/query_handler.py:310-314 | the inner loop folds one record's entries into the accumulator, failing with `TypeError` where a number meets a string |
| Aggregation.FoldTotals | koku/api/report/gcp/query_handler.py:307-316 | the nested loops fold every record, then pop "currency" |
| Aggregation.FoldEntriesGet | koku/api/report/gcp/query_handler.py:310-314 | after folding a record's first n entries, each key holds its accumulated effect; the other keys are unchanged |
| Aggregation.FoldRecordsSum | koku/api/report/gcp/query_handler.py:309-314 | a column numeric in every record ends up as the sum of the records' values |
| Aggregation.FoldRecordsLastString | koku/api/report/gcp/query_handler.py:313-314 | a string field of the last record is what the fold keeps |
| Aggregation.FoldRecordsKeys | koku/api/report/gcp/query_handler.py:309-314 | the fold's keys are exactly the keys of some folded record |
| Aggregation.FoldRecordsFailsFrom | koku/api/report/gcp/query_handler.py:309-314 | an exception raised while folding one record is the fold's result |
| Aggregation.FoldTotalsMeaning | koku/api/report/gcp/query_handler.py:307-316 | the fold succeeds iff some record has a currency, otherwise it raises `KeyError('currency')`; the result has no currency key, and a column numeric in all records is their sum |
| Totals.SkipColumns | koku/api/report/gcp/query_handler.py:292-294 | the skip list is the base list, plus count and count_units exactly when the frame has no "count" column |
| Totals.WithUsageUnits | koku/api/report/gcp/query_handler.py:295-296 | when units are given and the frame has a "usage" column, every row's usage_units is the given value; every other column of every row and the frame's length are kept; otherwise the frame is unchanged |
| Totals.ComputeCurrencyTotal | koku/api/report/gcp/query_handler.py:289-316 | conversion, skip list, usage units, aggregation, grouping by currency and fold, in that order, with each stage's exception propagated |
| Totals.SummedColumn | koku/api/report/gcp/query_handler.py:297-301 | a non-skipped annotation without "units" in its name is summed |
| Totals.GroupedFrameRows | koku/api/report/gcp/query_handler.py:289-306 | in the frame that is grouped, a converted column holds each row's amount times its rate, and a row has a currency exactly when the original did |
| Totals.CurrencyTotalSum | koku/api/report/azure/openshift/query_handler.py:171-206 | in the total, a summed amount column is the sum, over the rows that have a currency, of each amount times its row's rate |
| Totals.CurrencyKeyedTotalSum | koku/api/report/gcp/query_handler.py:289-316 | when rates are looked up by the currency column itself, the total of a summed column is the sum over all rows of amount times rate |
| Totals.CurrencyTotalMissingRate | koku/api/report/gcp/query_handler.py:290 | a row in a currency without a rate to the target makes the total fail |
| Totals.CurrencyTotalDropsCurrency | koku/api/report/gcp/query_handler.py:315 | the currency key never reaches the total |
| Ordering.QueryOrderBy | koku/api/report/gcp/query_handler.py:181-199 | unranked (or with an explicit order_by) the order list is "-date" then the implicit order; ranked without one, "rank" takes the place of the implicit order's last term, and with no implicit order it replaces "-date" itself |
| Ordering.FirstDate | koku/api/report/gcp/query_handler.py:206-210 | finds the first order term that is a valid date, or reports that none is |
| Ordering.FindOrderDate | koku/api/report/gcp/query_handler.py:206-210 | the `enumerate` loop with `break` finds that first date term |
| Ordering.RemoveAt | koku/api/report/gcp/query_handler.py:214 | `pop(i)` removes exactly the i-th term and shifts the rest left |
| Ordering.AnchorRows | koku/api/report/gcp/query_handler.py:215-219 | the filter loop keeps exactly the rows dated on the anchor date, in order |
| Ordering.CollectInterest | koku/api/report/gcp/query_handler.py:221-223 | the loop collects the first-group-by value of every ordered anchor row, in order, repeats included |
| Ordering.FollowOrderMembers | koku/api/report/gcp/query_handler.py:227 | the comprehension keeps exactly the rows whose first-group-by value is in the order of interest |
| Ordering.FollowOrderCount | koku/api/report/gcp/query_handler.py:227 | with a duplicate-free order of interest, each surviving row appears as often as in the input |
| Ordering.FollowOrderCountAll | koku/api/report/gcp/query_handler.py:227 | with any order of interest, a row appears as often as its first-group-by value is listed times as often as it is in the input |
| Ordering.FollowOrderSorted | koku/api/report/gcp/query_handler.py:227 | with a duplicate-free order of interest (the corrected form), the comprehension's rows follow the order of interest of their first-group-by values |
| Ordering.RepeatedInterestOutOfOrder | koku/api/report/gcp/query_handler.py:221-227 | as written: with the order of interest [a, b, a] the comprehension gives [ra, rb, ra], so a row of value a follows a row of the later value b |
| Ordering.FollowOrderSlice | koku/api/report/gcp/query_handler.py:227 | the rows of any one date in the result are that date's rows reordered the same way |
| Ordering.ApplyOrder | koku/api/report/gcp/query_handler.py:206-231 | the method carries out the date-anchor ordering as written (`OrderRowsAsWritten`), or the plain `order_by` when no term is a date, or `IndexError` for a date term without a group-by field |
| Ordering.AnchoredCountsAsWritten | koku/api/report/gcp/query_handler.py:212-228 | as written, the date-anchored output holds the same rows, as often, as the comprehension over the full order of interest, whose counts `FollowOrderCountAll` gives |
| Ordering.AnchorInterestValues | koku/api/report/gcp/query_handler.py:215-223 | corrected form: the order of interest is duplicate-free and holds each first-group-by value of an anchor-date row, and nothing else |
| Ordering.AnchoredCounts | koku/api/report/gcp/query_handler.py:212-228 | corrected form (`OrderRows`): date-anchored ordering keeps every row whose first-group-by value appears on the anchor date exactly as often as it occurs, and drops every other row |
| Ordering.AnchoredDates | koku/api/report/gcp/query_handler.py:212-228 | corrected form (`OrderRows`): with a stable sort by "-date", every date's rows come out in the anchor date's order of first-group-by values |
| Ordering.AnchorDuplicatesRows | koku/api/report/gcp/query_handler.py:221-227 | as written: two anchor-date rows sharing the first group-by value come out twice each |
| Ordering.AnchorKeepsRowsOnce | koku/api/report/gcp/query_handler.py:221-227 | corrected: the same two rows come out once each |
| Ordering.TwoRowInterest | koku/api/report/gcp/query_handler.py:215-223 | for those two rows the order of interest as written repeats the value; the corrected one holds it once |
| Ordering.PickMeaning | koku/api/report/gcp/query_handler.py:242 | the comprehension keeps exactly the key-order keys present in the sum, with their values, in key-order order |
| Ordering.OrderedTotalMeaning | koku/api/report/gcp/query_handler.py:241-243 | the ordered total holds exactly the sum's keys and values, with the key-order keys placed first and in order |
| GcpReport.GcpPackKeysTable | koku/api/report/gcp/query_handler.py:71-87 | the pack-key table is the product of the infrastructure, supplementary and cost groups with the raw, markup, usage, credit and total keys, named `<prefix>_<key>` |
| GcpReport.AddAliasAnnotations | koku/api/report/gcp/query_handler.py:185-187 | the alias loop adds `<key>_alias` for each grouped alias key |
| GcpReport.AliasAnnotationsMeaning | koku/api/report/gcp/query_handler.py:185-187 | gcp_project_alias reads project_name when gcp_project is grouped by; service_alias reads service_alias when service is; every other annotation is unchanged and kept |
| GcpReport.ApplyUnits | koku/api/report/gcp/query_handler.py:319-322 | the units loop writes each unit and then overwrites it with the currency unless it is usage or count units |
| GcpReport.UnitsAppliedGet | koku/api/report/gcp/query_handler.py:319-322 | after the loop a unit key holds the target currency, or the given value for usage_units and count_units; every other key is unchanged and kept |
| GcpReport.CalculateTotal | koku/api/report/gcp/query_handler.py:249-326 | the currency total of the grouped rows, or the empty aggregate when there are none, followed by the units loop |
| GcpReport.BuildSum | koku/api/report/gcp/query_handler.py:137-165 | `_build_sum` takes the units from the first row and calls `calculate_total`; an empty query gets the fallbacks |
| GcpReport.BuildSumUnits | koku/api/report/gcp/query_handler.py:145-158 | with rows, cost_units is the caller's currency; usage_units is the first row's value or the fallback when the mapper has a usage key |
| GcpReport.BuildSumEmpty | koku/api/report/gcp/query_handler.py:159-164 | an empty query gives the initial totals plus cost_units as the fallback, and usage_units as its fallback only if the annotations define it |
| GcpReport.BuildSumConverted | koku/api/report/gcp/query_handler.py:289-316 | a summed aggregate column of the total is the sum over all rows of amount times rate |
| GcpReport.ExecuteQuery | koku/api/report/gcp/query_handler.py:167-247 | `execute_query`: the aggregated, ranked rows ordered as written (rows may repeat, see Findings) and the ordered total, or the exception raised on the way |
| GcpReport.ExecuteQueryTotal | koku/api/report/gcp/query_handler.py:241-245 | the returned total has exactly the keys and values of `_build_sum`'s result, with "units" and the annotation keys first |
| GcpReport.ExecuteQueryNoGroupBy | koku/api/report/gcp/query_handler.py:212-213 | a date order term without any group-by field raises `IndexError` |
| AzureOcpReport.DropColumnMeaning | koku/api/report/azure/openshift/query_handler.py:97-100 | `remove` on a duplicate-free column list drops exactly that column |
| AzureOcpReport.ColumnsMeaning | koku/api/report/azure/openshift/query_handler.py:96-100 | the columns converted for the data are the aggregates minus cost_units and usage_units; those for the total (lines 147-154) also drop "usage"; both are duplicate-free |
| AzureOcpReport.AsRow | koku/api/report/azure/openshift/query_handler.py:135 | a record turned into a row reads every key the same way |
| AzureOcpReport.ComputeDataRecords | koku/api/report/azure/openshift/query_handler.py:93-135 | conversion of the data columns, then grouping by date plus the group-by fields, then `to_dict("records")` |
| AzureOcpReport.DataRecordsGroups | koku/api/report/azure/openshift/query_handler.py:122-135 | the data has one record per date and group-by key, with that key's values, not split by currency |
| AzureOcpReport.ComputeQuerySum | koku/api/report/azure/openshift/query_handler.py:143-206 | the total is the initial totals for an empty query; otherwise the total columns are converted, grouped by currency and folded |
| AzureOcpReport.WithUnitsMeaning | koku/api/report/azure/openshift/query_handler.py:259-265 | cost_units is always the currency; usage_units and count_units are set only when configured and a truthy value was found; another key keeps its value |
| AzureOcpReport.AssembleTotalMeaning | koku/api/report/azure/openshift/query_handler.py:259-268 | the ordered total holds those same keys and values |
| AzureOcpReport.UsageUnitsLead | koku/api/report/azure/openshift/query_handler.py:261-267 | when usage units are set, usage_units is the total's first key |
| AzureOcpReport.ExecuteQuery | koku/api/report/azure/openshift/query_handler.py:71-269 | `execute_query`: the grouped, ranked rows ordered as written (rows may repeat, see Findings) and the completed total, or the exception raised on the way |
| AzureOcpReport.ExecuteQueryConverted | koku/api/report/azure/openshift/query_handler.py:147-206 | a summed total column is the sum over the rows with a currency of amount times rate |
| AzureOcpReport.ExecuteQueryMissingRate | koku/api/report/azure/openshift/query_handler.py:171-175 | a total row whose currency has no rate to the target makes the query fail |
| TagFilters.MonthListString | koku/api/tags/serializers.py:22 | the month list as strings is exactly "-1", "-2", "-3" |
| TagFilters.MonthListStrings | koku/api/tags/serializers.py:20-22 | none of the month strings is a day value |
| TagFilters.InStringsCases | koku/api/tags/serializers.py:57-67 | membership in the month and day lists, spelled out value by value |
| TagFilters.ValidateMeaning | koku/api/tags/serializers.py:51-72 | there is no check without both time scope fields; a day scope with a month value fails on time_scope_value listing -10, -30, -90, and this wins over a monthly resolution, which fails on resolution; a month scope with a day value fails listing -1, -2, -3; anything else comes back unchanged |
| TagFilters.AcceptedFiltersConsistent | koku/api/tags/serializers.py:28-72 | data that passes the choices and the check is returned unchanged; a day scope then has a day value and no monthly resolution, and a month scope has a month value |
| TagFilters.BoundErrors | koku/api/tags/serializers.py:182-183 | at most one error per bounded field: the errors name distinct fields among limit and offset, limit first, each with the `min_value` code |
| TagFilters.BoundErrorsMeaning | koku/api/tags/serializers.py:182-183 | no error iff limit is absent or at least 1 and offset is absent or at least 0; each error names an out-of-bound field |
| TagFilters.OpFieldsCompose | koku/api/tags/serializers.py:102-162 | each combined filter's operator fields are its parents' lists concatenated in inheritance order; OCP-on-All is AWS, Azure, OCP |
| KafkaConfig.Conf.constructor | koku/kafka_utils/utils.py:23-24 | a configuration object holding the given entries |
| KafkaConfig.ManagedKafkaConfig | koku/kafka_utils/utils.py:21-41 | a given conf object is updated in place and returned; no object gives a fresh empty one; its entries become the managed layering of the old ones |
| KafkaConfig.ManagedMeaning | koku/kafka_utils/utils.py:26-41 | with all five settings truthy the five security keys carry them and other keys keep their value and place; otherwise conf is unchanged |
| KafkaConfig.ConsumerConfig | koku/kafka_utils/utils.py:44-56 | a fresh conf: the consumer defaults, then the managed keys, then the caller's settings |
| KafkaConfig.ProducerConfig | koku/kafka_utils/utils.py:68-74 | a fresh conf: the producer defaults, then the managed keys, then the caller's settings |
| KafkaConfig.LayeredMeaning | koku/kafka_utils/utils.py:53-54 | a caller setting wins over a managed security key, which wins over a default; the keys are the union |
| KafkaConfig.ConsumerDefaultsHold | koku/kafka_utils/utils.py:46-52 | a consumer default the caller does not set survives (group.id "hccm-group", enable.auto.commit False, the address, ...) |
| KafkaConfig.ProducerDefaultsHold | koku/kafka_utils/utils.py:70-72 | message.timeout.ms is 1000 and bootstrap.servers the address unless the caller overrides them |
| KafkaConfig.Pow2Monotone | koku/kafka_utils/utils.py:95 | `2 ** interval` grows with the interval |
| KafkaConfig.WaitBounds | koku/kafka_utils/utils.py:95 | the base wait `min(maximum, 2 ** interval)` never exceeds maximum and grows with the interval; the jittered wait lies below maximum + 1 |
| KafkaConfig.ScanItemsMeaning | koku/kafka_utils/utils.py:132-136 | the inner loop finds nothing iff every remaining item is the header type, else decodes the first item that is not |
| KafkaConfig.ScanHeadersMeaning | koku/kafka_utils/utils.py:130-137 | the search answers from the first header that contains the type and another item, with that item decoded; with no such header it returns None |
| ProviderBuilder.Builder.constructor | koku/api/provider/provider_builder.py:37-43 | the stored header is the normalised header of the argument |
| ProviderBuilder.IdentityHeaderMeaning | koku/api/provider/provider_builder.py:39-43 | a dict with a truthy x-rh-identity is stored as is; anything else is wrapped as {x-rh-identity: value, sources-client: "True"}; normalising twice changes nothing when the header is truthy |
| ProviderBuilder.ContextNeedsTruthyHeader | koku/api/provider/provider_builder.py:80-81 | the stored identity is truthy iff the argument was, and a wrapped header stores the argument itself |
| ProviderBuilder.Builder.ContextFor | koku/api/provider/provider_builder.py:76-92 | no user is derived when the stored identity is falsy; otherwise a decoding failure is raised as it is, and a decoded header gives its user |
| ProviderBuilder.RequiredDictMeaning | koku/api/provider/provider_builder.py:52-66 | the builder returns {field: value} iff the value is a non-empty dict, else raises with its message |
| ProviderBuilder.BuildCredentialsAuthMeaning | koku/api/provider/provider_builder.py:52-58 | {"credentials": c} iff c is a non-empty dict, else "Missing credentials" |
| ProviderBuilder.BuildProviderDataSourceMeaning | koku/api/provider/provider_builder.py:60-66 | {"data_source": d} iff d is a non-empty dict, else "Missing data_source" |
| ProviderBuilder.BillingSourceMeaning | koku/api/provider/provider_builder.py:68-74 | OCP, OCI and OCI_LOCAL get {} whatever the billing source holds; other types get the data-source builder's result; the case of the type name does not matter |
| ProviderBuilder.ContextUserMeaning | koku/api/provider/provider_builder.py:82-92 | fails with `AttributeError` iff the decoded header, identity, user or (for a cluster identity) system is not a dict; otherwise it yields the account, and the cluster id with empty email for System + uhc-auth, else the user's username and email |
| ProviderBuilder.UntypedIdentityIsUser | koku/api/provider/provider_builder.py:87 | an identity without a type is a User identity |
| SourcesFilters.SourceException | koku/masu/api/sourceproviders/sources/views.py:27-33 | status 404 and detail {"detail": message} |
| SourcesFilters.SourceInvalidFilterException | koku/masu/api/sourceproviders/sources/views.py:36-42 | status 400 and detail {"detail": message} |
| SourcesFilters.InvalidParamsKeys | koku/masu/api/sourceproviders/sources/views.py:64 | the comprehension holds exactly the query keys outside name, limit, offset, with their values |
| SourcesFilters.CheckFiltersMeaning | koku/masu/api/sourceproviders/sources/views.py:60-66 | passes iff every key is name, limit or offset; an empty query passes; otherwise raises SourceException (404, "Invalid Filter Parameter") |
| SourcesFilters.CheckFiltersKeysOnly | koku/masu/api/sourceproviders/sources/views.py:64-66 | the outcome depends only on the keys, so an extra key with a None value still raises |
| NestedMerge.DictObject.constructor | figuring_it_out.py:25 | a dict object holding the given items |
| NestedMerge.UpdateNestedDict | figuring_it_out.py:25-37 | the same object is returned, its items become the merge of the old items, and it is left alone when new is not a dict |
| NestedMerge.MergeStops | figuring_it_out.py:31-34 | once a recursive merge raises, later keys are not processed |
| NestedMerge.MergeMeaning | figuring_it_out.py:30-37 | each key of new holds its merged value, other keys keep theirs; the keys are the union of both, the original's first and in place |
| NestedMerge.MergeKeepsTruthyValue | figuring_it_out.py:32-34 | a non-dict value in new never overwrites a truthy original value |
| NestedMerge.MergeIntoLeafRaises | figuring_it_out.py:32-33 | a dict merged into a truthy non-dict value raises `AttributeError`, leaving the original as it was |

## Left out

- The Django ORM (`tenant_context`, `filter`, `annotate`, `values`, `Coalesce`): the handlers take the row sequences the queries would return as inputs. `query.exists()` and `if query:` become "the filtered rows are non-empty".
- The base-class helpers `order_by`, `_group_by_ranks`, `add_deltas`, `check_if_valid_date_str`, `pandas_agg_for_currency` and `initialize_totals`: their code is not part of this model, so they are function parameters. Where a property needs it, a lemma's requires states what it assumes of them (for instance that `order_by` permutes its rows, or sorts stably by date).
- `_apply_group_by`, `_transform_data`, `_pack_data_object` and `_format_query_response`: their code is not part of this model. The model returns the flat ordered rows (the CSV output) and the total before packing.
- Aggregation.GroupKeys: pandas `groupby` sorts the group keys; the model keeps first-appearance order. What that changes: which group is the j-th record (`GroupAggShape`, `DataRecordsGroups`), which record's string the currency fold keeps (`FoldRecordsLastString`), the order of tied rows after a stable `order_by`, and which row's units the OpenShift-on-Azure total takes as "first" (koku/api/report/azure/openshift/query_handler.py:244-249). Sums, keys and per-group contents do not depend on it.
- Aggregation.SumCells: a string cell in a summed column is a `TypeError` in the model; pandas concatenates strings in an object column. The OpenShift-on-Azure total skips source_uuid (koku/api/report/azure/openshift/query_handler.py:177-186) but its data path does not (lines 122-124), so a string source_uuid annotation there would be concatenated rather than raise. Mixed string and number cells, and list cells, are not modelled either. A boolean cell is a `TypeError` too, in sums, in the `defaultdict` fold and in currency conversion, where Python would count `True` as 1; none of the summed or converted annotations is a boolean.
- NaN cells and pandas' treatment of a None group key beyond dropping the row are not modelled. Rows with a missing group-by cell are dropped.
- The exchange-rate literals are Python floats wrapped in `Decimal`; the model uses the exact decimal values printed in the source, and amounts are exact reals with no rounding.
- `annotations.get("usage_units")` and `annotations.get("count_units")` test the truthiness of the annotation expression; the model tests membership of the key, since an annotation expression is always truthy.
- The rejection messages that Django REST Framework's `ChoiceField` produces, and its `min_value` checks on `limit` and `offset`, are abstracted. A choice is a predicate, and a bound error is a value naming the field.
- `handle_invalid_fields` and `add_operator_specified_fields` (tags): their code is not part of this model. Only the field lists passed to the second are modelled.
- Kafka network code (`get_consumer`, `get_producer`, `check_kafka_connection`, `is_kafka_connected`, `delivery_callback`), logging and `time.sleep`: I/O.
- The `random.random()` draw in `backoff` is a parameter with `0 <= jitter < 1`.
- KafkaConfig.WaitBounds: the interval is a natural number, so the float result of a negative interval is not modelled.
- The `Config.INSIGHTS_KAFKA_*` environment settings are a parameter.
- provider_builder's database and cache work (`Customer`, `User`, `Tenant`, schema creation, serializers) and `_get_dict_from_text_field`. The base64 and JSON decoding is a function parameter of `Builder.ContextFor` that may fail with `ValueError`; which inputs fail is not modelled.
- ProviderBuilder.GetBillingSourceForProvider: `str.lower()` is modelled as ASCII case folding; Unicode case mapping of a provider type name outside ASCII is not modelled.
- The constants `Provider.PROVIDER_CASE_MAPPING`, `PROVIDER_OCP`, `PROVIDER_OCI` and `PROVIDER_OCI_LOCAL` are parameters; their model is not part of this one.
- `find_key_order` in figuring_it_out.py: debug printing.
- The rest of the Sources view (pagination, querysets, `get_provider_UUID`): Django view plumbing.
- NestedMerge.UpdateNestedDict: the nested dicts are values inside the object, so aliasing of an inner dict shared with the caller is not captured. The top-level object is updated in place and returned.

## Findings

| source | as written | input that shows it | evidently intended | confidence | as-written member | corrected member |
|---|---|---|---|---|---|---|
| koku/api/report/gcp/query_handler.py:221-227 (also koku/api/report/azure/openshift/query_handler.py:230-236) | `order_of_interest` gets one entry per anchor-date row, so a first group-by value shared by several anchor-date rows (grouping by two fields) is listed several times, and the comprehension emits every matching row once per entry; a value listed again after another value (interest [a, b, a]) also puts its rows after that value's rows, out of the anchor order | two rows `r1`, `r2` dated on the anchor date `d`, with the same value in the first group-by field (they differ in a second one), ordered by `["-date", d]` with an order_by that keeps them in place: the result is `[r1, r2, r1, r2]` | each row appears once, in the anchor date's order of first-group-by values | not executed | Ordering.AnchorDuplicatesRows | Ordering.AnchorKeepsRowsOnce |

The as-written behaviour is `Ordering.OrderRowsAsWritten`, which `Ordering.ApplyOrder` carries out and both handler models (`GcpReport.ExecuteQuery`, `AzureOcpReport.ExecuteQuery`) use; `Ordering.AnchoredCountsAsWritten` and `Ordering.FollowOrderCountAll` count its rows for all inputs, and `Ordering.RepeatedInterestOutOfOrder` shows the order it breaks. The corrected behaviour is `Ordering.OrderRows`, whose order of interest keeps each value once; `Ordering.AnchoredCounts` and `Ordering.AnchoredDates` prove the intended property of the corrected form for all inputs.
