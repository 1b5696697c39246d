# NodeConductor quota and cost-tracking bookkeeping, in Dafny

This project models three pieces of NodeConductor's bookkeeping and proves properties about them:

- **Price-estimate event handlers** (`cost_tracking.dfy`, module `CostTracking`). A price estimate is identified by its scope and a calendar month. The handlers do four things:
  - carry a threshold forward into a newly created estimate from the same scope's estimate for the month before;
  - admit or reject a resource provisioning against the project's cost limit, in two phases, where a limit of `-1` means unlimited;
  - react to the deletion of a scope, with one branch each for an unlinked resource, a deleted resource, a customer and any other scope;
  - re-estimate a registered resource when it or one of its quotas changes.

  The estimate table is a `map` from (scope, year, month) to the estimate, and is a field of the class `PriceEstimateStore`.
- **Quota event handlers** (`quota_handlers.dfy`, module `QuotaHandlers`). The handlers:
  - create the quotas of a new scope;
  - keep the global per-model counters, +1 on creation and −1 on deletion;
  - maintain count quotas;
  - dispatch child-quota changes to the aggregator quotas the child feeds, skipping global quotas and usage-aggregator fields;
  - raise or close the over-threshold alert of a scope.

  The quota table is a `map` from (name, optional scope) to usage. The alerts are a `set` of (scope, alert type). Both are fields of the class `QuotaStore`.
- **A concrete summing aggregator** (`quota_sum_aggregation.dfy`, module `QuotaSumAggregation`). It is the customer-sums-its-projects aggregation the quota tests use. Under it, every aggregator quota stays equal to the sum of its live children across child saves and child deletions.
- **The `delete_invalid_price_estimates` management command** (`invalid_price_estimates.dfy`, module `InvalidPriceEstimates`). It is a sweeper that runs three passes in order:
  1. it selects estimates with a missing or unregistered content type;
  2. it selects estimates that point to no existing instance of a registered model, unless they have neither details nor an object id;
  3. for each customer and month, it selects the classified estimates of any month lacking a project-, service- or payable-resource estimate.

  A pass deletes its selection only when the selection is non-empty and the operator confirms.

`wrappers.dfy` holds `Option` and `Result`. `structure.dfy` holds the model classes (with the subclass tests the handlers make) and scope references.

Several parts of the system are parameters of the model, not parts of it:
- the database tables other than the ones the handlers update;
- the estimate machinery the cost handlers call (get_or_create_current_with_ancestors, init_details, update_total, consumption details), which the model records as an ordered list of calls;
- `get_descendants`;
- the register of cost-tracked resources;
- a quota field's creation condition, `is_exceeded`, `get_aggregator_quotas` and the aggregator callbacks (what a field's `get_or_create_quota` and `add_usage` do is fixed in the model; see "## Left out");
- the operator's answer to the confirmation prompt.

Where a docstring and the code disagree, the model follows the code:
- The docstring of `scope_deletion` (nodeconductor/cost_tracking/handlers.py:73) says a deleted customer loses all its estimates and their children. `_customer_deletion` (lines 92-95) deletes only the descendants of the customer's estimates. The customer's own estimate rows stay, unless `get_descendants` returns them.
- Pass 2 keeps an estimate that points to an existing instance of a registered model, or that has neither details nor an object id. Its docstring (delete_invalid_price_estimates.py:20-23) speaks of estimates "without valid scope and without details". The two differ in both directions:
  - an estimate with no object id and empty details has no valid scope and no details, so the docstring would delete it; the code keeps it;
  - an estimate whose object id points to a deleted instance and whose details are non-empty has details, so the docstring would keep it; the code deletes it.

## Model

| member | source | states |
|---|---|---|
| CostTracking.PreviousMonth | nodeconductor/cost_tracking/handlers.py:16-17 | the result is a valid month whose index is one less than the input's, and it is the only such month; January goes to December of the year before |
| CostTracking.ThresholdCopied | nodeconductor/cost_tracking/handlers.py:14-28 | only the new estimate's threshold can change; it takes the threshold of the same scope's previous-month estimate when that threshold is > 0 and the estimate was just created; any change has such a witness; with no creation or no positive previous threshold the table is unchanged |
| CostTracking.ThresholdCarriedForward | nodeconductor/cost_tracking/handlers.py:14-28 | worked example: a previous threshold of 50 is copied and the unlimited limit is not |
| CostTracking.ProvisionAdmission | nodeconductor/cost_tracking/handlers.py:35-67 | admitted with no estimate or limit −1; rejected early exactly when total > limit (strict); a failed cost lookup never causes the second rejection; an admission under a limit keeps total and total + cost within it; every rejection carries one of the two details and is justified by the limit |
| CostTracking.AdmissionMonotone | nodeconductor/cost_tracking/handlers.py:49-67 | lowering the project total or the monthly cost never turns an admission into a rejection |
| CostTracking.AdmissionExample | nodeconductor/cost_tracking/handlers.py:65-67 | limit 100, total 90, cost 20 is rejected with the total-cost detail; under no limit it is admitted |
| CostTracking.GetConsumables | nodeconductor/cost_tracking/handlers.py:110-113 | a definition: the assumed behaviour of get_consumables, failing for an unregistered resource class (see ## Left out); ResourceUpdate and ResourceQuotaUpdate state the handlers' use of it |
| CostTracking.UpdateResourceEstimate | nodeconductor/cost_tracking/handlers.py:128-133 | the calls re-estimate the resource: all act on its own estimate, the estimate with its ancestors is got or created first, the configuration stored is the given one, the details are never re-initialised, and the total is recomputed after it and last |
| CostTracking.ResourceDeletion | nodeconductor/cost_tracking/handlers.py:98-104 | no call at all exactly for an unregistered resource class; otherwise a re-estimate with the empty configuration, followed last by re-initialising the details |
| CostTracking.ResourceUpdate | nodeconductor/cost_tracking/handlers.py:107-114 | no call at all exactly for an unregistered resource class; otherwise a re-estimate with the register's consumables |
| CostTracking.ResourceQuotaUpdate | nodeconductor/cost_tracking/handlers.py:117-125 | the same for the resource that owns the quota: a quota without a scope gives no call, a scoped one gives no call exactly when its class is not registered, otherwise a re-estimate of that resource with its consumables |
| CostTracking.DeletionIsEmptyUpdate | nodeconductor/cost_tracking/handlers.py:98-114 | deleting a registered resource makes the calls of its update under a register that reports no consumables, then re-initialises its details |
| CostTracking.DeletionIsNoUpdate | nodeconductor/cost_tracking/handlers.py:98-104 | deleting a registered resource is never a plain re-estimate, for any configuration, because it re-initialises the details after the total |
| CostTracking.ScopeDeletionBranch | nodeconductor/cost_tracking/handlers.py:80-89 | the four branches are exclusive and exhaustive: an unlinked resource, a deleted resource, a non-resource customer, anything else |
| CostTracking.OtherScopeDeletion | nodeconductor/cost_tracking/handlers.py:88-89 | the scope's current estimate with its ancestors is got or created first and its details re-initialised last; every call is on that scope and none stores a configuration or recomputes a total |
| CostTracking.AfterCustomerDeletion | nodeconductor/cost_tracking/handlers.py:92-95 | no row is added or altered; every descendant of one of the customer's estimates is gone; every row that is gone is such a descendant |
| CostTracking.PriceEstimateStore.CopyThresholdFromPreviousPriceEstimate | nodeconductor/cost_tracking/handlers.py:14-28 | the new table is ThresholdCopied of the old one |
| CostTracking.PriceEstimateStore.CheckProjectCostLimitOnResourceProvision | nodeconductor/cost_tracking/handlers.py:35-67 | the outcome is ProvisionAdmission of the current estimate and the backend's answer; no current estimate admits |
| CostTracking.PriceEstimateStore.CustomerDeletion | nodeconductor/cost_tracking/handlers.py:92-95 | the nested deletion loops leave exactly AfterCustomerDeletion of the old table |
| CostTracking.PriceEstimateStore.ScopeDeletion | nodeconductor/cost_tracking/handlers.py:70-89 | exactly one branch runs: unlinking changes nothing and calls nothing; a resource makes the _resource_deletion calls and keeps its rows; a customer's descendants are deleted; any other scope gets its current estimate (with ancestors) and init_details; the handler deletes rows itself only in the customer branch, and the other branches change the table only through the recorded calls, none of which deletes a row |
| QuotaHandlers.ScopeQuotasAdded | nodeconductor/quotas/handlers.py:10-14 | exactly one quota per listed name is added for the scope, each at usage 0; every other quota is untouched |
| QuotaHandlers.QuotasInitialized | nodeconductor/quotas/handlers.py:78-86 | existing quotas keep their usage; every field whose creation condition holds has its quota; every new quota is at 0 and belongs to such a field, so a failing field does not stop the others |
| QuotaHandlers.GlobalQuotasCreated | nodeconductor/quotas/handlers.py:52-55 | every declared global count quota exists; existing quotas keep their usage; new ones are scope-less, at 0 and declared |
| QuotaHandlers.GlobalQuotasIdempotent | nodeconductor/quotas/handlers.py:52-55 | a second create_global_quotas changes nothing |
| QuotaHandlers.GlobalCountAfterSave | nodeconductor/quotas/handlers.py:58-64 | a creation raises the sender's global count quota by exactly 1; a non-creating save and every other quota are unchanged |
| QuotaHandlers.GlobalCountAfterDelete | nodeconductor/quotas/handlers.py:67-73 | a deletion lowers the sender's global count quota by exactly 1 and nothing else |
| QuotaHandlers.GlobalCountCreateThenDelete | nodeconductor/quotas/handlers.py:58-73 | a creation followed by a deletion restores the table |
| QuotaHandlers.AddUsage | nodeconductor/quotas/handlers.py:95-97 | a definition: the assumed behaviour of add_usage (see ## Left out); CountQuotaUpdate states the handler's use of it |
| QuotaHandlers.CountQuotaUpdate | nodeconductor/quotas/handlers.py:89-99 | fails exactly on a creating post_save whose count quota is missing; otherwise only the count quota changes, by +1 on a creating post_save, −1 on post_delete and 0 on any other signal; a missing quota on post_delete is ignored |
| QuotaHandlers.CountCreateThenDelete | nodeconductor/quotas/handlers.py:92-97 | creating a counted object and deleting it again restores the count quota |
| QuotaHandlers.AlertsAfterSave | nodeconductor/quotas/handlers.py:17-48 | a global quota leaves the alerts alone; for a scoped quota the over-threshold alert is raised exactly when the quota is exceeded and closed otherwise; no other alert changes |
| QuotaHandlers.Aggregates | nodeconductor/quotas/handlers.py:106-111 | a definition: a quota's changes are passed on exactly when it has a scope and a field that is not a usage aggregator; AggregatedQuotas states what happens otherwise |
| QuotaHandlers.NotifyAggregator | nodeconductor/quotas/handlers.py:114-118 | a definition: the callback of one aggregator quota that matches the signal; SingleAggregatorDispatch, NotifyAllPostSaveIgnoresPreDelete and NotifyAllPreDeleteIgnoresPostSave state the dispatch |
| QuotaHandlers.NotifyAll | nodeconductor/quotas/handlers.py:113-118 | post_delete and an empty aggregator list change nothing |
| QuotaHandlers.NotifyAllAppend | nodeconductor/quotas/handlers.py:113-118 | the aggregators are notified one after the other in list order: notifying A + B is notifying A, then B |
| QuotaHandlers.NotifyAllPostSaveIgnoresPreDelete | nodeconductor/quotas/handlers.py:113-116 | for every aggregator list, post_save never runs pre_child_quota_delete: replacing it by any function leaves the result unchanged |
| QuotaHandlers.NotifyAllPreDeleteIgnoresPostSave | nodeconductor/quotas/handlers.py:113-118 | for every aggregator list, pre_delete never runs post_child_quota_save: replacing it by any function leaves the result unchanged |
| QuotaHandlers.AggregatedQuotas | nodeconductor/quotas/handlers.py:102-118 | global quotas, quotas without a field and usage-aggregator quotas are not passed on, nor is post_delete |
| QuotaHandlers.SingleAggregatorDispatch | nodeconductor/quotas/handlers.py:113-118 | with one aggregator, post_save runs exactly post_child_quota_save with the created flag and pre_delete exactly pre_child_quota_delete |
| QuotaHandlers.QuotaStore.AddQuotasToScope | nodeconductor/quotas/handlers.py:10-14 | on creation the loop leaves ScopeQuotasAdded of the old table; otherwise nothing changes |
| QuotaHandlers.QuotaStore.CheckQuotaThresholdBreach | nodeconductor/quotas/handlers.py:17-48 | the alerts become AlertsAfterSave with is_exceeded at threshold 0.8 |
| QuotaHandlers.QuotaStore.CreateGlobalQuotas | nodeconductor/quotas/handlers.py:52-55 | the loop leaves GlobalQuotasCreated of the old table |
| QuotaHandlers.QuotaStore.IncreaseGlobalQuota | nodeconductor/quotas/handlers.py:58-64 | the table becomes GlobalCountAfterSave of the old one |
| QuotaHandlers.QuotaStore.DecreaseGlobalQuota | nodeconductor/quotas/handlers.py:67-73 | the table becomes GlobalCountAfterDelete of the old one |
| QuotaHandlers.QuotaStore.InitQuotas | nodeconductor/quotas/handlers.py:78-86 | on creation the loop leaves QuotasInitialized of the old table; otherwise nothing changes |
| QuotaHandlers.QuotaStore.CountQuotaHandler | nodeconductor/quotas/handlers.py:89-99 | the table becomes CountQuotaUpdate's result, or stays and the error is reported |
| QuotaHandlers.QuotaStore.HandleAggregatedQuotas | nodeconductor/quotas/handlers.py:102-118 | the loop over the aggregator quotas leaves AggregatedQuotas of the old table |
| QuotaSumAggregation.SumHooksNotify | nodeconductor/quotas/handlers.py:106-118 | the summing aggregator notifies exactly a child's own aggregator quota, when that quota exists |
| QuotaSumAggregation.ChildSaved | nodeconductor/quotas/handlers.py:113-116 | after a child save the child holds its new usage, its aggregator moved by the child's change (the full usage for a new child) and nothing else changed |
| QuotaSumAggregation.ChildDeleted | nodeconductor/quotas/handlers.py:117-118 | after a child deletion the child is gone, its usage is subtracted from its aggregator and nothing else changed |
| QuotaSumAggregation.ChildSavedKeepsSum | nodeconductor/quotas/tests/unittests/test_quotas_fields.py:22-31 | a child save keeps every aggregator equal to the sum of its live children |
| QuotaSumAggregation.ChildDeletedKeepsSum | nodeconductor/quotas/tests/unittests/test_quotas_fields.py:22-31 | a child deletion keeps every aggregator equal to the sum of its remaining children |
| QuotaSumAggregation.ProjectDeletionExample | nodeconductor/quotas/tests/unittests/test_quotas_fields.py:22-31 | projects at 50 and 20, the first deleted: the customer's nc_resource_count is 20, the sum over the one project left |
| InvalidPriceEstimates.Confirm | nodeconductor/cost_tracking/management/commands/delete_invalid_price_estimates.py:42-46 | a definition: --assume-yes, or the answer after ASCII strip and lower is exactly "y"; ConfirmIff states what answers that accepts |
| InvalidPriceEstimates.ConfirmIff | nodeconductor/cost_tracking/management/commands/delete_invalid_price_estimates.py:42-46 | confirmation holds exactly with --assume-yes or when the answer is one `y`/`Y` surrounded by whitespace |
| InvalidPriceEstimates.QueryMatches | nodeconductor/cost_tracking/management/commands/delete_invalid_price_estimates.py:99-104 | a definition: the Q object widened by an OR over the estimated models in order, skipping a model with no ids; QueryMatchesIff states what it matches (it serves lines 99-104 and 116-123) |
| InvalidPriceEstimates.QueryMatchesIff | nodeconductor/cost_tracking/management/commands/delete_invalid_price_estimates.py:116-123 | the Q object widened model by model matches exactly the base rows and the rows pointing to an instance of one of the models; skipping models with no ids loses nothing |
| InvalidPriceEstimates.InvalidContentTypes | nodeconductor/cost_tracking/management/commands/delete_invalid_price_estimates.py:139-151 | every selected content type is unregistered and is the content type of some row, and every unregistered content type of a row is selected |
| InvalidPriceEstimates.ContentTypeSelection | nodeconductor/cost_tracking/management/commands/delete_invalid_price_estimates.py:125-130 | pass 1 selects exactly the rows whose content type is missing or not registered |
| InvalidPriceEstimates.ScopeSelection | nodeconductor/cost_tracking/management/commands/delete_invalid_price_estimates.py:116-123 | pass 2 selects only rows of the table |
| InvalidPriceEstimates.ScopeSelectionIff | nodeconductor/cost_tracking/management/commands/delete_invalid_price_estimates.py:116-123 | pass 2 keeps a row exactly when it has empty details and no object id, or points to an existing instance of a registered model |
| InvalidPriceEstimates.TierOf | nodeconductor/cost_tracking/management/commands/delete_invalid_price_estimates.py:78-85 | a model lands in at most one tier, tested Project, then Service, then PayableMixin |
| InvalidPriceEstimates.MonthSelection | nodeconductor/cost_tracking/management/commands/delete_invalid_price_estimates.py:91-96 | the selection is within the customer's estimates and never holds an unclassified one |
| InvalidPriceEstimates.MonthAllOrNothing | nodeconductor/cost_tracking/management/commands/delete_invalid_price_estimates.py:91-96 | in a month with an empty tier every classified estimate is selected; in a complete month none is |
| InvalidPriceEstimates.MonthSelectionIdempotent | nodeconductor/cost_tracking/management/commands/delete_invalid_price_estimates.py:91-96 | re-running the month check on what is left after removing its selection selects nothing |
| InvalidPriceEstimates.FileEstimates | nodeconductor/cost_tracking/management/commands/delete_invalid_price_estimates.py:71-89 | the first loop succeeds exactly when every estimate has a model class, and then every estimate's month is in the dates set and each classified one is in its tier's table under its month |
| InvalidPriceEstimates.CollectIncompleteMonths | nodeconductor/cost_tracking/management/commands/delete_invalid_price_estimates.py:91-96 | the second loop collects exactly MonthSelection |
| InvalidPriceEstimates.MonthCheck | nodeconductor/cost_tracking/management/commands/delete_invalid_price_estimates.py:65-96 | a definition: MonthSelection when every estimate has a model class, else the crash; GetEstimatesWithoutScopeInMonth is proved equal to it |
| InvalidPriceEstimates.GetEstimatesWithoutScopeInMonth | nodeconductor/cost_tracking/management/commands/delete_invalid_price_estimates.py:65-96 | the result is MonthSelection when every estimate has a model class (empty for no estimates), and the crash otherwise |
| InvalidPriceEstimates.CustomerRows | nodeconductor/cost_tracking/management/commands/delete_invalid_price_estimates.py:98-105 | a customer's estimates are rows of the table, unchanged |
| InvalidPriceEstimates.CustomerRowsIff | nodeconductor/cost_tracking/management/commands/delete_invalid_price_estimates.py:98-105 | a row is the customer's exactly when its scope customer is the customer or it points to one of the customer's instances of a registered model |
| InvalidPriceEstimates.GetAllEstimatesWithoutScopeInMonth | nodeconductor/cost_tracking/management/commands/delete_invalid_price_estimates.py:57-63 | the loop over the customers yields AllMonthSelection: the union of their selections, or the crash |
| InvalidPriceEstimates.AllMonthSelection | nodeconductor/cost_tracking/management/commands/delete_invalid_price_estimates.py:57-63 | a definition: the union of every customer's selection, or the crash when some customer's estimates do not all resolve; AllMonthSelectionWithinTable states where its rows come from |
| InvalidPriceEstimates.AllMonthSelectionWithinTable | nodeconductor/cost_tracking/management/commands/delete_invalid_price_estimates.py:57-63 | pass 3 selects only rows of the table, each in an incomplete month of one of the customers |
| InvalidPriceEstimates.PassEffect | nodeconductor/cost_tracking/management/commands/delete_invalid_price_estimates.py:107-114 | a definition: a pass deletes its selection when the selection is non-empty and confirmed; PassEffectRemovesSelection states its effect |
| InvalidPriceEstimates.PassEffectRemovesSelection | nodeconductor/cost_tracking/management/commands/delete_invalid_price_estimates.py:107-114 | a pass removes its selection only when confirmed, keeps every other row unchanged, and changes nothing when not confirmed |
| InvalidPriceEstimates.Swept | nodeconductor/cost_tracking/management/commands/delete_invalid_price_estimates.py:36-40 | a definition: the three passes in order, each on the rows the previous one left, with pass 3 possibly crashing; the two lemmas below state its outcome |
| InvalidPriceEstimates.SweepCompletesAfterContentTypePass | nodeconductor/cost_tracking/management/commands/delete_invalid_price_estimates.py:36-40 | once pass 1 is confirmed, pass 3 cannot crash, so running pass 1 first, with confirmation, keeps pass 3 from crashing |
| InvalidPriceEstimates.AssumeYesSweepLeavesNoInvalid | nodeconductor/cost_tracking/management/commands/delete_invalid_price_estimates.py:36-40 | with --assume-yes the command completes, adds no rows and leaves nothing for pass 1 or pass 2 to select |
| InvalidPriceEstimates.PriceEstimateTable.Delete | nodeconductor/cost_tracking/management/commands/delete_invalid_price_estimates.py:55 | the selected rows are removed |
| InvalidPriceEstimates.Command.DeletePriceEstimatesForInvalidContentTypes | nodeconductor/cost_tracking/management/commands/delete_invalid_price_estimates.py:125-137 | the table becomes PassEffect of pass 1's selection |
| InvalidPriceEstimates.Command.DeletePriceEstimatesWithoutScopeAndDetails | nodeconductor/cost_tracking/management/commands/delete_invalid_price_estimates.py:107-114 | the table becomes PassEffect of pass 2's selection |
| InvalidPriceEstimates.Command.DeletePriceEstimatesForInvalidMonth | nodeconductor/cost_tracking/management/commands/delete_invalid_price_estimates.py:48-56 | on a crash nothing is deleted and `completed` is false; otherwise the table becomes PassEffect of pass 3's selection |
| InvalidPriceEstimates.Command.Handle | nodeconductor/cost_tracking/management/commands/delete_invalid_price_estimates.py:36-40 | the three passes run in order content type, scope and details, month, and the outcome is Swept |

## Left out

- Transactions and row locking (`transaction.atomic`, `select_for_update`) in the global counters: each update is one sequential map update.
- Floating point. Money and the 0.8 alert factor are exact `real`s, and `float(...)` of the monthly cost is not modelled. `is_exceeded` is a parameter.
- The dates of Python's `datetime` are not modelled. A month is a (year, month) pair with `1 <= month <= 12`, and the year is unbounded.
- The SPL event branch of check_quota_threshold_breach (nodeconductor/quotas/handlers.py:35-46), because it only writes an event log.
- Logging, `stdout.write` and the content-type listing printed by pass 1. `raw_input` becomes an answer string given to each pass.
- Unlinking a resource (nodeconductor/cost_tracking/handlers.py:81-82) is a TODO in the source, so the model treats it as a no-op.
- The bodies of the estimate machinery, `get_descendants`, `get_estimated_models`, a quota field's creation condition, `get_aggregator_quotas` and the aggregator callbacks. They are defined elsewhere and are parameters here.
- QuotaHandlers.QuotasInitialized: a field's `get_or_create_quota` is defined elsewhere. The model assumes it creates the quota (field name, scope) at usage 0 when the quota is absent and the creation condition holds, and leaves an existing quota alone. Only the creation condition is a parameter.
- QuotaHandlers.AddUsage: `add_usage` is defined elsewhere. The model assumes it adds delta to the usage of the field's quota for the scope, raises on a missing quota, and does nothing for a missing quota when failing silently.
- CostTracking.PriceEstimateStore.ScopeDeletion: the effects of the estimate machinery are not applied to the estimate table. The resource branch (get or create with ancestors, update_configuration, update_total, init_details) and the other-scope branch (get or create with ancestors, init_details) can create rows and rewrite totals and details. The model records these as the returned calls, and keeps the table unchanged in those branches.
- CostTracking.GetConsumables: assumes get_consumables fails exactly for resource classes that are not registered, and also for the missing scope of a global quota (ResourceQuotaUpdate passes `quota.scope` to it unchecked).
- The cost backend's monthly cost is a `Result<real, BackendFailure>` input. The lookup of the resource's project (`resource.service_project_link.project`) is left out: the project is a parameter.
- Quota signals do not cascade. The save inside add_usage or a callback does not in turn trigger check_quota_threshold_breach or handle_aggregated_quotas.
- QuotaHandlers.QuotaStore.IncreaseGlobalQuota: the source looks a global quota up by name alone, and fails if the row is missing. The model requires that the quota exists and that no scoped quota uses the name.
- QuotaHandlers.QuotaStore.DecreaseGlobalQuota: the same precondition as IncreaseGlobalQuota.
- QuotaHandlers.QuotaStore.CreateGlobalQuotas: the same name-only lookup, stated as a precondition.
- QuotaHandlers.QuotaStore.AddQuotasToScope: `Quota.objects.create` raises on a duplicate key, so the model requires that the new scope has none of the quotas yet and that the names are distinct.
- Python 2 `str.strip()` and `str.lower()` are ASCII only. Unicode whitespace and case folding are not modelled.
- The SQL three-valued logic of `exclude` on NULL columns is not modelled. Pass 2's query is evaluated as a plain boolean predicate.
- A content type is identified with its model: `get_for_model(model)` is taken to be the content type whose `model_class()` is that model. Content types are compared as whole (id, model) values where the source compares ids, which assumes that a content-type id determines its model.
- The lists the command builds (per-tier tables, `invalid_estimates`) are sets of primary keys. Their order and duplicates do not matter, because the result is filtered with `pk__in`.
- InvalidPriceEstimates.MonthSelectionIdempotent: idempotence is stated per customer. If a row counts among two customers' estimates, deleting one customer's selection can make another customer's month incomplete.
- InvalidPriceEstimates.GetEstimatesWithoutScopeInMonth: the source crashes on an estimate without a content type or model class. The model returns `Failure(UnresolvableEstimate)`, and `Handle` reports `completed = false` with the earlier passes' deletions kept.
