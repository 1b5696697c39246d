/** The price-estimate event handlers of the cost-tracking application
    (nodeconductor/cost_tracking/handlers.py).

    A price estimate is identified by its scope and a calendar month. The
    handlers copy a threshold forward into a newly created estimate, admit or
    reject a resource provisioning against the project's cost limit, and react
    to the deletion of a scope. The estimate machinery they call into
    (get_or_create_current_with_ancestors, init_details, update_total, the
    consumption details) is defined elsewhere; a handler's use of it is modelled
    as the ordered list of calls it issues. */
module CostTracking {
  import opened Wrappers
  import opened Structure

  // ---------------------------------------------------------------------------
  // Calendar months

  predicate ValidPeriod(p: Period) {
    1 <= p.month <= 12
  }

  /** Months counted from January of year 0: consecutive months have
      consecutive indices. */
  function MonthIndex(p: Period): int {
    12 * p.year + (p.month - 1)
  }

  /** A valid month is determined by its index. */
  lemma {:induction false} MonthIndexInjective(p: Period, q: Period)
    requires ValidPeriod(p) && ValidPeriod(q)
    requires MonthIndex(p) == MonthIndex(q)
    ensures p == q
  {
  }

  /** The month before p, as `date(year, month, 1) - relativedelta(months=1)`
      computes it: January of a year goes to December of the year before. */
  function PreviousMonth(p: Period): (r: Period)
    requires ValidPeriod(p)
    ensures ValidPeriod(r)
    ensures MonthIndex(r) == MonthIndex(p) - 1
    ensures forall q :: ValidPeriod(q) && MonthIndex(q) + 1 == MonthIndex(p) ==> q == r
  {
    var r := if p.month == 1 then Period(p.year - 1, 12) else Period(p.year, p.month - 1);
    PreviousMonthUnique(p, r);
    r
  }

  lemma PreviousMonthUnique(p: Period, r: Period)
    requires ValidPeriod(r) && MonthIndex(r) + 1 == MonthIndex(p)
    ensures forall q :: ValidPeriod(q) && MonthIndex(q) + 1 == MonthIndex(p) ==> q == r
  {
    forall q | ValidPeriod(q) && MonthIndex(q) + 1 == MonthIndex(p) {
      MonthIndexInjective(q, r);
    }
  }

  // ---------------------------------------------------------------------------
  // Price estimates

  datatype EstimateKey = EstimateKey(scope: ScopeRef, period: Period)

  /** The stored fields of a price estimate; `details` is opaque to the handlers. */
  datatype PriceEstimate = PriceEstimate(total: real, limit: real, threshold: real, details: string)

  /** The estimate table: at most one estimate per (scope, year, month). */
  type Estimates = map<EstimateKey, PriceEstimate>

  /** The limit value meaning "no limit". */
  const Unlimited: real := -1.0

  /** The estimate of the same scope one month earlier. */
  predicate IsPreviousEstimate(j: EstimateKey, k: EstimateKey) {
    j.scope == k.scope && ValidPeriod(j.period) && MonthIndex(j.period) + 1 == MonthIndex(k.period)
  }

  /** The table after copy_threshold_from_previous_price_estimate has handled
      the save of the estimate at k. Only a newly created estimate is touched;
      it takes the threshold of the same scope's estimate for the month before,
      if that estimate exists and its threshold is positive. Nothing but that
      one threshold changes. */
  function ThresholdCopied(e: Estimates, k: EstimateKey, created: bool): (r: Estimates)
    requires k in e && ValidPeriod(k.period)
    ensures r.Keys == e.Keys
    ensures forall j :: j in e && j != k ==> r[j] == e[j]
    ensures r[k] == e[k].(threshold := r[k].threshold)
    ensures forall j :: j in e && IsPreviousEstimate(j, k) && e[j].threshold > 0.0 && created ==>
              r[k].threshold == e[j].threshold
    ensures r[k].threshold != e[k].threshold ==>
              created && exists j :: j in e && IsPreviousEstimate(j, k) && e[j].threshold > 0.0 &&
                                     r[k].threshold == e[j].threshold
    ensures (!created || forall j :: j in e && IsPreviousEstimate(j, k) ==> e[j].threshold <= 0.0) ==> r == e
  {
    var prev := EstimateKey(k.scope, PreviousMonth(k.period));
    assert IsPreviousEstimate(prev, k);
    if created && prev in e && e[prev].threshold > 0.0 then
      e[k := e[k].(threshold := e[prev].threshold)]
    else
      e
  }

  /** The worked example of carrying a threshold of 50 forward: the new
      estimate gets threshold 50 and keeps its own (unlimited) limit. */
  lemma ThresholdCarriedForward(e: Estimates, k: EstimateKey)
    requires k in e && ValidPeriod(k.period) && e[k].limit == Unlimited
    requires EstimateKey(k.scope, PreviousMonth(k.period)) in e
    requires e[EstimateKey(k.scope, PreviousMonth(k.period))].threshold == 50.0
    ensures ThresholdCopied(e, k, true)[k].threshold == 50.0
    ensures ThresholdCopied(e, k, true)[k].limit == Unlimited
  {
  }

  // ---------------------------------------------------------------------------
  // Cost-limit admission of a resource provisioning

  /** Why the monthly-cost lookup of the resource's cost backend failed. */
  datatype BackendFailure =
    | ServiceBackendNotImplemented
    | ServiceBackendError(message: string)
    | UnexpectedException(message: string)

  datatype Admission = Admitted | CostLimitExceeded(detail: string)

  const EarlyLimitDetail: string := "Estimated cost of project is over limit."
  const TotalLimitDetail: string := "Total estimated cost of resource and project is over limit."

  /** check_project_cost_limit_on_resource_provision. `estimate` is the
      project's estimate for the current month, if there is one; `monthlyCost`
      is what the resource's cost backend answers when asked for its monthly
      cost estimate. */
  function ProvisionAdmission(estimate: Option<PriceEstimate>, monthlyCost: Result<real, BackendFailure>): (r: Admission)
    // no current estimate, or an unlimited one: always admitted
    ensures (estimate.None? || estimate.value.limit == Unlimited) ==> r == Admitted
    // the early rejection happens exactly when the total alone already exceeds the limit
    ensures r == CostLimitExceeded(EarlyLimitDetail) <==>
              estimate.Some? && estimate.value.limit != Unlimited && estimate.value.total > estimate.value.limit
    // a failed cost lookup admits whatever passed the early check
    ensures monthlyCost.Failure? ==> r != CostLimitExceeded(TotalLimitDetail)
    // an admitted provisioning under a limit keeps total and total + cost within it
    ensures r == Admitted && estimate.Some? && estimate.value.limit != Unlimited ==>
              estimate.value.total <= estimate.value.limit &&
              (monthlyCost.Success? ==> estimate.value.total + monthlyCost.value <= estimate.value.limit)
    // every rejection is justified by the limit
    ensures r.CostLimitExceeded? ==> r.detail in {EarlyLimitDetail, TotalLimitDetail}
    ensures r == CostLimitExceeded(TotalLimitDetail) ==>
              estimate.Some? && monthlyCost.Success? && estimate.value.limit != Unlimited &&
              estimate.value.total + monthlyCost.value > estimate.value.limit
  {
    match estimate
    case None => Admitted
    case Some(est) =>
      if est.limit == Unlimited then Admitted
      else if est.total > est.limit then CostLimitExceeded(EarlyLimitDetail)
      else
        match monthlyCost
        case Failure(_) => Admitted
        case Success(cost) =>
          if est.total + cost > est.limit then CostLimitExceeded(TotalLimitDetail) else Admitted
  }

  /** Lowering the project total or the resource's monthly cost never turns an
      admitted provisioning into a rejected one. */
  lemma AdmissionMonotone(est: PriceEstimate, total: real, cost: real, cost': real)
    requires total <= est.total && cost' <= cost
    requires ProvisionAdmission(Some(est), Success(cost)) == Admitted
    ensures ProvisionAdmission(Some(est.(total := total)), Success(cost')) == Admitted
  {
  }

  /** The worked example: limit 100, total 90 and a resource costing 20 is
      rejected by the second check; the same request under no limit is admitted. */
  lemma AdmissionExample(est: PriceEstimate)
    requires est.limit == 100.0 && est.total == 90.0
    ensures ProvisionAdmission(Some(est), Success(20.0)) == CostLimitExceeded(TotalLimitDetail)
    ensures ProvisionAdmission(Some(est.(limit := Unlimited)), Success(20.0)) == Admitted
  {
  }

  // ---------------------------------------------------------------------------
  // Calls into the estimate machinery defined elsewhere

  /** Consumable item name to quantity. */
  type Configuration = map<string, int>

  /** One call a handler makes into the estimate machinery; each acts on the
      current month's estimate of `scope`. */
  datatype EstimateCall =
    | GetOrCreateCurrentWithAncestors(scope: ScopeRef)
    | GetOrCreateConsumptionDetails(scope: ScopeRef)
    | UpdateConfiguration(scope: ScopeRef, configuration: Configuration)
    | UpdateTotal(scope: ScopeRef)
    | InitDetails(scope: ScopeRef)

  /** CostTrackingRegister: the resource classes registered for cost tracking
      and, for a registered resource, its current consumables. */
  datatype CostTrackingRegister = CostTrackingRegister(
    registeredResources: set<ModelClass>,
    consumablesOf: ScopeRef -> Configuration)

  datatype RegisterError = ResourceNotRegisteredError

  /** CostTrackingRegister.get_consumables: fails for an unregistered resource class. */
  function GetConsumables(register: CostTrackingRegister, resource: ScopeRef): (r: Result<Configuration, RegisterError>)
  {
    if resource.model in register.registeredResources then Success(register.consumablesOf(resource))
    else Failure(ResourceNotRegisteredError)
  }

  /** A call sequence re-estimates `resource` with `configuration`: every call
      acts on the resource's own estimate, the estimate (with its ancestors)
      is got or created first, the configuration stored is `configuration`,
      the details are never re-initialised, and the total is recomputed last,
      after the configuration is stored. */
  predicate Reestimates(calls: seq<EstimateCall>, resource: ScopeRef, configuration: Configuration) {
    && |calls| > 0
    && calls[0] == GetOrCreateCurrentWithAncestors(resource)
    && calls[|calls| - 1] == UpdateTotal(resource)
    && (forall i :: 0 <= i < |calls| ==> calls[i].scope == resource)
    && (forall i :: 0 <= i < |calls| ==> !calls[i].InitDetails?)
    && (forall i :: 0 <= i < |calls| && calls[i].UpdateConfiguration? ==> calls[i].configuration == configuration)
    && exists i :: 0 <= i < |calls| - 1 && calls[i] == UpdateConfiguration(resource, configuration)
  }

  /** _update_resource_estimate: get or create the resource's current estimate
      (with its ancestors) and its consumption details, store the new
      configuration and recompute the total. */
  function UpdateResourceEstimate(resource: ScopeRef, configuration: Configuration): (r: seq<EstimateCall>)
    ensures Reestimates(r, resource, configuration)
  {
    var r := [ GetOrCreateCurrentWithAncestors(resource),
               GetOrCreateConsumptionDetails(resource),
               UpdateConfiguration(resource, configuration),
               UpdateTotal(resource) ];
    assert r[2] == UpdateConfiguration(resource, configuration) && r[3] == UpdateTotal(resource);
    r
  }

  /** _resource_deletion: a registered resource is re-estimated with an empty
      configuration and its details re-initialised; an unregistered one is left alone. */
  function ResourceDeletion(resource: ScopeRef, register: CostTrackingRegister): (r: seq<EstimateCall>)
    ensures r == [] <==> resource.model !in register.registeredResources
    ensures r != [] ==> Reestimates(r[..|r| - 1], resource, map[]) && r[|r| - 1] == InitDetails(resource)
  {
    if resource.model !in register.registeredResources then []
    else
      var r := UpdateResourceEstimate(resource, map[]) + [InitDetails(resource)];
      assert r[..|r| - 1] == UpdateResourceEstimate(resource, map[]);
      r
  }

  /** resource_update: re-estimate a registered resource with its current consumables. */
  function ResourceUpdate(resource: ScopeRef, register: CostTrackingRegister): (r: seq<EstimateCall>)
    ensures r == [] <==> resource.model !in register.registeredResources
    ensures r != [] ==> Reestimates(r, resource, register.consumablesOf(resource))
  {
    match GetConsumables(register, resource)
    case Failure(_) => []
    case Success(configuration) => UpdateResourceEstimate(resource, configuration)
  }

  /** resource_quota_update: a quota changed; re-estimate the resource the
      quota belongs to. A global quota has no scope, which get_consumables
      rejects as it rejects any unregistered class. */
  function ResourceQuotaUpdate(quotaScope: Option<ScopeRef>, register: CostTrackingRegister): (r: seq<EstimateCall>)
    ensures quotaScope.None? ==> r == []
    ensures quotaScope.Some? ==> (r == [] <==> quotaScope.value.model !in register.registeredResources)
    ensures r != [] ==> quotaScope.Some? && Reestimates(r, quotaScope.value, register.consumablesOf(quotaScope.value))
  {
    match quotaScope
    case None => []
    case Some(resource) => ResourceUpdate(resource, register)
  }

  /** Deleting a registered resource is the update it would get from a
      register that reports no consumables, followed by re-initialising its
      details. */
  lemma DeletionIsEmptyUpdate(resource: ScopeRef, register: CostTrackingRegister)
    requires resource.model in register.registeredResources
    ensures ResourceDeletion(resource, register) ==
            ResourceUpdate(resource, register.(consumablesOf := _ => map[])) + [InitDetails(resource)]
  {
  }

  /** Deleting a registered resource is not a plain re-estimate under any
      configuration: its details are re-initialised after the total. */
  lemma DeletionIsNoUpdate(resource: ScopeRef, register: CostTrackingRegister, configuration: Configuration)
    requires resource.model in register.registeredResources
    ensures !Reestimates(ResourceDeletion(resource, register), resource, configuration)
  {
  }

  // ---------------------------------------------------------------------------
  // Scope deletion

  /** The branch scope_deletion takes for a deleted object. */
  datatype DeletionBranch = UnlinkedResource | DeletedResource | DeletedCustomer | OtherScope

  function ScopeDeletionBranch(instance: ScopeRef, performUnlink: bool): (r: DeletionBranch)
    ensures r.UnlinkedResource? <==> instance.model.isResourceMixin && performUnlink
    ensures r.DeletedResource? <==> instance.model.isResourceMixin && !performUnlink
    ensures r.DeletedCustomer? <==> !instance.model.isResourceMixin && instance.model.isCustomer
    ensures r.OtherScope? <==> !instance.model.isResourceMixin && !instance.model.isCustomer
  {
    if instance.model.isResourceMixin && performUnlink then UnlinkedResource
    else if instance.model.isResourceMixin then DeletedResource
    else if instance.model.isCustomer then DeletedCustomer
    else OtherScope
  }

  /** The estimates _customer_deletion removes: every descendant of one of the
      customer's own estimates. */
  function CustomerDescendants(e: Estimates, customer: ScopeRef, descendants: EstimateKey -> set<EstimateKey>): set<EstimateKey> {
    set c, d | c in e && c.scope == customer && d in descendants(c) && d in e :: d
  }

  /** The estimate table after _customer_deletion: exactly the descendants of
      the customer's estimates are gone; every other row stays as it was. */
  function AfterCustomerDeletion(e: Estimates, customer: ScopeRef, descendants: EstimateKey -> set<EstimateKey>): (r: Estimates)
    ensures r.Keys <= e.Keys
    ensures forall k :: k in r ==> r[k] == e[k]
    ensures forall c, d :: c in e && c.scope == customer && d in descendants(c) ==> d !in r
    ensures forall k :: k in e && k !in r ==> exists c :: c in e && c.scope == customer && k in descendants(c)
  {
    e - CustomerDescendants(e, customer, descendants)
  }

  /** Deleting a scope that is neither a resource nor a customer refreshes the
      scope's current estimate. */
  function OtherScopeDeletion(instance: ScopeRef): (r: seq<EstimateCall>)
    ensures |r| > 0 && r[0] == GetOrCreateCurrentWithAncestors(instance) && r[|r| - 1] == InitDetails(instance)
    ensures forall i :: 0 <= i < |r| ==> r[i].scope == instance && !r[i].UpdateConfiguration? && !r[i].UpdateTotal?
  {
    [GetOrCreateCurrentWithAncestors(instance), InitDetails(instance)]
  }

  // ---------------------------------------------------------------------------
  // The estimate table as mutable state

  class PriceEstimateStore {
    var estimates: Estimates

    constructor (initial: Estimates)
      ensures estimates == initial
    {
      estimates := initial;
    }

    /** PriceEstimate.objects.get_current: the scope's estimate for the current month. */
    function CurrentEstimate(scope: ScopeRef, now: Period): (r: Option<PriceEstimate>)
      reads this
    {
      var k := EstimateKey(scope, now);
      if k in estimates then Some(estimates[k]) else None
    }

    /** copy_threshold_from_previous_price_estimate, run after the estimate at
        `instance` has been saved. */
    method CopyThresholdFromPreviousPriceEstimate(instance: EstimateKey, created: bool)
      requires instance in estimates && ValidPeriod(instance.period)
      modifies this
      ensures estimates == ThresholdCopied(old(estimates), instance, created)
    {
      if created {
        var current := instance.period;
        var prevPeriod := if current.month == 1 then Period(current.year - 1, 12)
                          else Period(current.year, current.month - 1);
        var prev := EstimateKey(instance.scope, prevPeriod);
        if prev in estimates && estimates[prev].threshold > 0.0 {
          estimates := estimates[instance := estimates[instance].(threshold := estimates[prev].threshold)];
        }
      }
    }

    /** check_project_cost_limit_on_resource_provision for a resource of
        `project`, in the month `now`. */
    method CheckProjectCostLimitOnResourceProvision(project: ScopeRef, now: Period, monthlyCost: Result<real, BackendFailure>)
      returns (r: Admission)
      ensures r == ProvisionAdmission(CurrentEstimate(project, now), monthlyCost)
      ensures EstimateKey(project, now) !in estimates ==> r == Admitted
    {
      var k := EstimateKey(project, now);
      if k !in estimates {
        return Admitted;
      }
      var est := estimates[k];
      if est.limit == Unlimited {
        return Admitted;
      }
      if est.total > est.limit {
        return CostLimitExceeded(EarlyLimitDetail);
      }
      if monthlyCost.Failure? {
        return Admitted;
      }
      if est.total + monthlyCost.value > est.limit {
        return CostLimitExceeded(TotalLimitDetail);
      }
      return Admitted;
    }

    /** _customer_deletion: for each of the customer's estimates, delete every
        descendant estimate. */
    method CustomerDeletion(customer: ScopeRef, descendants: EstimateKey -> set<EstimateKey>)
      modifies this
      ensures estimates == AfterCustomerDeletion(old(estimates), customer, descendants)
    {
      ghost var e0 := estimates;
      var pending := set c | c in estimates && c.scope == customer;
      ghost var done: set<EstimateKey> := {};
      while pending != {}
        invariant pending !! done
        invariant pending + done == set c | c in e0 && c.scope == customer
        invariant estimates == e0 - (set c, d | c in done && d in descendants(c) && d in e0 :: d)
        decreases pending
      {
        var c :| c in pending;
        var doomed := descendants(c);
        ghost var deleted: set<EstimateKey> := {};
        while doomed != {}
          invariant doomed + deleted == descendants(c)
          invariant estimates == e0 - (set c', d | c' in done && d in descendants(c') && d in e0 :: d)
                                    - (set d | d in deleted && d in e0)
          decreases doomed
        {
          var d :| d in doomed;
          estimates := estimates - {d};
          doomed := doomed - {d};
          deleted := deleted + {d};
        }
        pending := pending - {c};
        done := done + {c};
      }
    }

    /** scope_deletion: exactly one branch runs. An object being unlinked
        changes nothing; a deleted resource is re-estimated (and its estimate
        rows stay); a customer's estimates lose their descendants; any other
        scope has its current estimate refreshed. */
    method ScopeDeletion(instance: ScopeRef, performUnlink: bool, register: CostTrackingRegister,
                         descendants: EstimateKey -> set<EstimateKey>)
      returns (calls: seq<EstimateCall>)
      modifies this
      ensures var branch := ScopeDeletionBranch(instance, performUnlink);
        && (branch == DeletedCustomer ==> estimates == AfterCustomerDeletion(old(estimates), instance, descendants))
        && (branch != DeletedCustomer ==> estimates == old(estimates))
        && (branch == UnlinkedResource ==> calls == [])
        && (branch == DeletedResource ==> calls == ResourceDeletion(instance, register))
        && (branch == DeletedCustomer ==> calls == [])
        && (branch == OtherScope ==> calls == OtherScopeDeletion(instance))
    {
      var isResource := instance.model.isResourceMixin;
      if isResource && performUnlink {
        calls := [];  // unlinking is not supported yet
      } else if isResource && !performUnlink {
        calls := ResourceDeletion(instance, register);
      } else if instance.model.isCustomer {
        CustomerDeletion(instance, descendants);
        calls := [];
      } else {
        calls := OtherScopeDeletion(instance);
      }
    }
  }
}
