/** The quota event handlers (nodeconductor/quotas/handlers.py).

    A quota is identified by its name and its scope; a global quota has no
    scope. The handlers create the quotas of a newly created scope, keep the
    global per-model counters, maintain count quotas, dispatch child-quota
    changes to the aggregator quotas fed by them, and raise or close the
    over-threshold alert of a scope. What a quota field does when asked to
    create its quota, which quotas aggregate a child, what an aggregator does
    with a child's change and when a quota counts as exceeded are defined
    elsewhere; here they are parameters. */
module QuotaHandlers {
  import opened Wrappers
  import opened Structure

  datatype QuotaKey = QuotaKey(name: string, scope: Option<ScopeRef>)

  /** The quota table: the usage of every quota, keyed by (name, scope). */
  type Usages = map<QuotaKey, int>

  /** A quota field declared on a model; `isUsageAggregator` says whether the
      field is a UsageAggregatorQuotaField. */
  datatype QuotaField = QuotaField(name: string, isUsageAggregator: bool)

  /** What the handlers read from a model class that has quotas: QUOTAS_NAMES
      (old style), GLOBAL_COUNT_QUOTA_NAME if declared, get_quotas_fields(). */
  datatype QuotaModel = QuotaModel(
    quotasNames: seq<string>,
    globalCountQuotaName: Option<string>,
    quotasFields: seq<QuotaField>)

  /** The model signals the handlers are connected to. */
  datatype Signal = PostSave(created: bool) | PreDelete | PostDelete

  datatype QuotaError = QuotaNotFound(key: QuotaKey)

  /** An alert is keyed by its scope and its type. */
  datatype Alert = Alert(scope: ScopeRef, alertType: string)

  const OverThresholdAlert: string := "quota_usage_is_over_threshold"
  const AlertThreshold: real := 0.8

  function GlobalKey(name: string): QuotaKey {
    QuotaKey(name, None)
  }

  /** A quota as a handler receives it: its key, its usage, and the usage it
      had when last saved (the field tracker's previous value). */
  datatype QuotaSnapshot = QuotaSnapshot(key: QuotaKey, usage: int, previousUsage: int)

  // ---------------------------------------------------------------------------
  // Quotas of a new scope

  function ScopeKey(name: string, scope: ScopeRef): QuotaKey {
    QuotaKey(name, Some(scope))
  }

  /** The quotas named `names` for `scope`, each with usage 0. */
  function ZeroQuotas(names: seq<string>, scope: ScopeRef): map<QuotaKey, int> {
    map n | n in names :: ScopeKey(n, scope) := 0
  }

  /** The quota table after add_quotas_to_scope has created the quotas named
      `names` for `scope`, each with usage 0. */
  function ScopeQuotasAdded(u: Usages, names: seq<string>, scope: ScopeRef): (r: Usages)
    ensures r.Keys == u.Keys + set i | 0 <= i < |names| :: ScopeKey(names[i], scope)
    ensures forall i :: 0 <= i < |names| ==> r[ScopeKey(names[i], scope)] == 0
    ensures forall k :: k in u && (k.scope != Some(scope) || k.name !in names) ==> r[k] == u[k]
  {
    u + ZeroQuotas(names, scope)
  }

  lemma ZeroQuotasStep(names: seq<string>, name: string, scope: ScopeRef)
    ensures ZeroQuotas(names + [name], scope) == ZeroQuotas(names, scope)[ScopeKey(name, scope) := 0]
  {
    var a := ZeroQuotas(names + [name], scope);
    var b := ZeroQuotas(names, scope)[ScopeKey(name, scope) := 0];
    forall k | k in a ensures k in b {
      var n :| n in names + [name] && k == ScopeKey(n, scope);
    }
    forall k | k in b ensures k in a {
      if k != ScopeKey(name, scope) {
        var n :| n in names && k == ScopeKey(n, scope);
        assert n in names + [name];
      }
    }
    assert a.Keys == b.Keys;
  }

  /** Creating one more quota extends the table built so far. */
  lemma {:induction false} ScopeQuotasAddedStep(u: Usages, names: seq<string>, i: nat, scope: ScopeRef)
    requires i < |names|
    ensures ScopeQuotasAdded(u, names[..i + 1], scope) == ScopeQuotasAdded(u, names[..i], scope)[ScopeKey(names[i], scope) := 0]
  {
    assert names[..i + 1] == names[..i] + [names[i]];
    ZeroQuotasStep(names[..i], names[i], scope);
    var m := ZeroQuotas(names[..i], scope);
    assert u + m[ScopeKey(names[i], scope) := 0] == (u + m)[ScopeKey(names[i], scope) := 0];
  }

  /** The quota table after init_quotas has asked every quota field of the
      model to get or create its quota for `scope`. A field whose creation
      condition fails (`allowed` is false) creates nothing and does not stop
      the fields after it. */
  function QuotasInitialized(u: Usages, fields: seq<QuotaField>, scope: ScopeRef,
                             allowed: (QuotaField, ScopeRef) -> bool): (r: Usages)
    ensures forall k :: k in u ==> k in r && r[k] == u[k]
    ensures forall i :: 0 <= i < |fields| && allowed(fields[i], scope) ==> ScopeKey(fields[i].name, scope) in r
    ensures forall k :: k in r && k !in u ==>
              r[k] == 0 && exists i :: 0 <= i < |fields| && allowed(fields[i], scope) && k == ScopeKey(fields[i].name, scope)
  {
    var created := CreatedKeys(fields, scope, allowed);
    map k | k in u.Keys + created :: if k in u then u[k] else 0
  }

  /** The keys of the quotas whose creation condition holds. */
  function CreatedKeys(fields: seq<QuotaField>, scope: ScopeRef, allowed: (QuotaField, ScopeRef) -> bool): set<QuotaKey> {
    set i | 0 <= i < |fields| && allowed(fields[i], scope) :: ScopeKey(fields[i].name, scope)
  }

  lemma CreatedKeysStep(fields: seq<QuotaField>, field: QuotaField, scope: ScopeRef,
                        allowed: (QuotaField, ScopeRef) -> bool)
    ensures CreatedKeys(fields + [field], scope, allowed) ==
            CreatedKeys(fields, scope, allowed) + if allowed(field, scope) then {ScopeKey(field.name, scope)} else {}
  {
    var a := CreatedKeys(fields + [field], scope, allowed);
    var b := CreatedKeys(fields, scope, allowed) + if allowed(field, scope) then {ScopeKey(field.name, scope)} else {};
    forall k | k in a ensures k in b {
      var j :| 0 <= j < |fields| + 1 && allowed((fields + [field])[j], scope) && k == ScopeKey((fields + [field])[j].name, scope);
      if j < |fields| {
        assert (fields + [field])[j] == fields[j];
      }
    }
    forall k | k in b ensures k in a {
      if k in CreatedKeys(fields, scope, allowed) {
        var j :| 0 <= j < |fields| && allowed(fields[j], scope) && k == ScopeKey(fields[j].name, scope);
        assert (fields + [field])[j] == fields[j];
      } else {
        assert (fields + [field])[|fields|] == field;
      }
    }
  }

  /** Getting or creating one more field's quota extends the table built so far. */
  lemma {:induction false} QuotasInitializedStep(u: Usages, fields: seq<QuotaField>, i: nat, scope: ScopeRef,
                                                 allowed: (QuotaField, ScopeRef) -> bool)
    requires i < |fields|
    ensures var before := QuotasInitialized(u, fields[..i], scope, allowed);
            var key := ScopeKey(fields[i].name, scope);
            QuotasInitialized(u, fields[..i + 1], scope, allowed) ==
              if allowed(fields[i], scope) && key !in before then before[key := 0] else before
  {
    assert fields[..i + 1] == fields[..i] + [fields[i]];
    CreatedKeysStep(fields[..i], fields[i], scope, allowed);
  }

  // ---------------------------------------------------------------------------
  // Global counters

  /** The names of the global count quotas declared by `models`. */
  function GlobalNames(models: seq<QuotaModel>): set<string> {
    set i | 0 <= i < |models| && models[i].globalCountQuotaName.Some? :: models[i].globalCountQuotaName.value
  }

  /** The global quotas are looked up by name alone; that finds the scope-less
      quota exactly when no scoped quota uses the name. */
  predicate NameIsGlobal(u: Usages, name: string) {
    forall k :: k in u && k.name == name ==> k.scope.None?
  }

  /** The quota table after create_global_quotas: every declared global count
      quota exists; the ones that existed keep their usage, new ones start at 0. */
  function GlobalQuotasCreated(u: Usages, models: seq<QuotaModel>): (r: Usages)
    ensures forall k :: k in u ==> k in r && r[k] == u[k]
    ensures forall n :: n in GlobalNames(models) ==> GlobalKey(n) in r
    ensures forall k :: k in r && k !in u ==> r[k] == 0 && k.scope.None? && k.name in GlobalNames(models)
  {
    map k | k in u.Keys + (set n | n in GlobalNames(models) :: GlobalKey(n)) :: if k in u then u[k] else 0
  }

  /** create_global_quotas is idempotent: a second run changes nothing, so each
      name still has exactly one global quota. */
  lemma {:induction false} GlobalQuotasIdempotent(u: Usages, models: seq<QuotaModel>)
    ensures GlobalQuotasCreated(GlobalQuotasCreated(u, models), models) == GlobalQuotasCreated(u, models)
  {
    var once := GlobalQuotasCreated(u, models);
    var twice := GlobalQuotasCreated(once, models);
    assert twice.Keys == once.Keys;
  }

  lemma {:induction false} GlobalQuotasCreatedStep(u: Usages, models: seq<QuotaModel>, i: nat)
    requires i < |models|
    ensures var before := GlobalQuotasCreated(u, models[..i]);
            GlobalQuotasCreated(u, models[..i + 1]) ==
              if models[i].globalCountQuotaName.Some? && GlobalKey(models[i].globalCountQuotaName.value) !in before
              then before[GlobalKey(models[i].globalCountQuotaName.value) := 0]
              else before
  {
    assert models[..i + 1][i] == models[i];
    var names := GlobalNames(models[..i]);
    var names' := GlobalNames(models[..i + 1]);
    forall n | n in names' ensures n in names || (models[i].globalCountQuotaName == Some(n)) {
      var j :| 0 <= j < i + 1 && models[..i + 1][j].globalCountQuotaName.Some? && models[..i + 1][j].globalCountQuotaName.value == n;
      if j < i { assert models[..i][j] == models[..i + 1][j]; }
    }
    forall n | n in names ensures n in names' {
      var j :| 0 <= j < i && models[..i][j].globalCountQuotaName.Some? && models[..i][j].globalCountQuotaName.value == n;
      assert models[..i + 1][j] == models[..i][j];
    }
  }

  /** The quota table after increase_global_quota has handled a save of an
      instance of `sender`: a creation raises the sender's global count quota
      by exactly one; nothing else changes. */
  function GlobalCountAfterSave(u: Usages, sender: QuotaModel, created: bool): (r: Usages)
    requires created && sender.globalCountQuotaName.Some? ==> GlobalKey(sender.globalCountQuotaName.value) in u
    ensures r.Keys == u.Keys
    ensures forall k :: k in u ==>
              r[k] == u[k] + (if created && sender.globalCountQuotaName == Some(k.name) && k.scope.None? then 1 else 0)
  {
    if created && sender.globalCountQuotaName.Some? then
      var k := GlobalKey(sender.globalCountQuotaName.value);
      u[k := u[k] + 1]
    else u
  }

  /** The quota table after decrease_global_quota has handled a deletion of an
      instance of `sender`: the global count quota drops by exactly one. */
  function GlobalCountAfterDelete(u: Usages, sender: QuotaModel): (r: Usages)
    requires sender.globalCountQuotaName.Some? ==> GlobalKey(sender.globalCountQuotaName.value) in u
    ensures r.Keys == u.Keys
    ensures forall k :: k in u ==>
              r[k] == u[k] - (if sender.globalCountQuotaName == Some(k.name) && k.scope.None? then 1 else 0)
  {
    if sender.globalCountQuotaName.Some? then
      var k := GlobalKey(sender.globalCountQuotaName.value);
      u[k := u[k] - 1]
    else u
  }

  /** Creating an object and deleting it again leaves every counter as it was. */
  lemma GlobalCountCreateThenDelete(u: Usages, sender: QuotaModel)
    requires sender.globalCountQuotaName.Some? ==> GlobalKey(sender.globalCountQuotaName.value) in u
    ensures GlobalCountAfterDelete(GlobalCountAfterSave(u, sender, true), sender) == u
  {
  }

  // ---------------------------------------------------------------------------
  // Count quotas

  /** count_quota_field.add_usage on the quota named by the field for the
      counted object's scope. A missing quota is an error unless the call
      fails silently, in which case nothing happens. */
  function AddUsage(u: Usages, key: QuotaKey, delta: int, failSilently: bool): (r: Result<Usages, QuotaError>)
  {
    if key in u then Success(u[key := u[key] + delta])
    else if failSilently then Success(u)
    else Failure(QuotaNotFound(key))
  }

  /** The handler made by count_quota_handler_factory for `field`; `scope` is
      the scope whose count quota counts the object the signal is about. */
  function CountQuotaUpdate(u: Usages, field: QuotaField, scope: ScopeRef, signal: Signal): (r: Result<Usages, QuotaError>)
    ensures r.Failure? <==> signal == PostSave(true) && ScopeKey(field.name, scope) !in u
    ensures r.Success? ==> r.value.Keys == u.Keys
    ensures r.Success? ==> forall k :: k in u && k != ScopeKey(field.name, scope) ==> r.value[k] == u[k]
    ensures r.Success? && ScopeKey(field.name, scope) in u ==>
              r.value[ScopeKey(field.name, scope)] == u[ScopeKey(field.name, scope)] +
                (if signal == PostSave(true) then 1 else if signal == PostDelete then -1 else 0)
  {
    var key := ScopeKey(field.name, scope);
    match signal
    case PostSave(created) => if created then AddUsage(u, key, 1, false) else Success(u)
    case PostDelete => AddUsage(u, key, -1, true)
    case PreDelete => Success(u)
  }

  /** Creating a counted object and deleting it again restores the count
      quota's usage (a customer with one project created and deleted has
      nc_project_count 0 again). */
  lemma {:induction false} CountCreateThenDelete(u: Usages, field: QuotaField, scope: ScopeRef)
    requires ScopeKey(field.name, scope) in u
    ensures CountQuotaUpdate(u, field, scope, PostSave(true)).Success?
    ensures CountQuotaUpdate(CountQuotaUpdate(u, field, scope, PostSave(true)).value, field, scope, PostDelete) == Success(u)
  {
    var key := ScopeKey(field.name, scope);
    var saved := CountQuotaUpdate(u, field, scope, PostSave(true)).value;
    assert saved == u[key := u[key] + 1];
    assert saved[key := saved[key] - 1] == u;
  }

  // ---------------------------------------------------------------------------
  // Threshold alerts

  /** The alert set after check_quota_threshold_breach has handled the save of
      the quota at `key`: a global quota leaves the alerts alone; a scoped one
      leaves its scope's over-threshold alert raised exactly when the quota is
      exceeded. No other alert changes. */
  function AlertsAfterSave(alerts: set<Alert>, key: QuotaKey, exceeded: bool): (r: set<Alert>)
    ensures key.scope.None? ==> r == alerts
    ensures key.scope.Some? ==> (Alert(key.scope.value, OverThresholdAlert) in r <==> exceeded)
    ensures key.scope.Some? ==>
              forall a :: a != Alert(key.scope.value, OverThresholdAlert) ==> (a in r <==> a in alerts)
  {
    if key.scope.None? then alerts
    else if exceeded then alerts + {Alert(key.scope.value, OverThresholdAlert)}
    else alerts - {Alert(key.scope.value, OverThresholdAlert)}
  }

  // ---------------------------------------------------------------------------
  // Aggregation

  /** The collaborators handle_aggregated_quotas calls: the field of a
      quota, the aggregator quotas a child quota of a field feeds, and the
      aggregator field's two callbacks. */
  datatype AggregationHooks = AggregationHooks(
    fieldOf: QuotaKey -> Option<QuotaField>,
    aggregatorQuotas: (Usages, QuotaField, QuotaSnapshot) -> seq<QuotaKey>,
    postChildQuotaSave: (Usages, QuotaKey, QuotaSnapshot, bool) -> Usages,
    preChildQuotaDelete: (Usages, QuotaKey, QuotaSnapshot) -> Usages)

  /** Whether a quota's changes are passed on to aggregators: it is scoped and
      its field exists and is not itself a usage aggregator. */
  predicate Aggregates(child: QuotaSnapshot, hooks: AggregationHooks) {
    child.key.scope.Some? && hooks.fieldOf(child.key).Some? && !hooks.fieldOf(child.key).value.isUsageAggregator
  }

  /** The callback of one aggregator quota that matches the signal. */
  function NotifyAggregator(u: Usages, aggregator: QuotaKey, child: QuotaSnapshot, signal: Signal,
                            hooks: AggregationHooks): (r: Usages)
  {
    match signal
    case PostSave(created) => hooks.postChildQuotaSave(u, aggregator, child, created)
    case PreDelete => hooks.preChildQuotaDelete(u, aggregator, child)
    case PostDelete => u
  }

  /** The aggregators notified one after the other, in order. */
  function NotifyAll(u: Usages, aggregators: seq<QuotaKey>, child: QuotaSnapshot, signal: Signal,
                     hooks: AggregationHooks): (r: Usages)
    ensures signal.PostDelete? ==> r == u
    ensures aggregators == [] ==> r == u
    decreases |aggregators|
  {
    if aggregators == [] then u
    else
      var before := NotifyAll(u, aggregators[..|aggregators| - 1], child, signal, hooks);
      NotifyAggregator(before, aggregators[|aggregators| - 1], child, signal, hooks)
  }

  /** The quota table after handle_aggregated_quotas has handled `signal` for
      the quota `child`. Global quotas, quotas without a field and quotas of a
      usage-aggregator field are not passed on (the last keeps an aggregator's
      own save from re-triggering aggregation); post_delete is not passed on. */
  function AggregatedQuotas(u: Usages, child: QuotaSnapshot, signal: Signal, hooks: AggregationHooks): (r: Usages)
    ensures !Aggregates(child, hooks) ==> r == u
    ensures signal.PostDelete? ==> r == u
  {
    if !Aggregates(child, hooks) then u
    else NotifyAll(u, hooks.aggregatorQuotas(u, hooks.fieldOf(child.key).value, child), child, signal, hooks)
  }

  /** Notifying the aggregators of `first` and then those of `second` is
      notifying the aggregators of `first + second`, in that order. */
  lemma {:induction false} NotifyAllAppend(u: Usages, first: seq<QuotaKey>, second: seq<QuotaKey>,
                                           child: QuotaSnapshot, signal: Signal, hooks: AggregationHooks)
    ensures NotifyAll(u, first + second, child, signal, hooks) ==
            NotifyAll(NotifyAll(u, first, child, signal, hooks), second, child, signal, hooks)
    decreases |second|
  {
    if second == [] {
      assert first + second == first;
    } else {
      var last := second[|second| - 1];
      var init := second[..|second| - 1];
      assert (first + second)[..|first + second| - 1] == first + init;
      assert (first + second)[|first + second| - 1] == last;
      NotifyAllAppend(u, first, init, child, signal, hooks);
    }
  }

  /** On post_save only post_child_quota_save runs: replacing the pre_delete
      callback by any other function changes nothing, for any aggregator list. */
  lemma {:induction false} NotifyAllPostSaveIgnoresPreDelete(u: Usages, aggregators: seq<QuotaKey>, child: QuotaSnapshot,
                                                             created: bool, hooks: AggregationHooks,
                                                             other: (Usages, QuotaKey, QuotaSnapshot) -> Usages)
    ensures NotifyAll(u, aggregators, child, PostSave(created), hooks) ==
            NotifyAll(u, aggregators, child, PostSave(created), hooks.(preChildQuotaDelete := other))
    decreases |aggregators|
  {
    if aggregators != [] {
      NotifyAllPostSaveIgnoresPreDelete(u, aggregators[..|aggregators| - 1], child, created, hooks, other);
    }
  }

  /** On pre_delete only pre_child_quota_delete runs: replacing the post_save
      callback by any other function changes nothing, for any aggregator list. */
  lemma {:induction false} NotifyAllPreDeleteIgnoresPostSave(u: Usages, aggregators: seq<QuotaKey>, child: QuotaSnapshot,
                                                             hooks: AggregationHooks,
                                                             other: (Usages, QuotaKey, QuotaSnapshot, bool) -> Usages)
    ensures NotifyAll(u, aggregators, child, PreDelete, hooks) ==
            NotifyAll(u, aggregators, child, PreDelete, hooks.(postChildQuotaSave := other))
    decreases |aggregators|
  {
    if aggregators != [] {
      NotifyAllPreDeleteIgnoresPostSave(u, aggregators[..|aggregators| - 1], child, hooks, other);
    }
  }

  /** For a single aggregator exactly the callback matching the signal fires:
      post_save runs post_child_quota_save with the created flag, pre_delete
      runs pre_child_quota_delete. */
  lemma {:induction false} SingleAggregatorDispatch(u: Usages, child: QuotaSnapshot, signal: Signal,
                                                    hooks: AggregationHooks, aggregator: QuotaKey)
    requires Aggregates(child, hooks)
    requires hooks.aggregatorQuotas(u, hooks.fieldOf(child.key).value, child) == [aggregator]
    ensures signal.PostSave? ==>
              AggregatedQuotas(u, child, signal, hooks) == hooks.postChildQuotaSave(u, aggregator, child, signal.created)
    ensures signal.PreDelete? ==>
              AggregatedQuotas(u, child, signal, hooks) == hooks.preChildQuotaDelete(u, aggregator, child)
  {
    assert [aggregator][..0] == [];
  }

  // ---------------------------------------------------------------------------
  // The quota table and alert set as mutable state

  class QuotaStore {
    var usages: Usages
    var alerts: set<Alert>

    constructor (initial: Usages)
      ensures usages == initial && alerts == {}
    {
      usages := initial;
      alerts := {};
    }

    /** add_quotas_to_scope (old-style quotas): on creation of `instance`,
        create one quota per name in the model's QUOTAS_NAMES. Quota.objects
        .create refuses a duplicate, so the new scope must not have them yet. */
    method AddQuotasToScope(sender: QuotaModel, instance: ScopeRef, created: bool)
      requires created ==> forall i :: 0 <= i < |sender.quotasNames| ==> ScopeKey(sender.quotasNames[i], instance) !in usages
      requires created ==> forall i, j :: 0 <= i < j < |sender.quotasNames| ==> sender.quotasNames[i] != sender.quotasNames[j]
      modifies this`usages
      ensures usages == if created then ScopeQuotasAdded(old(usages), sender.quotasNames, instance) else old(usages)
    {
      if created {
        var names := sender.quotasNames;
        var i := 0;
        while i < |names|
          invariant 0 <= i <= |names|
          invariant usages == ScopeQuotasAdded(old(usages), names[..i], instance)
        {
          ScopeQuotasAddedStep(old(usages), names, i, instance);
          usages := usages[ScopeKey(names[i], instance) := 0];
          i := i + 1;
        }
        assert names[..i] == names;
      }
    }

    /** check_quota_threshold_breach, after the quota at `quota` was saved. */
    method CheckQuotaThresholdBreach(quota: QuotaKey, isExceeded: (QuotaKey, int, real) -> bool)
      requires quota in usages
      modifies this`alerts
      ensures alerts == AlertsAfterSave(old(alerts), quota, isExceeded(quota, usages[quota], AlertThreshold))
    {
      if quota.scope.Some? {
        if isExceeded(quota, usages[quota], AlertThreshold) {
          alerts := alerts + {Alert(quota.scope.value, OverThresholdAlert)};
        } else {
          alerts := alerts - {Alert(quota.scope.value, OverThresholdAlert)};
        }
      }
    }

    /** create_global_quotas: get or create the global count quota of every
        model that declares one. */
    method CreateGlobalQuotas(models: seq<QuotaModel>)
      requires forall n :: n in GlobalNames(models) ==> NameIsGlobal(usages, n)
      modifies this`usages
      ensures usages == GlobalQuotasCreated(old(usages), models)
    {
      var i := 0;
      while i < |models|
        invariant 0 <= i <= |models|
        invariant usages == GlobalQuotasCreated(old(usages), models[..i])
      {
        GlobalQuotasCreatedStep(old(usages), models, i);
        if models[i].globalCountQuotaName.Some? {
          var key := GlobalKey(models[i].globalCountQuotaName.value);
          if key !in usages {
            usages := usages[key := 0];
          }
        }
        i := i + 1;
      }
      assert models[..i] == models;
    }

    /** increase_global_quota, on a save of an instance of `sender`. */
    method IncreaseGlobalQuota(sender: QuotaModel, created: bool)
      requires created && sender.globalCountQuotaName.Some? ==>
                 GlobalKey(sender.globalCountQuotaName.value) in usages && NameIsGlobal(usages, sender.globalCountQuotaName.value)
      modifies this`usages
      ensures usages == GlobalCountAfterSave(old(usages), sender, created)
    {
      if created && sender.globalCountQuotaName.Some? {
        var key := GlobalKey(sender.globalCountQuotaName.value);
        usages := usages[key := usages[key] + 1];
      }
    }

    /** decrease_global_quota, on a deletion of an instance of `sender`. */
    method DecreaseGlobalQuota(sender: QuotaModel)
      requires sender.globalCountQuotaName.Some? ==>
                 GlobalKey(sender.globalCountQuotaName.value) in usages && NameIsGlobal(usages, sender.globalCountQuotaName.value)
      modifies this`usages
      ensures usages == GlobalCountAfterDelete(old(usages), sender)
    {
      if sender.globalCountQuotaName.Some? {
        var key := GlobalKey(sender.globalCountQuotaName.value);
        usages := usages[key := usages[key] - 1];
      }
    }

    /** init_quotas: on creation of `instance`, get or create the quota of
        every quota field of the model, skipping fields whose creation
        condition fails. */
    method InitQuotas(sender: QuotaModel, instance: ScopeRef, created: bool, allowed: (QuotaField, ScopeRef) -> bool)
      modifies this`usages
      ensures usages == if created then QuotasInitialized(old(usages), sender.quotasFields, instance, allowed) else old(usages)
    {
      if !created {
        return;
      }
      var fields := sender.quotasFields;
      var i := 0;
      while i < |fields|
        invariant 0 <= i <= |fields|
        invariant usages == QuotasInitialized(old(usages), fields[..i], instance, allowed)
      {
        QuotasInitializedStep(old(usages), fields, i, instance, allowed);
        if allowed(fields[i], instance) {
          var key := ScopeKey(fields[i].name, instance);
          if key !in usages {
            usages := usages[key := 0];
          }
        }
        i := i + 1;
      }
      assert fields[..i] == fields;
    }

    /** The handler count_quota_handler_factory(field) builds, for a signal
        about an object counted in the quota of `scope`. */
    method CountQuotaHandler(field: QuotaField, scope: ScopeRef, signal: Signal) returns (error: Option<QuotaError>)
      modifies this`usages
      ensures var r := CountQuotaUpdate(old(usages), field, scope, signal);
              && (r.Success? ==> error.None? && usages == r.value)
              && (r.Failure? ==> error == Some(r.error) && usages == old(usages))
    {
      var key := ScopeKey(field.name, scope);
      error := None;
      if signal == PostSave(true) {
        if key in usages {
          usages := usages[key := usages[key] + 1];
        } else {
          error := Some(QuotaNotFound(key));
        }
      } else if signal == PostDelete {
        if key in usages {
          usages := usages[key := usages[key] - 1];
        }
      }
    }

    /** handle_aggregated_quotas, for `signal` about the quota `quota`. */
    method HandleAggregatedQuotas(quota: QuotaSnapshot, signal: Signal, hooks: AggregationHooks)
      modifies this`usages
      ensures usages == AggregatedQuotas(old(usages), quota, signal, hooks)
    {
      if quota.key.scope.None? {
        return;
      }
      var field := hooks.fieldOf(quota.key);
      if field.None? || field.value.isUsageAggregator {
        return;
      }
      var aggregators := hooks.aggregatorQuotas(usages, field.value, quota);
      var i := 0;
      while i < |aggregators|
        invariant 0 <= i <= |aggregators|
        invariant usages == NotifyAll(old(usages), aggregators[..i], quota, signal, hooks)
      {
        assert aggregators[..i + 1][..i] == aggregators[..i];
        var aggregator := aggregators[i];
        match signal {
          case PostSave(created) =>
            usages := hooks.postChildQuotaSave(usages, aggregator, quota, created);
          case PreDelete =>
            usages := hooks.preChildQuotaDelete(usages, aggregator, quota);
          case PostDelete =>
        }
        i := i + 1;
      }
      assert aggregators[..i] == aggregators;
    }
  }
}
