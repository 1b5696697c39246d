/** The delete_invalid_price_estimates management command: three passes over
    the price-estimate table, each selecting a set of rows and deleting it
    when the selection is non-empty and the operator confirms.
      1. rows whose content type is missing or not registered for estimation;
      2. rows that point to no existing instance of a registered model, unless
         they carry neither details nor an object id;
      3. per customer and per month, all classified rows of a month that lacks
         a project, a service or a payable-resource estimate.
    The database tables other than the price estimates (content types, the
    instances of every model, the customers) are parameters. */
module InvalidPriceEstimates {
  import opened Wrappers
  import opened Structure

  /** A content type row; `model` is what `model_class()` returns, None once
      the model's plugin is uninstalled. */
  datatype ContentType = ContentType(id: nat, model: Option<ModelClass>)

  /** A price-estimate row, with the columns the command reads. */
  datatype EstimateRow = EstimateRow(
    contentType: Option<ContentType>,
    objectId: Option<nat>,
    scopeCustomer: Option<nat>,
    details: string,
    year: int,
    month: int)

  /** The price-estimate table, keyed by primary key. */
  type Table = map<nat, EstimateRow>

  /** A content type is valid when it is the content type of one of the
      models registered for estimation. */
  predicate IsRegistered(ct: ContentType, models: seq<ModelClass>) {
    ct.model.Some? && ct.model.value in models
  }

  // ---------------------------------------------------------------------------
  // Confirmation (Python 2 `str.strip()` and `str.lower()`: ASCII only)

  predicate IsSpace(c: char) {
    c == ' ' || '\t' <= c <= '\r'
  }

  function TrimLeft(s: string): (r: string)
    ensures |r| <= |s| && r == s[|s| - |r|..]
    ensures forall i :: 0 <= i < |s| - |r| ==> IsSpace(s[i])
    ensures |r| > 0 ==> !IsSpace(r[0])
  {
    if |s| > 0 && IsSpace(s[0]) then TrimLeft(s[1..]) else s
  }

  function TrimRight(s: string): (r: string)
    ensures |r| <= |s| && r == s[..|r|]
    ensures forall i :: |r| <= i < |s| ==> IsSpace(s[i])
    ensures |r| > 0 ==> !IsSpace(r[|r| - 1])
  {
    if |s| > 0 && IsSpace(s[|s| - 1]) then TrimRight(s[..|s| - 1]) else s
  }

  function Strip(s: string): string {
    TrimRight(TrimLeft(s))
  }

  function LowerChar(c: char): char {
    if 'A' <= c <= 'Z' then (c as int + 32) as char else c
  }

  function Lower(s: string): (r: string)
    ensures |r| == |s| && forall i :: 0 <= i < |s| ==> r[i] == LowerChar(s[i])
  {
    if s == [] then [] else [LowerChar(s[0])] + Lower(s[1..])
  }

  /** Command.confirm: `--assume-yes`, or the answer stripped and lower-cased is "y". */
  function Confirm(assumeYes: bool, answer: string): bool {
    assumeYes || Lower(Strip(answer)) == "y"
  }

  /** The answer is the letter `y` or `Y` at index k, with only whitespace
      around it. */
  predicate YesAt(answer: string, k: int) {
    0 <= k < |answer| && (answer[k] == 'y' || answer[k] == 'Y') &&
    forall i :: 0 <= i < |answer| && i != k ==> IsSpace(answer[i])
  }

  lemma LowerIsY(u: string)
    requires Lower(u) == "y"
    ensures |u| == 1 && (u[0] == 'y' || u[0] == 'Y')
  {
    assert |Lower(u)| == |u| == 1;
    assert LowerChar(u[0]) == 'y';
  }

  lemma {:induction false} StrippedYes(answer: string)
    requires Lower(Strip(answer)) == "y"
    ensures YesAt(answer, |answer| - |TrimLeft(answer)|)
  {
    var t := TrimLeft(answer);
    var a := |answer| - |t|;
    var u := TrimRight(t);
    LowerIsY(u);
    assert t == answer[a..];
    assert answer[a] == t[0] == u[0];
    forall i | a < i < |answer|
      ensures IsSpace(answer[i])
    {
      assert answer[i] == t[i - a];
      assert |u| <= i - a < |t|;
    }
  }

  lemma {:induction false} YesStrips(answer: string, k: int)
    requires YesAt(answer, k)
    ensures Lower(Strip(answer)) == "y"
  {
    var t := TrimLeft(answer);
    var a := |answer| - |t|;
    var u := TrimRight(t);
    assert !IsSpace(answer[k]);
    assert a <= k;
    assert answer[a] == t[0];
    assert a == k;
    assert |u| > 0;
    assert answer[a + |u| - 1] == t[|u| - 1] == u[|u| - 1];
    assert |u| == 1;
    assert u == [answer[k]];
    assert Lower(u) == [LowerChar(answer[k])];
  }

  /** The answer confirms exactly when it is one `y` or `Y` surrounded by
      whitespace. */
  lemma {:induction false} ConfirmIff(assumeYes: bool, answer: string)
    ensures Confirm(assumeYes, answer) <==> assumeYes || exists k :: YesAt(answer, k)
  {
    if Lower(Strip(answer)) == "y" {
      StrippedYes(answer);
    }
    if exists k :: YesAt(answer, k) {
      var k :| YesAt(answer, k);
      YesStrips(answer, k);
    }
  }

  // ---------------------------------------------------------------------------
  // Q-object queries built in a loop over the estimated models

  /** The row points to an object of model `m` whose id is in `ids`. */
  predicate MatchesInstance(row: EstimateRow, m: ModelClass, ids: set<nat>) {
    row.contentType.Some? && row.contentType.value.model == Some(m) &&
    row.objectId.Some? && row.objectId.value in ids
  }

  /** A query that starts from `base` and, for every model whose id set is
      non-empty, is widened (`|=`) by the rows pointing to one of those ids. */
  predicate QueryMatches(row: EstimateRow, base: bool, models: seq<ModelClass>, ids: ModelClass -> set<nat>)
    decreases |models|
  {
    if models == [] then base
    else
      var m := models[|models| - 1];
      QueryMatches(row, base, models[..|models| - 1], ids) ||
      (ids(m) != {} && MatchesInstance(row, m, ids(m)))
  }

  /** The widened query matches the base rows and the rows pointing to an
      instance of one of the models; skipping empty id sets loses nothing. */
  lemma {:induction false} QueryMatchesIff(row: EstimateRow, base: bool, models: seq<ModelClass>, ids: ModelClass -> set<nat>)
    ensures QueryMatches(row, base, models, ids) <==>
      base || exists m :: m in models && MatchesInstance(row, m, ids(m))
    decreases |models|
  {
    if models != [] {
      var prefix := models[..|models| - 1];
      var m := models[|models| - 1];
      QueryMatchesIff(row, base, prefix, ids);
      assert models == prefix + [m];
      if exists n :: n in models && MatchesInstance(row, n, ids(n)) {
        var n :| n in models && MatchesInstance(row, n, ids(n));
        if n != m {
          assert n in prefix;
        }
      }
    }
  }

  // ---------------------------------------------------------------------------
  // Pass 1: invalid content types

  /** get_invalid_content_types: the content types of rows that are not the
      content type of a registered model. */
  function InvalidContentTypes(t: Table, models: seq<ModelClass>): (r: set<ContentType>)
    ensures forall ct :: ct in r ==> !IsRegistered(ct, models)
    ensures forall ct :: ct in r ==> exists pk :: pk in t && t[pk].contentType == Some(ct)
    ensures forall pk :: pk in t && t[pk].contentType.Some? && !IsRegistered(t[pk].contentType.value, models) ==>
      t[pk].contentType.value in r
  {
    set pk | pk in t && t[pk].contentType.Some? && !IsRegistered(t[pk].contentType.value, models) :: t[pk].contentType.value
  }

  /** The rows of pass 1: content type among the invalid ones, or missing.
      These are exactly the rows whose content type is missing or not
      registered. */
  function ContentTypeSelection(t: Table, models: seq<ModelClass>): (r: set<nat>)
    ensures r <= t.Keys
    ensures forall pk :: pk in t ==>
      (pk in r <==> t[pk].contentType.None? || !IsRegistered(t[pk].contentType.value, models))
  {
    var invalid := InvalidContentTypes(t, models);
    set pk | pk in t && (t[pk].contentType.None? || t[pk].contentType.value in invalid)
  }

  // ---------------------------------------------------------------------------
  // Pass 2: estimates without scope and details

  predicate Unscoped(row: EstimateRow) {
    row.details == "" && row.objectId.None?
  }

  /** get_invalid_price_estimates: every row the keep-query does not match. */
  function ScopeSelection(t: Table, models: seq<ModelClass>, existing: ModelClass -> set<nat>): (r: set<nat>)
    ensures r <= t.Keys
  {
    set pk | pk in t && !QueryMatches(t[pk], Unscoped(t[pk]), models, existing)
  }

  /** Pass 2 keeps a row exactly when it has neither details nor an object id,
      or it points to an existing instance of a registered model. */
  lemma ScopeSelectionIff(t: Table, models: seq<ModelClass>, existing: ModelClass -> set<nat>)
    ensures forall pk :: pk in t ==>
      (pk !in ScopeSelection(t, models, existing) <==>
        Unscoped(t[pk]) || exists m :: m in models && MatchesInstance(t[pk], m, existing(m)))
  {
    forall pk | pk in t {
      QueryMatchesIff(t[pk], Unscoped(t[pk]), models, existing);
    }
  }

  // ---------------------------------------------------------------------------
  // Pass 3: months without an estimate of every tier

  datatype Tier = ProjectTier | ServiceTier | PayableTier

  datatype SweepError = UnresolvableEstimate

  /** The first of Project, Service, PayableMixin the model is a subclass of. */
  function TierOf(m: ModelClass): (r: Option<Tier>)
    ensures r == Some(ProjectTier) <==> m.isProject
    ensures r == Some(ServiceTier) <==> !m.isProject && m.isService
    ensures r == Some(PayableTier) <==> !m.isProject && !m.isService && m.isPayable
  {
    if m.isProject then Some(ProjectTier)
    else if m.isService then Some(ServiceTier)
    else if m.isPayable then Some(PayableTier)
    else None
  }

  /** A row whose model class can be taken; any other crashes pass 3. */
  predicate Resolvable(row: EstimateRow) {
    row.contentType.Some? && row.contentType.value.model.Some?
  }

  predicate AllResolvable(t: Table) {
    forall pk :: pk in t ==> Resolvable(t[pk])
  }

  function TierOfRow(row: EstimateRow): Option<Tier> {
    if Resolvable(row) then TierOf(row.contentType.value.model.value) else None
  }

  function DateOf(row: EstimateRow): Period {
    Period(row.year, row.month)
  }

  /** The rows among `keys` filed under month `d` in the table of `tier`. */
  function Filed(t: Table, keys: set<nat>, d: Period, tier: Tier): set<nat> {
    set pk | pk in keys && pk in t && DateOf(t[pk]) == d && TierOfRow(t[pk]) == Some(tier)
  }

  function DatesOf(t: Table, keys: set<nat>): set<Period> {
    set pk | pk in keys && pk in t :: DateOf(t[pk])
  }

  /** Some tier has no estimate in month `d`. */
  predicate IncompleteMonth(t: Table, d: Period) {
    Filed(t, t.Keys, d, ProjectTier) == {} ||
    Filed(t, t.Keys, d, ServiceTier) == {} ||
    Filed(t, t.Keys, d, PayableTier) == {}
  }

  /** The rows of pass 3 for one customer: the classified rows of its
      incomplete months. */
  function MonthSelection(t: Table): (r: set<nat>)
    ensures r <= t.Keys
    ensures forall pk :: pk in r ==> TierOfRow(t[pk]).Some?
  {
    set pk | pk in t && TierOfRow(t[pk]).Some? && IncompleteMonth(t, DateOf(t[pk]))
  }

  /** What get_estimates_without_scope_in_month yields: the selection, or the
      crash on a row whose model class cannot be taken. */
  function MonthCheck(t: Table): Result<set<nat>, SweepError> {
    if AllResolvable(t) then Success(MonthSelection(t)) else Failure(UnresolvableEstimate)
  }

  /** The classified rows of a month are selected all together, or none of
      the month's rows is. */
  lemma MonthAllOrNothing(t: Table, d: Period)
    ensures IncompleteMonth(t, d) ==>
      forall pk :: pk in t && DateOf(t[pk]) == d && TierOfRow(t[pk]).Some? ==> pk in MonthSelection(t)
    ensures !IncompleteMonth(t, d) ==>
      forall pk :: pk in MonthSelection(t) ==> DateOf(t[pk]) != d
  {
  }

  /** Pass 3 for one customer is idempotent: once its selection is removed,
      every remaining month has all three tiers. */
  lemma {:induction false} MonthSelectionIdempotent(t: Table)
    ensures MonthSelection(t - MonthSelection(t)) == {}
  {
    var s := MonthSelection(t);
    var rest := t - s;
    forall pk | pk in rest && TierOfRow(rest[pk]).Some?
      ensures !IncompleteMonth(rest, DateOf(rest[pk]))
    {
      var d := DateOf(t[pk]);
      assert pk !in s;
      assert !IncompleteMonth(t, d);
      forall tier: Tier
        ensures Filed(rest, rest.Keys, d, tier) != {}
      {
        assert tier == ProjectTier || tier == ServiceTier || tier == PayableTier;
        var w :| w in Filed(t, t.Keys, d, tier);
        assert w !in s;
        assert w in Filed(rest, rest.Keys, d, tier);
      }
      assert Filed(rest, rest.Keys, d, ProjectTier) != {};
      assert Filed(rest, rest.Keys, d, ServiceTier) != {};
      assert Filed(rest, rest.Keys, d, PayableTier) != {};
    }
  }

  /** A month's table entry, empty when the month was never filed (defaultdict). */
  function Entries(table: map<Period, set<nat>>, d: Period): set<nat> {
    if d in table then table[d] else {}
  }

  /** Filing one more row under its tier and month. */
  lemma FiledStep(t: Table, done: set<nat>, pk: nat, d: Period, tier: Tier)
    requires pk in t && pk !in done
    ensures Filed(t, done + {pk}, d, tier) ==
      Filed(t, done, d, tier) + (if DateOf(t[pk]) == d && TierOfRow(t[pk]) == Some(tier) then {pk} else {})
  {
  }

  /** The selected rows of the months in `ds`. */
  function SelectedIn(t: Table, ds: set<Period>): set<nat> {
    set pk | pk in t && DateOf(t[pk]) in ds && TierOfRow(t[pk]).Some? && IncompleteMonth(t, DateOf(t[pk]))
  }

  /** Selecting one more month adds its classified rows when it is incomplete. */
  lemma SelectedInStep(t: Table, ds: set<Period>, d: Period)
    ensures SelectedIn(t, ds + {d}) ==
      SelectedIn(t, ds) +
      (if IncompleteMonth(t, d)
       then Filed(t, t.Keys, d, ProjectTier) + Filed(t, t.Keys, d, ServiceTier) + Filed(t, t.Keys, d, PayableTier)
       else {})
  {
    var tiers := Filed(t, t.Keys, d, ProjectTier) + Filed(t, t.Keys, d, ServiceTier) + Filed(t, t.Keys, d, PayableTier);
    forall pk | pk in tiers
      ensures DateOf(t[pk]) == d && TierOfRow(t[pk]).Some?
    {
    }
    forall pk | pk in t && DateOf(t[pk]) == d && TierOfRow(t[pk]).Some?
      ensures pk in tiers
    {
      assert pk in Filed(t, t.Keys, d, TierOfRow(t[pk]).value);
    }
  }

  /** Selecting every month that has a row selects pass 3's rows. */
  lemma SelectedInAll(t: Table)
    ensures SelectedIn(t, DatesOf(t, t.Keys)) == MonthSelection(t)
  {
    forall pk | pk in MonthSelection(t)
      ensures DateOf(t[pk]) in DatesOf(t, t.Keys)
    {
    }
  }

  /** The tier tables and the dates set hold the rows among `keys`. */
  ghost predicate FiledTables(estimates: Table, keys: set<nat>,
                        projectEstimates: map<Period, set<nat>>, serviceEstimates: map<Period, set<nat>>,
                        resourceEstimates: map<Period, set<nat>>, dates: set<Period>)
  {
    dates == DatesOf(estimates, keys) &&
    (forall d :: Entries(projectEstimates, d) == Filed(estimates, keys, d, ProjectTier)) &&
    (forall d :: Entries(serviceEstimates, d) == Filed(estimates, keys, d, ServiceTier)) &&
    (forall d :: Entries(resourceEstimates, d) == Filed(estimates, keys, d, PayableTier))
  }

  /** Filing one more row keeps one tier's table in step. */
  lemma FiledEntriesStep(estimates: Table, done: set<nat>, pk: nat, table: map<Period, set<nat>>, tier: Tier)
    requires pk in estimates && pk !in done
    requires forall d :: Entries(table, d) == Filed(estimates, done, d, tier)
    ensures var date := DateOf(estimates[pk]);
            var table' := if TierOfRow(estimates[pk]) == Some(tier) then table[date := Entries(table, date) + {pk}] else table;
            forall d :: Entries(table', d) == Filed(estimates, done + {pk}, d, tier)
  {
    forall d {
      FiledStep(estimates, done, pk, d, tier);
    }
  }

  /** Filing one more resolvable row keeps the tables in step. */
  lemma FiledTablesStep(estimates: Table, done: set<nat>, pk: nat,
                        projectEstimates: map<Period, set<nat>>, serviceEstimates: map<Period, set<nat>>,
                        resourceEstimates: map<Period, set<nat>>, dates: set<Period>)
    requires pk in estimates && pk !in done && Resolvable(estimates[pk])
    requires FiledTables(estimates, done, projectEstimates, serviceEstimates, resourceEstimates, dates)
    ensures var cls := estimates[pk].contentType.value.model.value;
            var date := DateOf(estimates[pk]);
            FiledTables(estimates, done + {pk},
              if cls.isProject then projectEstimates[date := Entries(projectEstimates, date) + {pk}] else projectEstimates,
              if !cls.isProject && cls.isService then serviceEstimates[date := Entries(serviceEstimates, date) + {pk}] else serviceEstimates,
              if !cls.isProject && !cls.isService && cls.isPayable
              then resourceEstimates[date := Entries(resourceEstimates, date) + {pk}] else resourceEstimates,
              dates + {date})
  {
    var cls := estimates[pk].contentType.value.model.value;
    assert TierOfRow(estimates[pk]) == TierOf(cls);
    FiledEntriesStep(estimates, done, pk, projectEstimates, ProjectTier);
    FiledEntriesStep(estimates, done, pk, serviceEstimates, ServiceTier);
    FiledEntriesStep(estimates, done, pk, resourceEstimates, PayableTier);
    assert DatesOf(estimates, done + {pk}) == DatesOf(estimates, done) + {DateOf(estimates[pk])};
  }

  /** The first loop of get_estimates_without_scope_in_month: every row's
      month goes into `dates`, and a classified row into its tier's table;
      `resolvable` is false where the loop would crash. */
  method FileEstimates(estimates: Table)
    returns (resolvable: bool, projectEstimates: map<Period, set<nat>>, serviceEstimates: map<Period, set<nat>>,
             resourceEstimates: map<Period, set<nat>>, dates: set<Period>)
    ensures resolvable == AllResolvable(estimates)
    ensures resolvable ==>
      FiledTables(estimates, estimates.Keys, projectEstimates, serviceEstimates, resourceEstimates, dates)
  {
    projectEstimates, serviceEstimates, resourceEstimates := map[], map[], map[];
    dates := {};
    var todo := estimates.Keys;
    while todo != {}
      invariant todo <= estimates.Keys
      invariant forall pk :: pk in estimates.Keys - todo ==> Resolvable(estimates[pk])
      invariant FiledTables(estimates, estimates.Keys - todo, projectEstimates, serviceEstimates, resourceEstimates, dates)
      decreases todo
    {
      var pk :| pk in todo;
      var estimate := estimates[pk];
      if !Resolvable(estimate) {
        return false, projectEstimates, serviceEstimates, resourceEstimates, dates;
      }
      var cls := estimate.contentType.value.model.value;
      var date := DateOf(estimate);
      ghost var done := estimates.Keys - todo;
      FiledTablesStep(estimates, done, pk, projectEstimates, serviceEstimates, resourceEstimates, dates);
      dates := dates + {date};
      if cls.isProject {
        projectEstimates := projectEstimates[date := Entries(projectEstimates, date) + {pk}];
      } else if cls.isService {
        serviceEstimates := serviceEstimates[date := Entries(serviceEstimates, date) + {pk}];
      } else if cls.isPayable {
        resourceEstimates := resourceEstimates[date := Entries(resourceEstimates, date) + {pk}];
      }
      todo := todo - {pk};
      assert estimates.Keys - todo == done + {pk};
    }
    assert estimates.Keys - todo == estimates.Keys;
    return true, projectEstimates, serviceEstimates, resourceEstimates, dates;
  }

  /** The second loop of get_estimates_without_scope_in_month: for every
      month with an empty tier, the rows of all three tiers. */
  method CollectIncompleteMonths(estimates: Table,
                                 projectEstimates: map<Period, set<nat>>, serviceEstimates: map<Period, set<nat>>,
                                 resourceEstimates: map<Period, set<nat>>, dates: set<Period>)
    returns (invalid: set<nat>)
    requires FiledTables(estimates, estimates.Keys, projectEstimates, serviceEstimates, resourceEstimates, dates)
    ensures invalid == MonthSelection(estimates)
  {
    invalid := {};
    var pending := dates;
    while pending != {}
      invariant pending <= dates
      invariant invalid == SelectedIn(estimates, dates - pending)
      decreases pending
    {
      var date :| date in pending;
      SelectedInStep(estimates, dates - pending, date);
      var projects, services, resources := Entries(projectEstimates, date), Entries(serviceEstimates, date), Entries(resourceEstimates, date);
      assert projects == Filed(estimates, estimates.Keys, date, ProjectTier);
      assert services == Filed(estimates, estimates.Keys, date, ServiceTier);
      assert resources == Filed(estimates, estimates.Keys, date, PayableTier);
      if projects == {} || services == {} || resources == {} {
        invalid := invalid + projects + services + resources;
      }
      assert dates - (pending - {date}) == (dates - pending) + {date};
      pending := pending - {date};
    }
    assert dates - pending == dates;
    SelectedInAll(estimates);
  }

  /** get_estimates_without_scope_in_month, on the estimates of one customer. */
  method GetEstimatesWithoutScopeInMonth(estimates: Table) returns (r: Result<set<nat>, SweepError>)
    ensures r == MonthCheck(estimates)
  {
    if |estimates| == 0 {
      assert estimates.Keys == {};
      assert AllResolvable(estimates) && MonthSelection(estimates) == {};
      return Success({});
    }
    var resolvable, projectEstimates, serviceEstimates, resourceEstimates, dates := FileEstimates(estimates);
    if !resolvable {
      return Failure(UnresolvableEstimate);
    }
    var invalid := CollectIncompleteMonths(estimates, projectEstimates, serviceEstimates, resourceEstimates, dates);
    return Success(invalid);
  }

  /** get_price_estimates_for_customer: the rows whose scope customer is `c`
      or that point to an instance of a registered model owned by `c`. */
  function CustomerRows(t: Table, c: nat, models: seq<ModelClass>, customerInstances: (ModelClass, nat) -> set<nat>): (r: Table)
    ensures r.Keys <= t.Keys
    ensures forall pk :: pk in r ==> r[pk] == t[pk]
  {
    map pk | pk in t && QueryMatches(t[pk], t[pk].scopeCustomer == Some(c), models, m => customerInstances(m, c)) :: t[pk]
  }

  /** A row belongs to a customer's estimates exactly when its scope customer
      is that customer or it points to one of the customer's instances. */
  lemma CustomerRowsIff(t: Table, c: nat, models: seq<ModelClass>, customerInstances: (ModelClass, nat) -> set<nat>)
    ensures forall pk :: pk in t ==>
      (pk in CustomerRows(t, c, models, customerInstances) <==>
        t[pk].scopeCustomer == Some(c) ||
        exists m :: m in models && MatchesInstance(t[pk], m, customerInstances(m, c)))
  {
    forall pk | pk in t {
      QueryMatchesIff(t[pk], t[pk].scopeCustomer == Some(c), models, m => customerInstances(m, c));
    }
  }

  /** The union of the selections of the given customers. */
  function CustomersSelection(t: Table, customers: set<nat>, models: seq<ModelClass>,
                              customerInstances: (ModelClass, nat) -> set<nat>): set<nat>
  {
    set c, pk | c in customers && pk in MonthSelection(CustomerRows(t, c, models, customerInstances)) :: pk
  }

  /** Adding one customer adds its selection. */
  lemma CustomersSelectionStep(t: Table, customers: set<nat>, c: nat, models: seq<ModelClass>,
                               customerInstances: (ModelClass, nat) -> set<nat>)
    ensures CustomersSelection(t, customers + {c}, models, customerInstances) ==
      CustomersSelection(t, customers, models, customerInstances) + MonthSelection(CustomerRows(t, c, models, customerInstances))
  {
  }

  /** The rows of pass 3 over all customers, or the crash of pass 3. */
  function AllMonthSelection(t: Table, customers: set<nat>, models: seq<ModelClass>,
                             customerInstances: (ModelClass, nat) -> set<nat>): Result<set<nat>, SweepError>
  {
    if forall c :: c in customers ==> AllResolvable(CustomerRows(t, c, models, customerInstances))
    then Success(CustomersSelection(t, customers, models, customerInstances))
    else Failure(UnresolvableEstimate)
  }

  /** get_all_estimates_wihout_scope_in_month: the union of every customer's
      selection. */
  method GetAllEstimatesWithoutScopeInMonth(t: Table, customers: set<nat>, models: seq<ModelClass>,
                                            customerInstances: (ModelClass, nat) -> set<nat>)
    returns (r: Result<set<nat>, SweepError>)
    ensures r == AllMonthSelection(t, customers, models, customerInstances)
  {
    var invalid: set<nat> := {};
    var todo := customers;
    while todo != {}
      invariant todo <= customers
      invariant forall c :: c in customers - todo ==> AllResolvable(CustomerRows(t, c, models, customerInstances))
      invariant invalid == CustomersSelection(t, customers - todo, models, customerInstances)
      decreases todo
    {
      var c :| c in todo;
      var found := GetEstimatesWithoutScopeInMonth(CustomerRows(t, c, models, customerInstances));
      if found.Failure? {
        return Failure(found.error);
      }
      assert customers - (todo - {c}) == (customers - todo) + {c};
      CustomersSelectionStep(t, customers - todo, c, models, customerInstances);
      invalid := invalid + found.value;
      todo := todo - {c};
    }
    assert customers - todo == customers;
    assert forall c :: c in customers ==> AllResolvable(CustomerRows(t, c, models, customerInstances));
    return Success(invalid);
  }

  /** Pass 3 selects only rows of the table, and every selected row belongs to
      an incomplete month of some customer. */
  lemma AllMonthSelectionWithinTable(t: Table, customers: set<nat>, models: seq<ModelClass>,
                                     customerInstances: (ModelClass, nat) -> set<nat>)
    ensures var r := AllMonthSelection(t, customers, models, customerInstances);
      r.Success? ==>
        r.value <= t.Keys &&
        forall pk :: pk in r.value ==>
          exists c :: c in customers && pk in CustomerRows(t, c, models, customerInstances) &&
            IncompleteMonth(CustomerRows(t, c, models, customerInstances), DateOf(t[pk]))
  {
  }

  // ---------------------------------------------------------------------------
  // The passes and the command

  /** A pass deletes its selection when it is non-empty and confirmed. */
  function PassEffect(t: Table, selection: set<nat>, assumeYes: bool, answer: string): Table {
    if |selection| > 0 && Confirm(assumeYes, answer) then t - selection else t
  }

  /** A pass removes its confirmed selection and keeps every other row. */
  lemma PassEffectRemovesSelection(t: Table, selection: set<nat>, assumeYes: bool, answer: string)
    ensures var r := PassEffect(t, selection, assumeYes, answer);
      r.Keys <= t.Keys && (forall pk :: pk in r ==> r[pk] == t[pk]) &&
      (forall pk :: pk in t && pk !in selection ==> pk in r) &&
      (Confirm(assumeYes, answer) ==> forall pk :: pk in selection ==> pk !in r) &&
      (!Confirm(assumeYes, answer) ==> r == t)
  {
  }

  /** The outcome of the command: the rows left, and whether pass 3 completed. */
  datatype Sweep = Sweep(rows: Table, completed: bool)

  /** Command.handle: the passes in order content type, scope and details,
      month. */
  function Swept(t: Table, models: seq<ModelClass>, existing: ModelClass -> set<nat>, customers: set<nat>,
                 customerInstances: (ModelClass, nat) -> set<nat>, assumeYes: bool,
                 answer1: string, answer2: string, answer3: string): Sweep
  {
    var t1 := PassEffect(t, ContentTypeSelection(t, models), assumeYes, answer1);
    var t2 := PassEffect(t1, ScopeSelection(t1, models, existing), assumeYes, answer2);
    match AllMonthSelection(t2, customers, models, customerInstances)
    case Failure(_) => Sweep(t2, false)
    case Success(s) => Sweep(PassEffect(t2, s, assumeYes, answer3), true)
  }

  /** Once the content-type pass has run with confirmation, every remaining
      row has a model class, so the month pass cannot crash. */
  lemma {:induction false} SweepCompletesAfterContentTypePass(
    t: Table, models: seq<ModelClass>, existing: ModelClass -> set<nat>, customers: set<nat>,
    customerInstances: (ModelClass, nat) -> set<nat>, assumeYes: bool,
    answer1: string, answer2: string, answer3: string)
    requires Confirm(assumeYes, answer1)
    ensures Swept(t, models, existing, customers, customerInstances, assumeYes, answer1, answer2, answer3).completed
  {
    var t1 := PassEffect(t, ContentTypeSelection(t, models), assumeYes, answer1);
    var t2 := PassEffect(t1, ScopeSelection(t1, models, existing), assumeYes, answer2);
    assert AllResolvable(t1);
    assert AllResolvable(t2);
    forall c | c in customers
      ensures AllResolvable(CustomerRows(t2, c, models, customerInstances))
    {
    }
  }

  /** With `--assume-yes` the command completes, keeps only rows of the
      original table, and leaves no row that pass 1 or pass 2 would select. */
  lemma {:induction false} AssumeYesSweepLeavesNoInvalid(
    t: Table, models: seq<ModelClass>, existing: ModelClass -> set<nat>, customers: set<nat>,
    customerInstances: (ModelClass, nat) -> set<nat>, answer1: string, answer2: string, answer3: string)
    ensures var r := Swept(t, models, existing, customers, customerInstances, true, answer1, answer2, answer3);
      r.completed && r.rows.Keys <= t.Keys &&
      ContentTypeSelection(r.rows, models) == {} && ScopeSelection(r.rows, models, existing) == {}
  {
    SweepCompletesAfterContentTypePass(t, models, existing, customers, customerInstances, true, answer1, answer2, answer3);
    var r := Swept(t, models, existing, customers, customerInstances, true, answer1, answer2, answer3);
    var t1 := PassEffect(t, ContentTypeSelection(t, models), true, answer1);
    var t2 := PassEffect(t1, ScopeSelection(t1, models, existing), true, answer2);
    assert t2 == t1 - ScopeSelection(t1, models, existing);
    assert r.rows.Keys <= t2.Keys && forall pk :: pk in r.rows ==> r.rows[pk] == t2[pk];
    forall pk | pk in r.rows
      ensures pk !in ContentTypeSelection(r.rows, models) && pk !in ScopeSelection(r.rows, models, existing)
    {
      assert pk !in ContentTypeSelection(t, models);
      assert pk !in ScopeSelection(t1, models, existing);
    }
  }

  class PriceEstimateTable {
    var rows: Table

    constructor (initial: Table)
      ensures rows == initial
    {
      rows := initial;
    }

    /** QuerySet.delete on a selection. */
    method Delete(selection: set<nat>)
      modifies this
      ensures rows == old(rows) - selection
    {
      rows := rows - selection;
    }
  }

  class Command {
    var assumeYes: bool

    constructor ()
      ensures !assumeYes
    {
      assumeYes := false;
    }

    /** delete_price_estimates_for_invalid_content_types */
    method DeletePriceEstimatesForInvalidContentTypes(db: PriceEstimateTable, models: seq<ModelClass>, answer: string)
      modifies db
      ensures db.rows == PassEffect(old(db.rows), ContentTypeSelection(old(db.rows), models), assumeYes, answer)
    {
      var invalidEstimates := ContentTypeSelection(db.rows, models);
      if |invalidEstimates| > 0 && Confirm(assumeYes, answer) {
        db.Delete(invalidEstimates);
      }
    }

    /** delete_price_estimates_without_scope_and_details */
    method DeletePriceEstimatesWithoutScopeAndDetails(db: PriceEstimateTable, models: seq<ModelClass>,
                                                      existing: ModelClass -> set<nat>, answer: string)
      modifies db
      ensures db.rows == PassEffect(old(db.rows), ScopeSelection(old(db.rows), models, existing), assumeYes, answer)
    {
      var invalidEstimates := ScopeSelection(db.rows, models, existing);
      if |invalidEstimates| > 0 && Confirm(assumeYes, answer) {
        db.Delete(invalidEstimates);
      }
    }

    /** delete_price_estimates_for_invalid_month; `completed` is false where
        the command would crash on a row without a model class. */
    method DeletePriceEstimatesForInvalidMonth(db: PriceEstimateTable, customers: set<nat>, models: seq<ModelClass>,
                                               customerInstances: (ModelClass, nat) -> set<nat>, answer: string)
      returns (completed: bool)
      modifies db
      ensures match AllMonthSelection(old(db.rows), customers, models, customerInstances)
        case Failure(_) => !completed && db.rows == old(db.rows)
        case Success(s) => completed && db.rows == PassEffect(old(db.rows), s, assumeYes, answer)
    {
      var found := GetAllEstimatesWithoutScopeInMonth(db.rows, customers, models, customerInstances);
      if found.Failure? {
        return false;
      }
      var invalidEstimates := found.value;
      if |invalidEstimates| > 0 && Confirm(assumeYes, answer) {
        db.Delete(invalidEstimates);
      }
      return true;
    }

    /** handle: the three passes in order, each given the operator's answer. */
    method Handle(db: PriceEstimateTable, assumeYes: bool, models: seq<ModelClass>, existing: ModelClass -> set<nat>,
                  customers: set<nat>, customerInstances: (ModelClass, nat) -> set<nat>,
                  answer1: string, answer2: string, answer3: string)
      returns (completed: bool)
      modifies this, db
      ensures this.assumeYes == assumeYes
      ensures Sweep(db.rows, completed) ==
        Swept(old(db.rows), models, existing, customers, customerInstances, assumeYes, answer1, answer2, answer3)
    {
      this.assumeYes := assumeYes;
      DeletePriceEstimatesForInvalidContentTypes(db, models, answer1);
      DeletePriceEstimatesWithoutScopeAndDetails(db, models, existing, answer2);
      completed := DeletePriceEstimatesForInvalidMonth(db, customers, models, customerInstances, answer3);
    }
  }
}
