/** `backup-all:create` as src/Commands/CreateCommand.php implements it: validate the
    element and changes options, then walk every site and environment and create one
    awaited backup per element, unless the skip list names the unit or the pending-change
    policy aborts it. */
module CreateCommand {
  import opened Base
  import opened Text
  import opened Catalog
  import opened Effects
  import opened Choices

  /** The command's options: --env, --element, --skip, --changes and --keep-for. */
  datatype Options = Options(env: Option<string>, element: Option<string>, skip: Option<string>, changes: string, keepFor: int)

  const Defaults: Options := Options(None, None, None, "commit", 365)

  /** The validated options: the elements to back up, the pending-change policy and the
      skip tokens. */
  datatype Plan = Plan(elements: seq<string>, policy: Policy, skips: seq<string>)

  predicate ElementRejected(o: Options) {
    o.element.Some? && Normalize(o.element.value) !in Canonical
  }

  /** Validation, which happens before any site is read: the element first (with `db`
      read as `database`), then the policy. */
  function MakePlan(o: Options): (r: Result<Plan>)
    ensures r == Err(InvalidElement) <==> ElementRejected(o)
    ensures r == Err(InvalidChanges) <==> !ElementRejected(o) && ParsePolicy(o.changes).None?
    ensures r.Err? ==> r.failure == InvalidElement || r.failure == InvalidChanges
    ensures r.Ok? ==> r.value.policy == ParsePolicy(o.changes).value
    ensures r.Ok? ==> forall e :: e in r.value.elements ==> e in Canonical
    ensures r.Ok? && o.element.Some? ==> r.value.elements == [Normalize(o.element.value)]
    ensures r.Ok? && o.element.None? ==> r.value.elements == Canonical
    ensures r.Ok? && o.skip.None? ==> r.value.skips == []
    ensures r.Ok? ==> forall t :: t in r.value.skips ==> ',' !in t
    ensures r.Ok? && o.skip.Some? ==> |r.value.skips| >= 1 && Join(r.value.skips, ',') == o.skip.value
  {
    if ElementRejected(o) then Err(InvalidElement)
    else
      var policy := ParsePolicy(o.changes);
      if policy.None? then Err(InvalidChanges)
      else
        var elements := if o.element.Some? then [Normalize(o.element.value)] else Canonical;
        var skips := if o.skip.Some? then Split(o.skip.value, ',') else [];
        if o.skip.Some? then JoinSplit(o.skip.value, ','); Ok(Plan(elements, policy.value, skips))
        else Ok(Plan(elements, policy.value, skips))
  }

  /** The skip list names the unit's element, its environment id or its `site.env`;
      tokens are compared exactly, without trimming. */
  predicate Skipped(slot: Slot, element: string, skips: seq<string>) {
    element in skips || slot.env.id in skips || slot.Name() in skips
  }

  /** Pending changes are looked at: a code backup that is not skipped, of an environment
      other than test and live, in sftp mode. */
  predicate Inspected(slot: Slot, element: string, skips: seq<string>) {
    !Skipped(slot, element, skips) && slot.env.id !in {"test", "live"} && element == "code" && slot.env.mode == "sftp"
  }

  /** The unit is backed up: not skipped, and not aborted by the skip policy. */
  predicate Dispatched(slot: Slot, element: string, plan: Plan) {
    !Skipped(slot, element, plan.skips)
    && !(Inspected(slot, element, plan.skips) && slot.env.hasDiff && plan.policy == SkipPending)
  }

  /** What one (site, environment, element) unit does. */
  function UnitTrace(slot: Slot, element: string, plan: Plan, keepFor: int): seq<Effect> {
    var name := slot.Name();
    var create := [Create(name, Some(element), Some(keepFor), true), Log(Created(name, Some(element)))];
    if Skipped(slot, element, plan.skips) then []
    else if !Inspected(slot, element, plan.skips) then create
    else if !slot.env.hasDiff then [DiffStat(name)] + create
    else
      match plan.policy
      case CommitPending => [DiffStat(name), Commit(name)] + create
      case IgnorePending => [DiffStat(name), Log(CommitIgnored(name))] + create
      case SkipPending => [DiffStat(name), Log(CommitSkipped(name))]
  }

  /** The pending-change policy of one unit: changes are inspected only for an unskipped
      code backup outside test and live in sftp mode; then commit commits once before the
      create, ignore creates without committing, and skip aborts the create. */
  lemma UnitPolicy(slot: Slot, element: string, plan: Plan, keepFor: int)
    ensures var t := UnitTrace(slot, element, plan, keepFor);
      && (DiffStat(slot.Name()) in t <==> Inspected(slot, element, plan.skips))
      && (Commit(slot.Name()) in t <==> Inspected(slot, element, plan.skips) && slot.env.hasDiff && plan.policy == CommitPending)
      && (Inspected(slot, element, plan.skips) && slot.env.hasDiff && plan.policy == CommitPending ==>
            t == [DiffStat(slot.Name()), Commit(slot.Name()), Create(slot.Name(), Some(element), Some(keepFor), true), Log(Created(slot.Name(), Some(element)))])
      && (Inspected(slot, element, plan.skips) && slot.env.hasDiff && plan.policy == IgnorePending ==>
            t == [DiffStat(slot.Name()), Log(CommitIgnored(slot.Name())), Create(slot.Name(), Some(element), Some(keepFor), true), Log(Created(slot.Name(), Some(element)))])
      && (Inspected(slot, element, plan.skips) && slot.env.hasDiff && plan.policy == SkipPending ==>
            t == [DiffStat(slot.Name()), Log(CommitSkipped(slot.Name()))])
      && (forall e :: e in t ==> !e.Query? && !e.OwnerFilter? && !(e.Log? && e.notice.Total?))
  {
  }

  /** A unit makes one create call when it is dispatched and none otherwise, and that call
      is the awaited create of the unit's element with the keep-for option. */
  lemma UnitCreates(slot: Slot, element: string, plan: Plan, keepFor: int)
    ensures var t := UnitTrace(slot, element, plan, keepFor);
      && CountCreates(t) == (if Dispatched(slot, element, plan) then 1 else 0)
      && (forall e :: e in t && e.Create? ==> e == Create(slot.Name(), Some(element), Some(keepFor), true))
  {
    var name := slot.Name();
    var create := [Create(name, Some(element), Some(keepFor), true), Log(Created(name, Some(element)))];
    assert CountCreates(create) == 1 by {
      assert create[1..] == [Log(Created(name, Some(element)))];
      assert create[1..][1..] == [];
      assert CountCreates(create[1..]) == 0;
    }
    var t := UnitTrace(slot, element, plan, keepFor);
    if !Skipped(slot, element, plan.skips) && Inspected(slot, element, plan.skips) {
      if !slot.env.hasDiff {
        assert t[1..] == create;
      } else if plan.policy != SkipPending {
        assert t[1..][1..] == create;
      } else {
        assert t[1..][1..] == [];
        assert CountCreates(t[1..]) == 0;
      }
    }
  }

  function UnitTraces(slot: Slot, elements: seq<string>, plan: Plan, keepFor: int): seq<seq<Effect>> {
    seq(|elements|, i requires 0 <= i < |elements| => UnitTrace(slot, elements[i], plan, keepFor))
  }

  /** An environment is processed when it is initialized and the env filter, if any, names it. */
  predicate Processed(slot: Slot, filter: Option<string>) {
    slot.env.initialized && (filter.None? || filter.value == slot.env.id)
  }

  /** What one environment does under the env filter in force when it is reached. */
  function SlotTrace(slot: Slot, filter: Option<string>, plan: Plan, keepFor: int): seq<Effect> {
    if Processed(slot, filter) then Concat(UnitTraces(slot, plan.elements, plan, keepFor)) else []
  }

  /** The env filter after visiting `slots`: each processed environment writes its id into it. */
  function FilterAfter(filter: Option<string>, slots: seq<Slot>): Option<string>
    decreases |slots|
  {
    if slots == [] then filter
    else
      var n := |slots| - 1;
      var f := FilterAfter(filter, slots[..n]);
      if Processed(slots[n], f) then Some(slots[n].env.id) else f
  }

  /** The env filter in force at slot `k`: pinned by the writes of the environments before it
      (the command as written), or the --env option throughout (the evident intent). */
  function FilterAt(env: Option<string>, slots: seq<Slot>, k: nat, pinned: bool): Option<string>
    requires k <= |slots|
  {
    if pinned then FilterAfter(env, slots[..k]) else env
  }

  function RunTrace(slots: seq<Slot>, env: Option<string>, plan: Plan, keepFor: int, pinned: bool): seq<Effect>
    decreases |slots|
  {
    if slots == [] then []
    else
      var n := |slots| - 1;
      RunTrace(slots[..n], env, plan, keepFor, pinned) + SlotTrace(slots[n], FilterAt(env, slots, n, pinned), plan, keepFor)
  }

  /** How many of `elements` one environment dispatches. */
  function DispatchedCount(slot: Slot, elements: seq<string>, plan: Plan): nat
    decreases |elements|
  {
    if elements == [] then 0
    else
      var n := |elements| - 1;
      DispatchedCount(slot, elements[..n], plan) + if Dispatched(slot, elements[n], plan) then 1 else 0
  }

  /** How many units of a run are dispatched: those of the environments processed under the
      filter in force when each is reached. */
  function DispatchedUnits(slots: seq<Slot>, env: Option<string>, plan: Plan, pinned: bool): nat
    decreases |slots|
  {
    if slots == [] then 0
    else
      var n := |slots| - 1;
      DispatchedUnits(slots[..n], env, plan, pinned)
        + if Processed(slots[n], FilterAt(env, slots, n, pinned)) then DispatchedCount(slots[n], plan.elements, plan) else 0
  }

  /** One environment's element units make one create per dispatched element. */
  lemma {:induction false} ElementsCount(slot: Slot, elements: seq<string>, plan: Plan, keepFor: int)
    ensures CountCreates(Concat(UnitTraces(slot, elements, plan, keepFor))) == DispatchedCount(slot, elements, plan)
    decreases |elements|
  {
    if elements != [] {
      var n := |elements| - 1;
      ElementsCount(slot, elements[..n], plan, keepFor);
      UnitTracesSnoc(slot, elements, n, plan, keepFor);
      assert elements[..n + 1] == elements;
      CountsAppend(Concat(UnitTraces(slot, elements[..n], plan, keepFor)), UnitTrace(slot, elements[n], plan, keepFor));
      UnitCreates(slot, elements[n], plan, keepFor);
    }
  }

  /** A run makes exactly one create per dispatched unit, whichever filter is in force. */
  lemma {:induction false} RunCount(slots: seq<Slot>, env: Option<string>, plan: Plan, keepFor: int, pinned: bool)
    ensures CountCreates(RunTrace(slots, env, plan, keepFor, pinned)) == DispatchedUnits(slots, env, plan, pinned)
    decreases |slots|
  {
    if slots != [] {
      var n := |slots| - 1;
      RunCount(slots[..n], env, plan, keepFor, pinned);
      var filter := FilterAt(env, slots, n, pinned);
      CountsAppend(RunTrace(slots[..n], env, plan, keepFor, pinned), SlotTrace(slots[n], filter, plan, keepFor));
      if Processed(slots[n], filter) {
        ElementsCount(slots[n], plan.elements, plan, keepFor);
      }
    }
  }

  lemma RunTraceSnoc(slots: seq<Slot>, slot: Slot, env: Option<string>, plan: Plan, keepFor: int, pinned: bool)
    ensures FilterAfter(env, slots + [slot]) == if Processed(slot, FilterAfter(env, slots)) then Some(slot.env.id) else FilterAfter(env, slots)
    ensures RunTrace(slots + [slot], env, plan, keepFor, pinned)
         == RunTrace(slots, env, plan, keepFor, pinned) + SlotTrace(slot, if pinned then FilterAfter(env, slots) else env, plan, keepFor)
  {
    assert (slots + [slot])[..|slots|] == slots;
  }

  /** The effects of one environment are the effects of its element units. */
  lemma SlotTraceMembership(slot: Slot, filter: Option<string>, plan: Plan, keepFor: int, e: Effect)
    ensures e in SlotTrace(slot, filter, plan, keepFor) <==>
      Processed(slot, filter) && exists i :: 0 <= i < |plan.elements| && e in UnitTrace(slot, plan.elements[i], plan, keepFor)
  {
    var units := UnitTraces(slot, plan.elements, plan, keepFor);
    ConcatMembership(units, e);
    if k :| 0 <= k < |plan.elements| && e in UnitTrace(slot, plan.elements[k], plan, keepFor) {
      assert e in units[k];
    }
  }

  /** The effects of a run are the effects of its environments, each under the filter in
      force when it is reached. */
  lemma {:induction false} RunTraceMembership(slots: seq<Slot>, env: Option<string>, plan: Plan, keepFor: int, pinned: bool, e: Effect)
    ensures e in RunTrace(slots, env, plan, keepFor, pinned) <==>
      exists k :: 0 <= k < |slots| && e in SlotTrace(slots[k], FilterAt(env, slots, k, pinned), plan, keepFor)
    decreases |slots|
  {
    if slots != [] {
      var n := |slots| - 1;
      var prefix := slots[..n];
      RunTraceMembership(prefix, env, plan, keepFor, pinned, e);
      RunTracePrefix(slots, env, plan, keepFor, pinned, e);
    }
  }

  /** The inductive step of RunTraceMembership: the last environment's effects follow those
      of the environments before it, each of which sees the same filter as in the whole run. */
  lemma RunTracePrefix(slots: seq<Slot>, env: Option<string>, plan: Plan, keepFor: int, pinned: bool, e: Effect)
    requires slots != []
    requires var prefix := slots[..|slots| - 1];
      e in RunTrace(prefix, env, plan, keepFor, pinned) <==>
      exists k :: 0 <= k < |prefix| && e in SlotTrace(prefix[k], FilterAt(env, prefix, k, pinned), plan, keepFor)
    ensures e in RunTrace(slots, env, plan, keepFor, pinned) <==>
      exists k :: 0 <= k < |slots| && e in SlotTrace(slots[k], FilterAt(env, slots, k, pinned), plan, keepFor)
  {
    var n := |slots| - 1;
    var prefix := slots[..n];
    var last := SlotTrace(slots[n], FilterAt(env, slots, n, pinned), plan, keepFor);
    assert RunTrace(slots, env, plan, keepFor, pinned) == RunTrace(prefix, env, plan, keepFor, pinned) + last;
    if e in RunTrace(prefix, env, plan, keepFor, pinned) {
      var k :| 0 <= k < n && e in SlotTrace(prefix[k], FilterAt(env, prefix, k, pinned), plan, keepFor);
      FilterAtPrefix(env, slots, n, k, pinned);
    }
    if k :| 0 <= k < n && e in SlotTrace(slots[k], FilterAt(env, slots, k, pinned), plan, keepFor) {
      FilterAtPrefix(env, slots, n, k, pinned);
    }
  }

  /** The slots before `k` are the same in a prefix that reaches past `k`, and so is the filter. */
  lemma FilterAtPrefix(env: Option<string>, slots: seq<Slot>, n: nat, k: nat, pinned: bool)
    requires k < n <= |slots|
    ensures slots[..n][k] == slots[k]
    ensures FilterAt(env, slots[..n], k, pinned) == FilterAt(env, slots, k, pinned)
  {
    assert slots[..n][..k] == slots[..k];
  }

  /** One unit holds a create exactly when it is dispatched, and it is the awaited create
      of that unit's element with the keep-for option. */
  lemma UnitCreate(slot: Slot, element: string, plan: Plan, keepFor: int, e: Effect)
    ensures e in UnitTrace(slot, element, plan, keepFor) && e.Create? <==>
      Dispatched(slot, element, plan) && e == Create(slot.Name(), Some(element), Some(keepFor), true)
  {
    var t := UnitTrace(slot, element, plan, keepFor);
    UnitCreates(slot, element, plan, keepFor);
    CreateInCount(t);
  }

  /** A run makes a create call exactly for each dispatched unit of a processed environment. */
  lemma CreateIff(slots: seq<Slot>, env: Option<string>, plan: Plan, keepFor: int, pinned: bool, e: Effect)
    ensures e in RunTrace(slots, env, plan, keepFor, pinned) && e.Create? <==>
      exists k, i :: 0 <= k < |slots| && 0 <= i < |plan.elements|
        && Processed(slots[k], FilterAt(env, slots, k, pinned))
        && Dispatched(slots[k], plan.elements[i], plan)
        && e == Create(slots[k].Name(), Some(plan.elements[i]), Some(keepFor), true)
  {
    RunTraceMembership(slots, env, plan, keepFor, pinned, e);
    if e in RunTrace(slots, env, plan, keepFor, pinned) && e.Create? {
      var k :| 0 <= k < |slots| && e in SlotTrace(slots[k], FilterAt(env, slots, k, pinned), plan, keepFor);
      SlotTraceMembership(slots[k], FilterAt(env, slots, k, pinned), plan, keepFor, e);
      var i :| 0 <= i < |plan.elements| && e in UnitTrace(slots[k], plan.elements[i], plan, keepFor);
      UnitCreate(slots[k], plan.elements[i], plan, keepFor, e);
    }
    if k, i :| (0 <= k < |slots| && 0 <= i < |plan.elements|
        && Processed(slots[k], FilterAt(env, slots, k, pinned))
        && Dispatched(slots[k], plan.elements[i], plan)
        && e == Create(slots[k].Name(), Some(plan.elements[i]), Some(keepFor), true)) {
      UnitCreate(slots[k], plan.elements[i], plan, keepFor, e);
      SlotTraceMembership(slots[k], FilterAt(env, slots, k, pinned), plan, keepFor, e);
    }
  }

  /** The id of the first initialized environment, if any. */
  function FirstInitialized(slots: seq<Slot>): Option<string>
    decreases |slots|
  {
    if slots == [] then None
    else
      var n := |slots| - 1;
      var f := FirstInitialized(slots[..n]);
      if f.None? && slots[n].env.initialized then Some(slots[n].env.id) else f
  }

  /** Given --env the filter never moves; without it the first processed environment pins
      it to that environment's id. */
  lemma {:induction false} FilterAfterPins(env: Option<string>, slots: seq<Slot>)
    ensures FilterAfter(env, slots) == if env.Some? then env else FirstInitialized(slots)
    decreases |slots|
  {
    if slots != [] {
      FilterAfterPins(env, slots[..|slots| - 1]);
    }
  }

  /** As written, an environment is processed when it is initialized and its id is --env
      or, without --env, the id of the first initialized environment before it, if any. */
  lemma PinnedFilter(env: Option<string>, slots: seq<Slot>, k: nat)
    requires k < |slots|
    ensures Processed(slots[k], FilterAt(env, slots, k, true)) <==>
      slots[k].env.initialized &&
      (if env.Some? then slots[k].env.id == env.value
       else FirstInitialized(slots[..k]).None? || FirstInitialized(slots[..k]).value == slots[k].env.id)
  {
    FilterAfterPins(env, slots[..k]);
  }

  /** A whole run: validation, then every environment, then the closing count. */
  function RunWith(sites: seq<Site>, o: Options, pinned: bool): Run {
    match MakePlan(o)
    case Err(f) => Run([], Some(f))
    case Ok(plan) =>
      var t := RunTrace(Slots(sites), o.env, plan, o.keepFor, pinned);
      Run(t + [Log(Total(CountCreates(t)))], None)
  }

  /** The command as written. */
  function Outcome(sites: seq<Site>, o: Options): Run {
    RunWith(sites, o, true)
  }

  /** The command as evidently intended: --env unset means every environment. */
  function IntendedOutcome(sites: seq<Site>, o: Options): Run {
    RunWith(sites, o, false)
  }

  /** Every create call of a run belongs to a catalog environment and an element that the
      skip list does not name, is awaited, and carries the keep-for option. */
  lemma CreatesAreDispatched(sites: seq<Site>, o: Options, pinned: bool, e: Effect)
    requires MakePlan(o).Ok?
    requires e in RunWith(sites, o, pinned).trace && e.Create?
    ensures e.awaited && e.keepFor == Some(o.keepFor)
    ensures e.element.Some? && e.element.value in Canonical
    ensures exists slot :: (slot in Slots(sites) && slot.env.initialized && e.siteEnv == slot.Name()
      && !Skipped(slot, e.element.value, MakePlan(o).value.skips))
  {
    var plan := MakePlan(o).value;
    var slots := Slots(sites);
    var t := RunTrace(slots, o.env, plan, o.keepFor, pinned);
    assert e in t;
    CreateIff(slots, o.env, plan, o.keepFor, pinned, e);
    var k, i :| 0 <= k < |slots| && 0 <= i < |plan.elements|
      && Processed(slots[k], FilterAt(o.env, slots, k, pinned))
      && Dispatched(slots[k], plan.elements[i], plan)
      && e == Create(slots[k].Name(), Some(plan.elements[i]), Some(o.keepFor), true);
    assert plan.elements[i] in plan.elements;
    assert slots[k] in slots;
  }

  /** The closing notice of a run counts exactly its create calls. */
  lemma ClosingCount(sites: seq<Site>, o: Options, pinned: bool)
    requires MakePlan(o).Ok?
    ensures var r := RunWith(sites, o, pinned);
      r.failure.None? && |r.trace| > 0 && r.trace[|r.trace| - 1] == Log(Total(CountCreates(r.trace)))
    ensures var r := RunWith(sites, o, pinned);
      CountCreates(r.trace) == DispatchedUnits(Slots(sites), o.env, MakePlan(o).value, pinned)
  {
    var t := RunTrace(Slots(sites), o.env, MakePlan(o).value, o.keepFor, pinned);
    CountsAppend(t, [Log(Total(CountCreates(t)))]);
    RunCount(Slots(sites), o.env, MakePlan(o).value, o.keepFor, pinned);
  }

  /** As intended, every dispatched unit of every initialized environment that --env admits
      is backed up, once, by an awaited create, and nothing else is. */
  lemma IntendedCreates(sites: seq<Site>, o: Options, e: Effect)
    requires MakePlan(o).Ok?
    ensures var plan := MakePlan(o).value;
      e in IntendedOutcome(sites, o).trace && e.Create? <==>
      exists slot, element :: slot in Slots(sites) && element in plan.elements
        && slot.env.initialized && (o.env.None? || o.env.value == slot.env.id)
        && Dispatched(slot, element, plan) && e == Create(slot.Name(), Some(element), Some(o.keepFor), true)
  {
    var plan := MakePlan(o).value;
    var slots := Slots(sites);
    var t := RunTrace(slots, o.env, plan, o.keepFor, false);
    assert e in t + [Log(Total(CountCreates(t)))] && e.Create? <==> e in t && e.Create?;
    CreateIff(slots, o.env, plan, o.keepFor, false, e);
    if slot, element :| (slot in slots && element in plan.elements
        && slot.env.initialized && (o.env.None? || o.env.value == slot.env.id)
        && Dispatched(slot, element, plan) && e == Create(slot.Name(), Some(element), Some(o.keepFor), true)) {
      var k :| 0 <= k < |slots| && slots[k] == slot;
      var i :| 0 <= i < |plan.elements| && plan.elements[i] == element;
      assert Processed(slots[k], FilterAt(o.env, slots, k, false));
    }
  }

  /** A site with two initialized environments, dev then test, neither in sftp mode. */
  function TwoEnvSite(): Site {
    Site("s", "drupal", [Env("dev", true, "git", false, []), Env("test", true, "git", false, [])])
  }

  /** With the default options, the command as written backs up dev but never test: line 85
      pins the env filter to dev. The intended behaviour backs up both. */
  lemma PinnedFilterMissesTest()
    ensures Create("s.test", Some("code"), Some(365), true) !in Outcome([TwoEnvSite()], Defaults).trace
    ensures Create("s.test", Some("code"), Some(365), true) in IntendedOutcome([TwoEnvSite()], Defaults).trace
  {
    var site := TwoEnvSite();
    var plan := Plan(Canonical, CommitPending, []);
    assert MakePlan(Defaults) == Ok(plan);
    var slots := Slots([site]);
    assert [site][1..] == [];
    assert slots == SiteSlots(site) + Slots([]);
    assert slots == [Slot(site, site.envs[0]), Slot(site, site.envs[1])];
    var e := Create("s.test", Some("code"), Some(365), true);
    assert slots[1].Name() == "s.test";
    assert slots[0].Name() != "s.test" by {
      assert slots[0].Name()[2] == 'd';
    }
    assert slots[..1] == [slots[0]];
    assert FilterAfter(None, slots[..1]) == Some("dev") by {
      assert slots[..1][..0] == [];
    }
    CreateIff(slots, None, plan, 365, true, e);
    CreateIff(slots, None, plan, 365, false, e);
    assert Dispatched(slots[1], plan.elements[0], plan);
    var t := RunTrace(slots, None, plan, 365, false);
    assert e in t;
    assert IntendedOutcome([site], Defaults).trace == t + [Log(Total(CountCreates(t)))];
  }

  /** One pass of the element loop (lines 87-145): the skip checks, the pending-change
      policy and the awaited create. */
  method BackUpUnit(site: Site, environment: Env, element: string, plan: Plan, keepFor: int) returns (unit: seq<Effect>, backup: bool)
    ensures unit == UnitTrace(Slot(site, environment), element, plan, keepFor)
    ensures backup == Dispatched(Slot(site, environment), element, plan)
  {
    var check := false;
    backup := true;
    var siteEnv := site.name + "." + environment.id;
    unit := [];
    if element in plan.skips {
      backup := false;
    }
    if environment.id in plan.skips {
      backup := false;
    }
    if siteEnv in plan.skips {
      backup := false;
    }
    if environment.id !in ["test", "live"] {
      check := element == "code";
    }
    if backup && check {
      if environment.mode == "sftp" {
        unit := unit + [DiffStat(siteEnv)];
        if environment.hasDiff {
          match plan.policy {
            case CommitPending =>
              unit := unit + [Commit(siteEnv)];
            case IgnorePending =>
              unit := unit + [Log(CommitIgnored(siteEnv))];
            case SkipPending =>
              unit := unit + [Log(CommitSkipped(siteEnv))];
              backup := false;
          }
        }
      }
    }
    if backup {
      unit := unit + [Create(siteEnv, Some(element), Some(keepFor), true), Log(Created(siteEnv, Some(element)))];
    }
  }

  lemma UnitTracesSnoc(slot: Slot, elements: seq<string>, k: nat, plan: Plan, keepFor: int)
    requires k < |elements|
    ensures Concat(UnitTraces(slot, elements[..k + 1], plan, keepFor))
         == Concat(UnitTraces(slot, elements[..k], plan, keepFor)) + UnitTrace(slot, elements[k], plan, keepFor)
  {
    assert UnitTraces(slot, elements[..k + 1], plan, keepFor)
        == UnitTraces(slot, elements[..k], plan, keepFor) + [UnitTrace(slot, elements[k], plan, keepFor)];
    ConcatSnoc(UnitTraces(slot, elements[..k], plan, keepFor), UnitTrace(slot, elements[k], plan, keepFor));
  }

  /** The element loop for one processed environment (lines 86-146). */
  method BackUpEnvironment(site: Site, environment: Env, plan: Plan, keepFor: int) returns (effects: seq<Effect>, created: nat)
    ensures effects == Concat(UnitTraces(Slot(site, environment), plan.elements, plan, keepFor))
    ensures created == CountCreates(effects)
  {
    ghost var slot := Slot(site, environment);
    effects, created := [], 0;
    var k := 0;
    while k < |plan.elements|
      invariant 0 <= k <= |plan.elements|
      invariant effects == Concat(UnitTraces(slot, plan.elements[..k], plan, keepFor))
      invariant created == CountCreates(effects)
    {
      var element := plan.elements[k];
      var unit, backup := BackUpUnit(site, environment, element, plan, keepFor);
      UnitCreates(slot, element, plan, keepFor);
      CountsAppend(effects, unit);
      UnitTracesSnoc(slot, plan.elements, k, plan, keepFor);
      effects := effects + unit;
      created := created + if backup then 1 else 0;
      k := k + 1;
    }
    assert plan.elements[..k] == plan.elements;
  }

  /** Option validation (lines 49-75): raises before any site is read. */
  method Validate(o: Options) returns (r: Result<Plan>)
    ensures r == MakePlan(o)
  {
    // Validate the --element option.
    var elements := Canonical;
    if o.element.Some? {
      var element := o.element.value;
      if element == "db" {
        element := "database";
      }
      if element !in elements {
        return Err(InvalidElement);
      }
      elements := [element];
    }
    // Validate the --changes option.
    var policy := ParsePolicy(o.changes);
    if policy.None? {
      return Err(InvalidChanges);
    }
    var skips: seq<string> := [];
    if o.skip.Some? {
      skips := Split(o.skip.value, ',');
    }
    r := Ok(Plan(elements, policy.value, skips));
  }

  /** One pass of the environment loop (lines 82-147): an initialized environment that the
      env filter admits writes its id into the filter and backs up its elements. */
  method BackUpSlot(site: Site, environment: Env, plan: Plan, keepFor: int, env: Option<string>, trace: seq<Effect>, count: nat)
    returns (env': Option<string>, trace': seq<Effect>, count': nat)
    requires count == CountCreates(trace)
    ensures env' == if Processed(Slot(site, environment), env) then Some(environment.id) else env
    ensures trace' == trace + SlotTrace(Slot(site, environment), env, plan, keepFor)
    ensures count' == CountCreates(trace')
  {
    env', trace', count' := env, trace, count;
    if environment.initialized {
      var process := if env.None? then true else environment.id == env.value;
      if process {
        env' := Some(environment.id);
        var effects, created := BackUpEnvironment(site, environment, plan, keepFor);
        CountsAppend(trace, effects);
        trace' := trace + effects;
        count' := count + created;
      }
    }
  }

  /** A run state that has visited `visited`, advanced past one more slot. */
  lemma SlotStep(visited: seq<Slot>, slot: Slot, env: Option<string>, plan: Plan, keepFor: int, filter: Option<string>, trace: seq<Effect>)
    requires filter == FilterAfter(env, visited)
    requires trace == RunTrace(visited, env, plan, keepFor, true)
    ensures FilterAfter(env, visited + [slot]) == if Processed(slot, filter) then Some(slot.env.id) else filter
    ensures RunTrace(visited + [slot], env, plan, keepFor, true) == trace + SlotTrace(slot, filter, plan, keepFor)
  {
    RunTraceSnoc(visited, slot, env, plan, keepFor, true);
  }

  /** The environment loop for one site (lines 78-147), continuing a run that has visited
      `done` so far with env filter `env`, trace `trace` and count `count`. */
  method BackUpSite(site: Site, plan: Plan, o: Options, ghost done: seq<Slot>, env: Option<string>, trace: seq<Effect>, count: nat)
    returns (env': Option<string>, trace': seq<Effect>, count': nat)
    requires env == FilterAfter(o.env, done)
    requires trace == RunTrace(done, o.env, plan, o.keepFor, true)
    requires count == CountCreates(trace)
    ensures env' == FilterAfter(o.env, done + SiteSlots(site))
    ensures trace' == RunTrace(done + SiteSlots(site), o.env, plan, o.keepFor, true)
    ensures count' == CountCreates(trace')
  {
    env', trace', count' := env, trace, count;
    ghost var visited := done;
    var j := 0;
    while j < |site.envs|
      invariant 0 <= j <= |site.envs|
      invariant visited == done + SiteSlots(site)[..j]
      invariant env' == FilterAfter(o.env, visited)
      invariant trace' == RunTrace(visited, o.env, plan, o.keepFor, true)
      invariant count' == CountCreates(trace')
    {
      ghost var slot := Slot(site, site.envs[j]);
      ghost var filter, previous := env', trace';
      env', trace', count' := BackUpSlot(site, site.envs[j], plan, o.keepFor, env', trace', count');
      SiteSlotsPrefix(site, j);
      SlotStep(visited, slot, o.env, plan, o.keepFor, filter, previous);
      visited := visited + [slot];
      j := j + 1;
    }
    assert SiteSlots(site)[..j] == SiteSlots(site);
  }

  /** The site loop (lines 77-149): every environment of every site in catalog order, with
      the env filter carried from one site to the next. */
  method BackUpSites(sites: seq<Site>, plan: Plan, o: Options) returns (trace: seq<Effect>, count: nat)
    ensures trace == RunTrace(Slots(sites), o.env, plan, o.keepFor, true)
    ensures count == CountCreates(trace)
  {
    count, trace := 0, [];
    var env := o.env;
    var i := 0;
    while i < |sites|
      invariant 0 <= i <= |sites|
      invariant env == FilterAfter(o.env, Slots(sites[..i]))
      invariant trace == RunTrace(Slots(sites[..i]), o.env, plan, o.keepFor, true)
      invariant count == CountCreates(trace)
    {
      env, trace, count := BackUpSite(sites[i], plan, o, Slots(sites[..i]), env, trace, count);
      SlotsPrefix(sites, i);
      i := i + 1;
    }
    assert sites[..i] == sites;
  }

  /** The command (lines 47-153). */
  method CreateBackups(sites: seq<Site>, o: Options) returns (run: Run)
    ensures run == Outcome(sites, o)
    ensures run.failure.Some? ==> run.trace == []
    ensures run.failure.None? ==> |run.trace| > 0 && run.trace[|run.trace| - 1] == Log(Total(CountCreates(run.trace)))
  {
    var validated := Validate(o);
    if validated.Err? {
      return Run([], Some(validated.failure));
    }
    var trace, count := BackUpSites(sites, validated.value, o);
    run := Run(trace + [Log(Total(count))], None);
    ClosingCount(sites, o, true);
  }
}
