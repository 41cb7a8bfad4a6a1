/** The first-generation `site backup-all` command of Commands/BackupAllCommand.php: validate
    the element and changes options, fetch the sites, check the env option against them, then
    make one backup call per environment (env `all`) or one per site (any other env). A backup
    call commits, ignores or skips pending changes of an sftp environment for any environment
    id, and issues a create it does not wait for. */
module LegacyBackupAll {
  import opened Base
  import opened Catalog
  import opened Effects
  import opened Choices

  /** The options of index(): --element, --changes, --env and --owner. */
  datatype Options = Options(element: Option<string>, changes: Option<string>, env: Option<string>, owner: Option<string>)

  const Defaults: Options := Options(None, None, None, None)

  /** The elements this command accepts; `all` is passed on to the create call as is. */
  const Elements: seq<string> := ["all", "code", "database", "files"]

  /** The validated element and pending-change policy. */
  datatype Settings = Settings(element: string, policy: Policy)

  /** Option validation (lines 75-95): element first, then changes, before any site is read. */
  function Validated(o: Options): (r: Result<Settings>)
    ensures r == Err(InvalidElement) <==> o.element.GetOr("all") !in Elements
    ensures r == Err(InvalidChanges) <==> o.element.GetOr("all") in Elements && ParsePolicy(o.changes.GetOr("commit")).None?
    ensures r.Ok? ==> r.value.element == o.element.GetOr("all") && r.value.element in Elements
    ensures r.Ok? ==> Some(r.value.policy) == ParsePolicy(o.changes.GetOr("commit"))
  {
    var element := o.element.GetOr("all");
    if element !in Elements then Err(InvalidElement)
    else
      var policy := ParsePolicy(o.changes.GetOr("commit"));
      if policy.None? then Err(InvalidChanges) else Ok(Settings(element, policy.value))
  }

  /** The --env value is `all` or the id of some environment of some fetched site. */
  predicate EnvKnown(sites: seq<Site>, env: string) {
    env == "all" || exists i, j :: 0 <= i < |sites| && 0 <= j < |sites[i].envs| && sites[i].envs[j].id == env
  }

  /** One call of the private backup(): a site and the id of the environment to back up. */
  datatype Call = Call(site: Site, id: string) {
    function Name(): string {
      SiteEnv(site.name, id)
    }
  }

  /** The backup calls for one site: each of its environments, or the one env named. */
  function SiteCalls(site: Site, env: string): seq<Call> {
    if env == "all" then seq(|site.envs|, j requires 0 <= j < |site.envs| => Call(site, site.envs[j].id))
    else [Call(site, env)]
  }

  /** The backup calls of the dispatch loop (lines 155-178), in site order. */
  function Calls(sites: seq<Site>, env: string): seq<Call>
    decreases |sites|
  {
    if sites == [] then [] else SiteCalls(sites[0], env) + Calls(sites[1..], env)
  }

  lemma {:induction false} CallsSnoc(sites: seq<Site>, site: Site, env: string)
    ensures Calls(sites + [site], env) == Calls(sites, env) + SiteCalls(site, env)
    decreases |sites|
  {
    if sites == [] {
      assert [site][1..] == [];
    } else {
      assert (sites + [site])[1..] == sites[1..] + [site];
      CallsSnoc(sites[1..], site, env);
    }
  }

  lemma {:induction false} CallsAppend(a: seq<Site>, b: seq<Site>, env: string)
    ensures Calls(a + b, env) == Calls(a, env) + Calls(b, env)
    decreases |a|
  {
    if a == [] {
      assert a + b == b;
    } else {
      assert (a + b)[1..] == a[1..] + b;
      CallsAppend(a[1..], b, env);
    }
  }

  /** With env `all`, the calls are exactly the catalog's environments, one each, in order;
      whether an environment is initialized plays no part. */
  lemma {:induction false} AllCallsAreSlots(sites: seq<Site>)
    ensures |Calls(sites, "all")| == |Slots(sites)|
    ensures forall k :: 0 <= k < |Slots(sites)| ==>
      Calls(sites, "all")[k] == Call(Slots(sites)[k].site, Slots(sites)[k].env.id)
    decreases |sites|
  {
    if sites != [] {
      AllCallsAreSlots(sites[1..]);
      var head, rest := SiteCalls(sites[0], "all"), Calls(sites[1..], "all");
      var heads, rests := SiteSlots(sites[0]), Slots(sites[1..]);
      assert |head| == |heads|;
      forall k | 0 <= k < |Slots(sites)|
        ensures Calls(sites, "all")[k] == Call(Slots(sites)[k].site, Slots(sites)[k].env.id)
      {
        if k < |heads| {
          assert Slots(sites)[k] == heads[k];
          assert Calls(sites, "all")[k] == head[k];
        } else {
          assert Slots(sites)[k] == rests[k - |heads|];
          assert Calls(sites, "all")[k] == rest[k - |head|];
        }
      }
    }
  }

  /** With any other env, each site gets exactly one call, for that env. */
  lemma {:induction false} OneCallPerSite(sites: seq<Site>, env: string)
    requires env != "all"
    ensures |Calls(sites, env)| == |sites|
    ensures forall i :: 0 <= i < |sites| ==> Calls(sites, env)[i] == Call(sites[i], env)
    decreases |sites|
  {
    if sites != [] {
      OneCallPerSite(sites[1..], env);
      forall i | 0 <= i < |sites| ensures Calls(sites, env)[i] == Call(sites[i], env) {
        if i > 0 {
          assert Calls(sites, env)[i] == Calls(sites[1..], env)[i - 1];
        }
      }
    }
  }

  /** Pending changes are looked at for an sftp environment when the element is `all` or
      `code`, whatever the environment's id. */
  predicate Inspected(env: Env, element: string) {
    env.mode == "sftp" && element in ["all", "code"]
  }

  /** What backup() does once it holds the environment (lines 203-263). */
  function EnvTrace(name: string, env: Env, element: string, policy: Policy): seq<Effect> {
    var create := [Create(name, Some(element), None, false), Log(Created(name, Some(element)))];
    if !Inspected(env, element) then create
    else if !env.hasDiff then [DiffStat(name)] + create
    else
      match policy
      case CommitPending => [DiffStat(name), Commit(name)] + create
      case IgnorePending => [DiffStat(name), Log(CommitIgnored(name))] + create
      case SkipPending => [DiffStat(name), Log(CommitSkipped(name))]
  }

  /** The policy of one backup call: commit commits once and then creates, ignore creates
      without committing, skip logs the abort and creates nothing; test and live are no
      exception. The create names the element as given and is not awaited. */
  lemma EnvPolicy(name: string, env: Env, element: string, policy: Policy)
    ensures var t := EnvTrace(name, env, element, policy);
      && (DiffStat(name) in t <==> Inspected(env, element))
      && (Commit(name) in t <==> Inspected(env, element) && env.hasDiff && policy == CommitPending)
      && (Inspected(env, element) && env.hasDiff && policy == CommitPending ==>
            t == [DiffStat(name), Commit(name), Create(name, Some(element), None, false), Log(Created(name, Some(element)))])
      && (Inspected(env, element) && env.hasDiff && policy == IgnorePending ==>
            t == [DiffStat(name), Log(CommitIgnored(name)), Create(name, Some(element), None, false), Log(Created(name, Some(element)))])
      && (Inspected(env, element) && env.hasDiff && policy == SkipPending ==>
            t == [DiffStat(name), Log(CommitSkipped(name))])
      && (!Inspected(env, element) || !env.hasDiff ==> Create(name, Some(element), None, false) in t)
  {
  }

  /** Each backup call either creates once or reports the abort once, never both. */
  lemma EnvCounts(name: string, env: Env, element: string, policy: Policy)
    ensures var t := EnvTrace(name, env, element, policy);
      && CountCreates(t) == (if Inspected(env, element) && env.hasDiff && policy == SkipPending then 0 else 1)
      && CountCreates(t) + CountSkips(t) == 1
      && (forall e :: e in t && e.Create? ==> e == Create(name, Some(element), None, false))
  {
    var create := [Create(name, Some(element), None, false), Log(Created(name, Some(element)))];
    assert CountCreates(create) == 1 && CountSkips(create) == 0 by {
      assert create[1..] == [Log(Created(name, Some(element)))];
      assert create[1..][1..] == [];
      assert CountCreates(create[1..]) == 0;
      assert CountSkips(create[1..]) == 0;
    }
    var t := EnvTrace(name, env, element, policy);
    if Inspected(env, element) {
      if !env.hasDiff {
        assert t[1..] == create;
      } else if policy != SkipPending {
        assert t[1..][1..] == create;
      } else {
        assert t[1..] == [Log(CommitSkipped(name))];
        assert t[1..][1..] == [];
        assert CountCreates(t[1..]) == 0;
        assert CountSkips(t[1..]) == 1;
      }
    }
  }

  /** One backup() call: a site without the requested environment ends the command. */
  function BackupCall(call: Call, element: string, policy: Policy): Run {
    match FindEnv(call.site.envs, call.id)
    case None => Run([], Some(EnvNotFound(call.Name())))
    case Some(env) => Run(EnvTrace(call.Name(), env, element, policy), None)
  }

  /** The calls made in order; the first failing one ends the run. */
  function Dispatch(calls: seq<Call>, element: string, policy: Policy): Run
    decreases |calls|
  {
    if calls == [] then Run([], None)
    else
      var n := |calls| - 1;
      var r := Dispatch(calls[..n], element, policy);
      if r.failure.Some? then r else Prepend(r.trace, BackupCall(calls[n], element, policy))
  }

  lemma DispatchSnoc(calls: seq<Call>, call: Call, element: string, policy: Policy)
    ensures var r := Dispatch(calls, element, policy);
      Dispatch(calls + [call], element, policy) == if r.failure.Some? then r else Prepend(r.trace, BackupCall(call, element, policy))
  {
    assert (calls + [call])[..|calls|] == calls;
  }

  /** Once a call fails, the calls after it are never made. */
  lemma {:induction false} DispatchStops(calls: seq<Call>, rest: seq<Call>, element: string, policy: Policy)
    requires Dispatch(calls, element, policy).failure.Some?
    ensures Dispatch(calls + rest, element, policy) == Dispatch(calls, element, policy)
    decreases |rest|
  {
    if rest != [] {
      var n := |rest| - 1;
      DispatchStops(calls, rest[..n], element, policy);
      assert calls + rest == (calls + rest[..n]) + [rest[n]];
      DispatchSnoc(calls + rest[..n], rest[n], element, policy);
    } else {
      assert calls + rest == calls;
    }
  }

  /** A call after a prefix that has not failed yet, followed by the calls still to come. */
  lemma DispatchStep(prefix: seq<Call>, call: Call, rest: seq<Call>, element: string, policy: Policy, t: seq<Effect>)
    requires Dispatch(prefix, element, policy) == Run(t, None)
    ensures var r := BackupCall(call, element, policy);
      if r.failure.None? then Dispatch(prefix + [call], element, policy) == Run(t + r.trace, None)
      else Dispatch(prefix + [call] + rest, element, policy) == Run(t + r.trace, r.failure)
  {
    DispatchSnoc(prefix, call, element, policy);
    if BackupCall(call, element, policy).failure.Some? {
      DispatchStops(prefix + [call], rest, element, policy);
    }
  }

  /** One more call of a dispatch that has not failed yet: it either extends the trace or
      ends the whole dispatch. */
  lemma DispatchNext(done: seq<Call>, calls: seq<Call>, j: nat, element: string, policy: Policy, t: seq<Effect>)
    requires j < |calls|
    requires Dispatch(done + calls[..j], element, policy) == Run(t, None)
    ensures var r := BackupCall(calls[j], element, policy);
      if r.failure.None? then Dispatch(done + calls[..j + 1], element, policy) == Run(t + r.trace, None)
      else Dispatch(done + calls, element, policy) == Run(t + r.trace, r.failure)
  {
    var prefix := done + calls[..j];
    assert done + calls[..j + 1] == prefix + [calls[j]] by {
      assert calls[..j + 1] == calls[..j] + [calls[j]];
    }
    assert done + calls == prefix + [calls[j]] + calls[j + 1..] by {
      assert calls == calls[..j] + [calls[j]] + calls[j + 1..];
    }
    DispatchStep(prefix, calls[j], calls[j + 1..], element, policy, t);
  }

  /** The calls up to and including site `i`, and the calls after it. */
  lemma CallsSplit(sites: seq<Site>, i: nat, env: string)
    requires i < |sites|
    ensures Calls(sites[..i + 1], env) == Calls(sites[..i], env) + SiteCalls(sites[i], env)
    ensures Calls(sites, env) == Calls(sites[..i + 1], env) + Calls(sites[i + 1..], env)
  {
    CallsSnoc(sites[..i], sites[i], env);
    assert sites[..i + 1] == sites[..i] + [sites[i]];
    CallsAppend(sites[..i + 1], sites[i + 1..], env);
    assert sites[..i + 1] + sites[i + 1..] == sites;
  }

  /** The calls of one more site of a dispatch that has not failed yet: they either extend
      it or end the whole dispatch. */
  lemma SiteDone(sites: seq<Site>, i: nat, env: string, element: string, policy: Policy)
    requires i < |sites|
    requires Dispatch(Calls(sites[..i], env), element, policy).failure.None?
    ensures var r := Dispatch(Calls(sites[..i], env) + SiteCalls(sites[i], env), element, policy);
      if r.failure.None? then Dispatch(Calls(sites[..i + 1], env), element, policy) == r
      else Dispatch(Calls(sites, env), element, policy) == r
  {
    CallsSplit(sites, i, env);
    var block := Calls(sites[..i + 1], env);
    if Dispatch(block, element, policy).failure.Some? {
      DispatchStops(block, Calls(sites[i + 1..], env), element, policy);
    }
  }

  /** Calls that all succeed make one create or one abort notice each. */
  lemma {:induction false} DispatchCounts(calls: seq<Call>, element: string, policy: Policy)
    requires Dispatch(calls, element, policy).failure.None?
    ensures var t := Dispatch(calls, element, policy).trace;
      CountCreates(t) + CountSkips(t) == |calls|
    decreases |calls|
  {
    if calls != [] {
      var n := |calls| - 1;
      DispatchCounts(calls[..n], element, policy);
      var r := Dispatch(calls[..n], element, policy);
      var env := FindEnv(calls[n].site.envs, calls[n].id).value;
      EnvCounts(calls[n].Name(), env, element, policy);
      CountsAppend(r.trace, EnvTrace(calls[n].Name(), env, element, policy));
    }
  }

  /** The site of the call has the environment it asks for. */
  predicate HasEnv(call: Call) {
    exists j :: 0 <= j < |call.site.envs| && call.site.envs[j].id == call.id
  }

  /** Every call for an environment the site has succeeds. */
  lemma {:induction false} DispatchSucceeds(calls: seq<Call>, element: string, policy: Policy)
    requires forall k :: 0 <= k < |calls| ==> HasEnv(calls[k])
    ensures Dispatch(calls, element, policy).failure.None?
    decreases |calls|
  {
    if calls != [] {
      var n := |calls| - 1;
      assert forall k :: 0 <= k < n ==> calls[..n][k] == calls[k];
      DispatchSucceeds(calls[..n], element, policy);
    }
  }

  /** With env `all`, no call fails, and every environment of every site is backed up once
      or reported as aborted once. */
  lemma AllEnvironmentsBackedUp(sites: seq<Site>, element: string, policy: Policy)
    ensures Dispatch(Calls(sites, "all"), element, policy).failure.None?
    ensures var t := Dispatch(Calls(sites, "all"), element, policy).trace;
      CountCreates(t) + CountSkips(t) == |Slots(sites)| == EnvCount(sites)
  {
    SlotsCount(sites);
    var calls := Calls(sites, "all");
    AllCallsAreSlots(sites);
    SlotsCover(sites);
    forall k | 0 <= k < |calls|
      ensures HasEnv(calls[k])
    {
      var slot := Slots(sites)[k];
      assert slot in Slots(sites);
      var j :| 0 <= j < |slot.site.envs| && slot.site.envs[j] == slot.env;
      assert calls[k].site.envs[j].id == calls[k].id;
    }
    DispatchSucceeds(calls, element, policy);
    DispatchCounts(calls, element, policy);
  }

  /** The whole command for the fetched (already name-filtered) site list. */
  function Outcome(sites: seq<Site>, o: Options, user: string): Run {
    match Validated(o)
    case Err(f) => Run([], Some(f))
    case Ok(settings) =>
      var fetched := OwnerTrace(o.owner, user) + (if sites == [] then [Log(NoSites)] else []);
      var env := o.env.GetOr("all");
      if !EnvKnown(sites, env) then Run(fetched, Some(InvalidEnv))
      else Prepend(fetched, Dispatch(Calls(sites, env), settings.element, settings.policy))
  }

  /** Without sites, every env other than `all` is rejected. */
  lemma NoSitesRejectsEnv(o: Options, user: string)
    requires Validated(o).Ok? && o.env.GetOr("all") != "all"
    ensures Outcome([], o, user) == Run(OwnerTrace(o.owner, user) + [Log(NoSites)], Some(InvalidEnv))
  {
  }

  /** The --env check of lines 128-152: a search that stops at the first match. */
  method CheckEnv(sites: seq<Site>, env: string) returns (valid: bool)
    ensures valid == EnvKnown(sites, env)
  {
    valid := env == "all";
    if !valid {
      var i := 0;
      while i < |sites|
        invariant 0 <= i <= |sites|
        invariant !valid ==> forall i', j :: 0 <= i' < i && 0 <= j < |sites[i'].envs| ==> sites[i'].envs[j].id != env
        invariant valid ==> EnvKnown(sites, env)
      {
        var environments := sites[i].envs;
        var j := 0;
        while j < |environments|
          invariant 0 <= j <= |environments|
          invariant forall j' :: 0 <= j' < j ==> environments[j'].id != env
        {
          if environments[j].id == env {
            valid := true;
            break;
          }
          j := j + 1;
        }
        if valid {
          break;
        }
        i := i + 1;
      }
    }
  }

  /** The private backup() for one call (lines 188-264). */
  method BackUpCall(call: Call, element: string, policy: Policy) returns (r: Run)
    ensures r == BackupCall(call, element, policy)
  {
    var name := call.site.name + "." + call.id;
    var found := FindEnv(call.site.envs, call.id);
    if found.None? {
      return Run([], Some(EnvNotFound(name)));
    }
    var env := found.value;
    var trace: seq<Effect> := [];
    var backup := true;
    if env.mode == "sftp" {
      if element in ["all", "code"] {
        trace := trace + [DiffStat(name)];
        if env.hasDiff {
          match policy {
            case CommitPending =>
              trace := trace + [Commit(name)];
            case IgnorePending =>
              trace := trace + [Log(CommitIgnored(name))];
            case SkipPending =>
              trace := trace + [Log(CommitSkipped(name))];
              backup := false;
          }
        }
      }
    }
    if backup {
      trace := trace + [Create(name, Some(element), None, false), Log(Created(name, Some(element)))];
    }
    r := Run(trace, None);
  }

  /** The backup calls for one site, continuing a dispatch that has made `done` so far
      without failure and produced `trace`; `failure` is the error that ended it, if any. */
  method BackUpSite(site: Site, env: string, settings: Settings, ghost done: seq<Call>, trace: seq<Effect>)
    returns (trace': seq<Effect>, failure: Option<Failure>)
    requires Dispatch(done, settings.element, settings.policy) == Run(trace, None)
    ensures Dispatch(done + SiteCalls(site, env), settings.element, settings.policy) == Run(trace', failure)
  {
    var element, policy := settings.element, settings.policy;
    var calls := SiteCalls(site, env);
    trace' := trace;
    var j := 0;
    assert done + calls[..0] == done;
    while j < |calls|
      invariant 0 <= j <= |calls|
      invariant Dispatch(done + calls[..j], element, policy) == Run(trace', None)
    {
      var r := BackUpCall(calls[j], element, policy);
      DispatchNext(done, calls, j, element, policy, trace');
      trace' := trace' + r.trace;
      if r.failure.Some? {
        return trace', r.failure;
      }
      j := j + 1;
    }
    assert calls[..j] == calls;
    failure := None;
  }

  /** Option validation (lines 75-95). */
  method Validate(o: Options) returns (r: Result<Settings>)
    ensures r == Validated(o)
  {
    var element := o.element.GetOr("all");
    if element !in Elements {
      return Err(InvalidElement);
    }
    var policy := ParsePolicy(o.changes.GetOr("commit"));
    if policy.None? {
      return Err(InvalidChanges);
    }
    r := Ok(Settings(element, policy.value));
  }

  /** index() (lines 74-179). */
  method BackupAll(sites: seq<Site>, o: Options, user: string) returns (run: Run)
    ensures run == Outcome(sites, o, user)
  {
    var validated := Validate(o);
    if validated.Err? {
      return Run([], Some(validated.failure));
    }
    var settings := validated.value;
    var element, policy := settings.element, settings.policy;

    var trace: seq<Effect> := [];
    if o.owner.Some? {
      var owner := o.owner.value;
      if owner == "me" {
        owner := user;
      }
      trace := trace + [OwnerFilter(owner)];
    }
    if |sites| == 0 {
      trace := trace + [Log(NoSites)];
    }
    assert trace == OwnerTrace(o.owner, user) + (if sites == [] then [Log(NoSites)] else []);
    var env := o.env.GetOr("all");
    var valid := CheckEnv(sites, env);
    if !valid {
      return Run(trace, Some(InvalidEnv));
    }
    assert Outcome(sites, o, user) == Prepend(trace, Dispatch(Calls(sites, env), element, policy));
    var dispatched: seq<Effect> := [];
    var i := 0;
    while i < |sites|
      invariant 0 <= i <= |sites|
      invariant Dispatch(Calls(sites[..i], env), element, policy) == Run(dispatched, None)
    {
      var failure;
      dispatched, failure := BackUpSite(sites[i], env, settings, Calls(sites[..i], env), dispatched);
      SiteDone(sites, i, env, element, policy);
      if failure.Some? {
        return Run(trace + dispatched, failure);
      }
      i := i + 1;
    }
    assert sites[..i] == sites;
    run := Run(trace + dispatched, None);
  }
}
