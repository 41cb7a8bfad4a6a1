/** `backup-all:get` as src/Commands/GetCommand.php implements it: validate the framework
    option, then, for every initialized environment that passes the env and framework
    filters, query the finished backups of each element and report the archive URL of the
    newest one, or of every one whose day lies in the --date range. */
module GetCommand {
  import opened Base
  import opened Text
  import opened Catalog
  import opened Effects
  import opened Choices
  import opened DateRange

  /** The options that shape the report: --env, --element, --framework, --date, --owner. */
  datatype Options = Options(env: Option<string>, element: Option<string>, framework: Option<string>, date: Option<string>, owner: Option<string>)

  const Frameworks: seq<string> := ["backdrop", "drupal", "drupal8", "wordpress"]

  /** The --framework option (lines 80-90): its comma-separated tokens, each of which must
      be a known framework; none means no framework filter. */
  function FrameworkList(o: Options): (r: Result<seq<string>>)
    ensures r.Err? <==> o.framework.Some? && exists t :: t in Split(o.framework.value, ',') && t !in Frameworks
    ensures r.Err? ==> r.failure == InvalidFramework
    ensures r.Ok? ==> forall t :: t in r.value ==> t in Frameworks
    ensures r.Ok? && o.framework.None? ==> r.value == []
    ensures r.Ok? && o.framework.Some? ==> |r.value| >= 1 && Join(r.value, ',') == o.framework.value
  {
    if o.framework.None? then Ok([])
    else
      var tokens := Split(o.framework.value, ',');
      JoinSplit(o.framework.value, ',');
      if exists t :: t in tokens && t !in Frameworks then Err(InvalidFramework) else Ok(tokens)
  }

  /** An environment is reported on when it is initialized, --env is unset or names it, and
      the framework list is empty or holds its site's framework. */
  predicate Shown(slot: Slot, env: Option<string>, frameworks: seq<string>) {
    slot.env.initialized && (env.None? || slot.env.id == env.value)
    && (frameworks == [] || slot.site.framework in frameworks)
  }

  /** The elements queried for each shown environment (lines 112-117). */
  function Elements(o: Options): (es: seq<string>)
    ensures o.element.None? ==> es == Canonical
    ensures o.element.Some? ==> es == [Normalize(o.element.value)]
  {
    if o.element.Some? then [Normalize(o.element.value)] else Canonical
  }

  /** The day range of --date, if given. */
  function RangeOf(o: Options): Option<Range> {
    if o.date.Some? then Some(ParseRange(o.date.value)) else None
  }

  /** One (environment, element) query: a notice when nothing is finished, otherwise the
      URL of the newest backup or those of every backup inside the range. */
  function UnitOut(slot: Slot, element: string, range: Option<Range>): Out<string> {
    var name := slot.Name();
    var bs := FinishedBackups(slot.env, Some(element));
    if bs == [] then Out([], [Query(name, Some(element)), Log(NoBackups(name, element))])
    else if range.Some? then Out(Urls(WithinRange(bs, range.value)), [Query(name, Some(element))])
    else Out([bs[0].url], [Query(name, Some(element))])
  }

  function UnitOuts(slot: Slot, elements: seq<string>, range: Option<Range>): seq<Out<string>> {
    seq(|elements|, i requires 0 <= i < |elements| => UnitOut(slot, elements[i], range))
  }

  function SlotOut(slot: Slot, o: Options, frameworks: seq<string>): Out<string> {
    if Shown(slot, o.env, frameworks) then Flatten(UnitOuts(slot, Elements(o), RangeOf(o))) else Out([], [])
  }

  function SlotOuts(slots: seq<Slot>, o: Options, frameworks: seq<string>): seq<Out<string>> {
    seq(|slots|, k requires 0 <= k < |slots| => SlotOut(slots[k], o, frameworks))
  }

  lemma SlotOutsAppend(a: seq<Slot>, b: seq<Slot>, o: Options, frameworks: seq<string>)
    ensures SlotOuts(a + b, o, frameworks) == SlotOuts(a, o, frameworks) + SlotOuts(b, o, frameworks)
  {
  }

  /** getBackup(): owner filter, framework check, the notice for an empty site list, the
      rows, and the closing count; the rows come back only when there are some. */
  function Outcome(sites: seq<Site>, o: Options, user: string): Report<string> {
    var fetched := OwnerTrace(o.owner, user);
    match FrameworkList(o)
    case Err(f) => Report(Some(f), None, fetched)
    case Ok(frameworks) =>
      var out := Flatten(SlotOuts(Slots(sites), o, frameworks));
      var trace := fetched + (if sites == [] then [Log(NoSites)] else []) + out.trace + [Log(Total(|out.rows|))];
      Report(None, if out.rows == [] then None else Some(out.rows), trace)
  }

  /** The rows of one query: without --date, exactly the URL of the newest matching backup;
      with it, the URLs of the matching backups inside the range, in list order. */
  lemma UnitRows(slot: Slot, element: string, range: Option<Range>)
    ensures var out := UnitOut(slot, element, range);
      var bs := FinishedBackups(slot.env, Some(element));
      && (bs == [] ==> out.rows == [] && Log(NoBackups(slot.Name(), element)) in out.trace)
      && (bs != [] && range.None? ==>
            exists k :: IsNewest(slot.env.backups, Some(element), k) && out.rows == [slot.env.backups[k].url])
      && (range.Some? ==> forall u :: u in out.rows <==>
            exists b :: b in slot.env.backups && b.element == element && InRange(b.day, range.value) && b.url == u)
      && (range.Some? ==> out.rows == Urls(WithinRange(bs, range.value)) && SubseqOf(WithinRange(bs, range.value), bs))
  {
    var bs := FinishedBackups(slot.env, Some(element));
    if bs != [] && range.None? {
      FirstIsNewest(slot.env.backups, Some(element));
    }
    if range.Some? {
      var kept := WithinRange(bs, range.value);
      WithinRangeKeepsOrder(bs, range.value);
      forall u ensures u in UnitOut(slot, element, range).rows <==>
        exists b :: b in slot.env.backups && b.element == element && InRange(b.day, range.value) && b.url == u
      {
        if bs != [] && u in Urls(kept) {
          var k :| 0 <= k < |kept| && Urls(kept)[k] == u;
          assert kept[k] in kept;
        }
        if b :| b in slot.env.backups && b.element == element && InRange(b.day, range.value) && b.url == u {
          assert b in kept;
          var k :| 0 <= k < |kept| && kept[k] == b;
          assert Urls(kept)[k] == u;
        }
      }
    }
  }

  /** Exactly the shown environments are queried, each for every element asked for and
      nothing else; a hidden environment is never queried at all. */
  lemma QueriedIff(sites: seq<Site>, o: Options, frameworks: seq<string>, name: string, queried: Option<string>)
    ensures Query(name, queried) in Flatten(SlotOuts(Slots(sites), o, frameworks)).trace <==>
      queried.Some? && queried.value in Elements(o)
      && exists slot :: slot in Slots(sites) && Shown(slot, o.env, frameworks) && slot.Name() == name
  {
    var slots := Slots(sites);
    var outs := SlotOuts(slots, o, frameworks);
    var e := Query(name, queried);
    FlattenMembership(outs, "", e);
    forall k | 0 <= k < |slots|
      ensures e in outs[k].trace <==>
        Shown(slots[k], o.env, frameworks) && slots[k].Name() == name && queried.Some? && queried.value in Elements(o)
    {
      UnitQueries(slots[k], Elements(o), RangeOf(o), name, queried);
    }
    if queried.Some? && queried.value in Elements(o)
      && exists slot :: slot in slots && Shown(slot, o.env, frameworks) && slot.Name() == name
    {
      var slot :| slot in slots && Shown(slot, o.env, frameworks) && slot.Name() == name;
      var k :| 0 <= k < |slots| && slots[k] == slot;
      assert e in outs[k].trace;
    }
  }

  /** One environment queries exactly the elements asked for, under its own name. */
  lemma UnitQueries(slot: Slot, elements: seq<string>, range: Option<Range>, name: string, queried: Option<string>)
    ensures Query(name, queried) in Flatten(UnitOuts(slot, elements, range)).trace <==>
      slot.Name() == name && queried.Some? && queried.value in elements
  {
    var units := UnitOuts(slot, elements, range);
    var e := Query(name, queried);
    FlattenMembership(units, "", e);
    forall i | 0 <= i < |elements|
      ensures e in units[i].trace <==> slot.Name() == name && queried == Some(elements[i])
    {
    }
    if slot.Name() == name && queried.Some? && queried.value in elements {
      var i :| 0 <= i < |elements| && elements[i] == queried.value;
      assert e in units[i].trace;
    }
  }

  /** A row is reported exactly when it comes from a query of a shown environment. */
  lemma RowsIff(sites: seq<Site>, o: Options, frameworks: seq<string>, u: string)
    ensures u in Flatten(SlotOuts(Slots(sites), o, frameworks)).rows <==>
      exists slot, element :: slot in Slots(sites) && Shown(slot, o.env, frameworks) && element in Elements(o)
        && u in UnitOut(slot, element, RangeOf(o)).rows
  {
    var slots := Slots(sites);
    var outs := SlotOuts(slots, o, frameworks);
    FlattenMembership(outs, u, Log(NoSites));
    forall k | 0 <= k < |slots|
      ensures u in outs[k].rows <==> (Shown(slots[k], o.env, frameworks)
        && exists element :: element in Elements(o) && u in UnitOut(slots[k], element, RangeOf(o)).rows)
    {
      var units := UnitOuts(slots[k], Elements(o), RangeOf(o));
      FlattenMembership(units, u, Log(NoSites));
      if u in outs[k].rows {
        var i :| 0 <= i < |units| && u in units[i].rows;
        assert Elements(o)[i] in Elements(o);
      }
      if Shown(slots[k], o.env, frameworks) && exists element :: element in Elements(o) && u in UnitOut(slots[k], element, RangeOf(o)).rows {
        var element :| element in Elements(o) && u in UnitOut(slots[k], element, RangeOf(o)).rows;
        var i :| 0 <= i < |Elements(o)| && Elements(o)[i] == element;
        assert u in units[i].rows;
      }
    }
    if slot, element :| slot in slots && Shown(slot, o.env, frameworks) && element in Elements(o) && u in UnitOut(slot, element, RangeOf(o)).rows {
      var k :| 0 <= k < |slots| && slots[k] == slot;
    }
  }

  /** `--date=A:B` and `--date=B:A` give the same report. */
  lemma DateOrderIndependent(sites: seq<Site>, o: Options, user: string, a: string, b: string)
    requires ':' !in a && ':' !in b
    ensures Outcome(sites, o.(date := Some(a + ":" + b)), user) == Outcome(sites, o.(date := Some(b + ":" + a)), user)
  {
    RangeOrderIndependent(a, b);
    var o1, o2 := o.(date := Some(a + ":" + b)), o.(date := Some(b + ":" + a));
    assert RangeOf(o1) == RangeOf(o2);
    assert SlotOuts(Slots(sites), o1, []) == SlotOuts(Slots(sites), o2, []);
    if FrameworkList(o).Ok? {
      var frameworks := FrameworkList(o).value;
      assert SlotOuts(Slots(sites), o1, frameworks) == SlotOuts(Slots(sites), o2, frameworks);
    }
  }

  /** The closing notice counts the rows, and rows are handed back only when there are some. */
  lemma CountIsRows(sites: seq<Site>, o: Options, user: string)
    ensures var r := Outcome(sites, o, user);
      r.failure.None? ==> (|r.trace| > 0 && r.trace[|r.trace| - 1] == Log(Total(if r.rows.Some? then |r.rows.value| else 0))
        && (r.rows.Some? ==> r.rows.value != []))
    ensures Outcome(sites, o, user).failure.Some? <==> FrameworkList(o).Err?
  {
  }

  /** The framework check of lines 80-90: the first unknown token raises. */
  method ValidateFrameworks(o: Options) returns (r: Result<seq<string>>)
    ensures r == FrameworkList(o)
  {
    if o.framework.None? {
      return Ok([]);
    }
    var framework := Split(o.framework.value, ',');
    var k := 0;
    while k < |framework|
      invariant 0 <= k <= |framework|
      invariant forall m :: 0 <= m < k ==> framework[m] in Frameworks
    {
      if framework[k] !in Frameworks {
        return Err(InvalidFramework);
      }
      k := k + 1;
    }
    r := Ok(framework);
  }

  /** The URLs of the backups inside the range, in order (lines 138-145). */
  method RowsInRange(backups: seq<Backup>, range: Range) returns (rows: seq<string>)
    ensures rows == Urls(WithinRange(backups, range))
  {
    rows := [];
    var k := 0;
    while k < |backups|
      invariant 0 <= k <= |backups|
      invariant rows == Urls(WithinRange(backups[..k], range))
    {
      var backup := backups[k];
      assert backups[..k + 1][..k] == backups[..k];
      if AtMost(range.lower, backup.day) && AtMost(backup.day, range.upper) {
        rows := rows + [backup.url];
      }
      k := k + 1;
    }
    assert backups[..k] == backups;
  }

  /** One element of a shown environment (lines 119-151). */
  method QueryElement(slot: Slot, element: string, date: Option<string>) returns (out: Out<string>)
    ensures date.Some? ==> out == UnitOut(slot, element, Some(ParseRange(date.value)))
    ensures date.None? ==> out == UnitOut(slot, element, None)
  {
    var siteEnv := slot.site.name + "." + slot.env.id;
    var backups := FinishedBackups(slot.env, Some(element));
    var trace := [Query(siteEnv, Some(element))];
    if backups == [] {
      return Out([], trace + [Log(NoBackups(siteEnv, element))]);
    }
    if date.Some? {
      var range := Bounds(date.value);
      var rows := RowsInRange(backups, range);
      return Out(rows, trace);
    }
    var backup := backups[0];
    out := Out([backup.url], trace);
  }

  /** One environment (lines 103-154): the filters of --env and --framework, then the
      element loop when the environment is shown. */
  method EnvRows(slot: Slot, o: Options, frameworks: seq<string>) returns (envOut: Out<string>)
    ensures envOut == SlotOut(slot, o, frameworks)
  {
    envOut := Out([], []);
    if slot.env.initialized {
      var show := if o.env.None? then true else slot.env.id == o.env.value;
      if show && frameworks != [] && slot.site.framework !in frameworks {
        show := false;
      }
      if show {
        var elements := if o.element.Some? then [Normalize(o.element.value)] else Canonical;
        envOut := ElementRows(slot, elements, o.date);
      }
    }
  }

  /** The element loop of one shown environment (lines 118-152). */
  method ElementRows(slot: Slot, elements: seq<string>, date: Option<string>) returns (envOut: Out<string>)
    ensures envOut == Flatten(UnitOuts(slot, elements, if date.Some? then Some(ParseRange(date.value)) else None))
  {
    ghost var range := if date.Some? then Some(ParseRange(date.value)) else None;
    envOut := Out([], []);
    var i := 0;
    while i < |elements|
      invariant 0 <= i <= |elements|
      invariant envOut == Flatten(UnitOuts(slot, elements[..i], range))
    {
      var unit := QueryElement(slot, elements[i], date);
      UnitOutsSnoc(slot, elements, i, range);
      envOut := Then(envOut, unit);
      i := i + 1;
    }
    assert elements[..i] == elements;
  }

  lemma UnitOutsSnoc(slot: Slot, elements: seq<string>, i: nat, range: Option<Range>)
    requires i < |elements|
    ensures Flatten(UnitOuts(slot, elements[..i + 1], range))
         == Then(Flatten(UnitOuts(slot, elements[..i], range)), UnitOut(slot, elements[i], range))
  {
    assert UnitOuts(slot, elements[..i + 1], range) == UnitOuts(slot, elements[..i], range) + [UnitOut(slot, elements[i], range)];
    FlattenSnoc(UnitOuts(slot, elements[..i], range), UnitOut(slot, elements[i], range));
  }

  /** The environment loop of one site (lines 100-156). */
  method SiteRows(site: Site, o: Options, frameworks: seq<string>) returns (out: Out<string>)
    ensures out == Flatten(SlotOuts(SiteSlots(site), o, frameworks))
  {
    var slots := SiteSlots(site);
    out := Out([], []);
    var j := 0;
    while j < |site.envs|
      invariant 0 <= j <= |site.envs|
      invariant out == Flatten(SlotOuts(slots[..j], o, frameworks))
    {
      var envOut := EnvRows(Slot(site, site.envs[j]), o, frameworks);
      SiteSlotsPrefix(site, j);
      assert SlotOuts(slots[..j + 1], o, frameworks) == SlotOuts(slots[..j], o, frameworks) + [envOut];
      FlattenSnoc(SlotOuts(slots[..j], o, frameworks), envOut);
      out := Then(out, envOut);
      j := j + 1;
    }
    assert slots[..j] == slots;
  }

  /** The site loop (lines 99-157). */
  method CollectRows(sites: seq<Site>, o: Options, frameworks: seq<string>) returns (out: Out<string>)
    ensures out == Flatten(SlotOuts(Slots(sites), o, frameworks))
  {
    out := Out([], []);
    var i := 0;
    while i < |sites|
      invariant 0 <= i <= |sites|
      invariant out == Flatten(SlotOuts(Slots(sites[..i]), o, frameworks))
    {
      var siteOut := SiteRows(sites[i], o, frameworks);
      SlotsSnoc(sites[..i], sites[i]);
      assert sites[..i + 1] == sites[..i] + [sites[i]];
      SlotOutsAppend(Slots(sites[..i]), SiteSlots(sites[i]), o, frameworks);
      FlattenAppend(SlotOuts(Slots(sites[..i]), o, frameworks), SlotOuts(SiteSlots(sites[i]), o, frameworks));
      out := Then(out, siteOut);
      i := i + 1;
    }
    assert sites[..i] == sites;
  }

  /** getBackup() (lines 59-163). */
  method GetBackup(sites: seq<Site>, o: Options, user: string) returns (report: Report<string>)
    ensures report == Outcome(sites, o, user)
  {
    var trace: seq<Effect> := [];
    if o.owner.Some? {
      var owner := o.owner.value;
      if owner == "me" {
        owner := user;
      }
      trace := trace + [OwnerFilter(owner)];
    }
    assert trace == OwnerTrace(o.owner, user);
    var validated := ValidateFrameworks(o);
    if validated.Err? {
      return Report(Some(validated.failure), None, trace);
    }
    var frameworks := validated.value;
    if sites == [] {
      trace := trace + [Log(NoSites)];
    }
    var out := CollectRows(sites, o, frameworks);
    trace := trace + out.trace + [Log(Total(|out.rows|))];
    if out.rows != [] {
      report := Report(None, Some(out.rows), trace);
    } else {
      report := Report(None, None, trace);
    }
  }
}
