/** `backup-all:list` as src/Commands/ListCommand.php implements it: collect every finished
    backup (of one element, or of all) of every initialized environment that the env option
    admits, in catalog order, then keep only those whose day lies in the --date range. */
module ListCommand {
  import opened Base
  import opened Text
  import opened Catalog
  import opened Effects
  import opened Choices
  import opened DateRange

  /** The options that shape the list: --env (default `all`), --element (default `all`),
      --date and --owner. */
  datatype Options = Options(env: string, element: string, date: Option<string>, owner: Option<string>)

  const Defaults: Options := Options("all", "all", None, None)

  /** An environment is queried when it is initialized and --env is `all` or names it. */
  predicate Queried(slot: Slot, env: string) {
    slot.env.initialized && (env == "all" || slot.env.id == env)
  }

  /** What one environment contributes: all its finished backups of the element asked for. */
  function SlotOut(slot: Slot, env: string, element: string): Out<Backup> {
    if Queried(slot, env) then Out(FinishedBackups(slot.env, ListElement(element)), [Query(slot.Name(), ListElement(element))])
    else Out([], [])
  }

  function SlotOuts(slots: seq<Slot>, env: string, element: string): seq<Out<Backup>> {
    seq(|slots|, k requires 0 <= k < |slots| => SlotOut(slots[k], env, element))
  }

  lemma SlotOutsAppend(a: seq<Slot>, b: seq<Slot>, env: string, element: string)
    ensures SlotOuts(a + b, env, element) == SlotOuts(a, env, element) + SlotOuts(b, env, element)
  {
  }

  /** The rows before date filtering (lines 84-115). */
  function Collected(sites: seq<Site>, env: string, element: string): Out<Backup> {
    Flatten(SlotOuts(Slots(sites), env, element))
  }

  /** The date filter of lines 117-140: applied once, to the collected rows, when there are
      some and --date is given. */
  function DateFiltered(rows: seq<Backup>, date: Option<string>): seq<Backup> {
    if rows != [] && date.Some? then WithinRange(rows, ParseRange(date.value)) else rows
  }

  /** listBackups(): owner filter, the notice for an empty site list, the queries, the
      closing count; the rows come back only when there are some. */
  function Outcome(sites: seq<Site>, o: Options, user: string): Report<Backup> {
    var collected := Collected(sites, o.env, o.element);
    var rows := DateFiltered(collected.rows, o.date);
    var trace := OwnerTrace(o.owner, user) + (if sites == [] then [Log(NoSites)] else []) + collected.trace + [Log(Total(|rows|))];
    Report(None, if rows == [] then None else Some(rows), trace)
  }

  /** A backup is collected exactly when it is a matching finished backup of a queried
      environment. */
  lemma CollectedIff(sites: seq<Site>, o: Options, b: Backup)
    ensures b in Collected(sites, o.env, o.element).rows <==>
      exists slot :: slot in Slots(sites) && Queried(slot, o.env) && b in slot.env.backups && Matches(b, ListElement(o.element))
  {
    var slots := Slots(sites);
    FlattenMembership(SlotOuts(slots, o.env, o.element), b, Log(NoSites));
    if slot :| slot in slots && Queried(slot, o.env) && b in slot.env.backups && Matches(b, ListElement(o.element)) {
      var k :| 0 <= k < |slots| && slots[k] == slot;
      assert b in SlotOuts(slots, o.env, o.element)[k].rows;
    }
  }

  /** An environment is queried exactly when it is initialized and admitted by --env, and
      then only for the element asked for. */
  lemma QueriedIff(sites: seq<Site>, o: Options, name: string, element: Option<string>)
    ensures Query(name, element) in Collected(sites, o.env, o.element).trace <==>
      element == ListElement(o.element) && exists slot :: slot in Slots(sites) && Queried(slot, o.env) && slot.Name() == name
  {
    var slots := Slots(sites);
    var e := Query(name, element);
    FlattenMembership(SlotOuts(slots, o.env, o.element), Backup("", 0, "", "", "", ""), e);
    if element == ListElement(o.element) && exists slot :: slot in slots && Queried(slot, o.env) && slot.Name() == name {
      var slot :| slot in slots && Queried(slot, o.env) && slot.Name() == name;
      var k :| 0 <= k < |slots| && slots[k] == slot;
      assert e in SlotOuts(slots, o.env, o.element)[k].trace;
    }
  }

  /** With --date, the rows are the collected rows whose day lies in the range, in their
      collected order; without it, all of them. */
  lemma FilteredRows(sites: seq<Site>, o: Options, user: string)
    ensures var collected := Collected(sites, o.env, o.element).rows;
      var r := Outcome(sites, o, user);
      var rows := if r.rows.Some? then r.rows.value else [];
      && SubseqOf(rows, collected)
      && (o.date.None? ==> rows == collected)
      && (o.date.Some? ==> forall b :: b in rows <==> b in collected && InRange(b.day, ParseRange(o.date.value)))
      && (o.date.Some? && collected != [] ==> rows == WithinRange(collected, ParseRange(o.date.value)))
      && (o.date.Some? ==> forall b :: multiset(rows)[b] == if InRange(b.day, ParseRange(o.date.value)) then multiset(collected)[b] else 0)
  {
    var collected := Collected(sites, o.env, o.element).rows;
    if collected != [] && o.date.Some? {
      WithinRangeKeepsOrder(collected, ParseRange(o.date.value));
      WithinRangeCounts(collected, ParseRange(o.date.value));
    } else {
      SubseqOfSelf(collected);
    }
  }

  lemma {:induction false} SubseqOfSelf<T>(xs: seq<T>)
    ensures SubseqOf(xs, xs)
    decreases |xs|
  {
    if xs != [] {
      SubseqOfSelf(xs[..|xs| - 1]);
    }
  }

  /** `--date=A:B` and `--date=B:A` list the same rows. */
  lemma DateOrderIndependent(sites: seq<Site>, o: Options, user: string, a: string, b: string)
    requires ':' !in a && ':' !in b
    ensures Outcome(sites, o.(date := Some(a + ":" + b)), user) == Outcome(sites, o.(date := Some(b + ":" + a)), user)
  {
    RangeOrderIndependent(a, b);
  }

  /** The closing notice counts the final rows, and rows come back only when there are some. */
  lemma CountIsRows(sites: seq<Site>, o: Options, user: string)
    ensures var r := Outcome(sites, o, user);
      && |r.trace| > 0 && r.trace[|r.trace| - 1] == Log(Total(if r.rows.Some? then |r.rows.value| else 0))
      && (r.rows.Some? ==> r.rows.value != [])
  {
  }

  /** The loop of lines 108-110: every finished backup becomes a row, in order. */
  method CopyRows(backups: seq<Backup>) returns (rows: seq<Backup>)
    ensures rows == backups
  {
    rows := [];
    var k := 0;
    while k < |backups|
      invariant 0 <= k <= |backups|
      invariant rows == backups[..k]
    {
      rows := rows + [backups[k]];
      k := k + 1;
    }
    assert backups[..k] == backups;
  }

  /** The environment loop of one site (lines 87-114). */
  method SiteRows(site: Site, o: Options) returns (out: Out<Backup>)
    ensures out == Flatten(SlotOuts(SiteSlots(site), o.env, o.element))
  {
    var slots := SiteSlots(site);
    out := Out([], []);
    var j := 0;
    while j < |site.envs|
      invariant 0 <= j <= |site.envs|
      invariant out == Flatten(SlotOuts(slots[..j], o.env, o.element))
    {
      var environment := site.envs[j];
      var envOut := Out([], []);
      if environment.initialized {
        var show := if o.env == "all" then true else environment.id == o.env;
        if show {
          var siteEnv := site.name + "." + environment.id;
          var element: Option<string>;
          match o.element {
            case "all" => element := None;
            case "db" => element := Some("database");
            case _ => element := Some(o.element);
          }
          var rows := CopyRows(FinishedBackups(environment, element));
          envOut := Out(rows, [Query(siteEnv, element)]);
        }
      }
      assert envOut == SlotOut(Slot(site, environment), o.env, o.element);
      SiteSlotsPrefix(site, j);
      assert SlotOuts(slots[..j + 1], o.env, o.element) == SlotOuts(slots[..j], o.env, o.element) + [envOut];
      FlattenSnoc(SlotOuts(slots[..j], o.env, o.element), envOut);
      out := Then(out, envOut);
      j := j + 1;
    }
    assert slots[..j] == slots;
  }

  /** The site loop (lines 86-115). */
  method CollectRows(sites: seq<Site>, o: Options) returns (out: Out<Backup>)
    ensures out == Collected(sites, o.env, o.element)
  {
    out := Out([], []);
    var i := 0;
    while i < |sites|
      invariant 0 <= i <= |sites|
      invariant out == Collected(sites[..i], o.env, o.element)
    {
      var siteOut := SiteRows(sites[i], o);
      SlotsSnoc(sites[..i], sites[i]);
      assert sites[..i + 1] == sites[..i] + [sites[i]];
      SlotOutsAppend(Slots(sites[..i]), SiteSlots(sites[i]), o.env, o.element);
      FlattenAppend(SlotOuts(Slots(sites[..i]), o.env, o.element), SlotOuts(SiteSlots(sites[i]), o.env, o.element));
      out := Then(out, siteOut);
      i := i + 1;
    }
    assert sites[..i] == sites;
  }

  /** The post-pass of lines 131-138: the rows whose day is inside the range, in order. */
  method KeepInRange(rows: seq<Backup>, range: Range) returns (newRows: seq<Backup>)
    ensures newRows == WithinRange(rows, range)
  {
    newRows := [];
    var k := 0;
    while k < |rows|
      invariant 0 <= k <= |rows|
      invariant newRows == WithinRange(rows[..k], range)
    {
      var row := rows[k];
      assert rows[..k + 1][..k] == rows[..k];
      if AtMost(range.lower, row.day) && AtMost(row.day, range.upper) {
        newRows := newRows + [row];
      }
      k := k + 1;
    }
    assert rows[..k] == rows;
  }

  /** listBackups() (lines 58-145). */
  method ListBackups(sites: seq<Site>, o: Options, user: string) returns (report: Report<Backup>)
    ensures report == Outcome(sites, o, user)
  {
    var trace: seq<Effect> := [];
    if o.owner.Some? {
      var owner := o.owner.value;
      if owner == "me" {
        owner := user;
      }
      trace := trace + [OwnerFilter(owner)];
    }
    if sites == [] {
      trace := trace + [Log(NoSites)];
    }
    var collected := CollectRows(sites, o);
    var rows := collected.rows;
    if rows != [] {
      if o.date.Some? {
        var range := Bounds(o.date.value);
        rows := KeepInRange(rows, range);
      }
    }
    trace := trace + collected.trace + [Log(Total(|rows|))];
    if rows != [] {
      report := Report(None, Some(rows), trace);
    } else {
      report := Report(None, None, trace);
    }
  }
}
