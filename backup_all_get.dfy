/** `backup-all:get` as src/Commands/BackupAllGetCommand.php implements it: for every
    initialized environment that the env option admits, query the finished backups of each
    element and report the newest one's URL, with the environment and the element (`db` for
    the database). An explicit element is queried wrapped in single quotes. */
module BackupAllGet {
  import opened Base
  import opened Catalog
  import opened Effects
  import opened Choices
  import ListCommand

  /** The options of getBackup(): --env (default `all`) and --element. */
  datatype Options = Options(env: string, element: Option<string>)

  const Defaults: Options := Options("all", None)

  /** A report row: the `site.env`, the element as shown, and the backup URL. */
  datatype Row = Row(env: string, element: string, url: string)

  /** The element values queried (lines 55-60): an explicit element, with `db` read as
      `database`, wrapped in single quotes when `quoted`; otherwise the three elements. */
  function QueryElements(o: Options, quoted: bool): (es: seq<string>)
    ensures o.element.None? ==> es == Canonical
    ensures o.element.Some? && quoted ==> es == ["'" + Normalize(o.element.value) + "'"]
    ensures o.element.Some? && !quoted ==> es == [Normalize(o.element.value)]
  {
    if o.element.Some? then
      var element := Normalize(o.element.value);
      [if quoted then "'" + element + "'" else element]
    else Canonical
  }

  /** How the element column shows an element. */
  function Display(element: string): string {
    if element == "database" then "db" else element
  }

  /** One (environment, element) query: a notice when nothing is finished, otherwise one row
      for the first (newest) backup. */
  function UnitOut(slot: Slot, element: string): Out<Row> {
    var name := slot.Name();
    var bs := FinishedBackups(slot.env, Some(element));
    if bs == [] then Out([], [Query(name, Some(element)), Log(NoBackups(name, element))])
    else Out([Row(name, Display(element), bs[0].url)], [Query(name, Some(element))])
  }

  function UnitOuts(slot: Slot, elements: seq<string>): seq<Out<Row>> {
    seq(|elements|, i requires 0 <= i < |elements| => UnitOut(slot, elements[i]))
  }

  function SlotOut(slot: Slot, o: Options, quoted: bool): Out<Row> {
    if ListCommand.Queried(slot, o.env) then Flatten(UnitOuts(slot, QueryElements(o, quoted))) else Out([], [])
  }

  function SlotOuts(slots: seq<Slot>, o: Options, quoted: bool): seq<Out<Row>> {
    seq(|slots|, k requires 0 <= k < |slots| => SlotOut(slots[k], o, quoted))
  }

  lemma SlotOutsAppend(a: seq<Slot>, b: seq<Slot>, o: Options, quoted: bool)
    ensures SlotOuts(a + b, o, quoted) == SlotOuts(a, o, quoted) + SlotOuts(b, o, quoted)
  {
  }

  /** The rows and queries of the site loop. */
  function Collected(sites: seq<Site>, o: Options, quoted: bool): Out<Row> {
    Flatten(SlotOuts(Slots(sites), o, quoted))
  }

  /** The command with the element quoted or not: the rows, the closing count, and the rows
      handed back only when there are some. */
  function ReportWith(sites: seq<Site>, o: Options, quoted: bool): Report<Row> {
    var out := Collected(sites, o, quoted);
    Report(None, if out.rows == [] then None else Some(out.rows), out.trace + [Log(Total(|out.rows|))])
  }

  /** The command as written: an explicit element is queried in quotes. */
  function Outcome(sites: seq<Site>, o: Options): Report<Row> {
    ReportWith(sites, o, true)
  }

  /** The command as evidently intended: the element is queried as given. */
  function IntendedOutcome(sites: seq<Site>, o: Options): Report<Row> {
    ReportWith(sites, o, false)
  }

  /** A row is reported exactly for a queried environment and element with a finished
      backup, and it names the environment, shows the element, and carries the URL of the
      newest such backup. */
  lemma RowsIff(sites: seq<Site>, o: Options, quoted: bool, r: Row)
    ensures r in Collected(sites, o, quoted).rows <==>
      (exists slot :: slot in Slots(sites) && ListCommand.Queried(slot, o.env) && ReportedBy(slot, QueryElements(o, quoted), r))
  {
    var slots := Slots(sites);
    FlattenMembership(SlotOuts(slots, o, quoted), r, Log(NoSites));
    forall k | 0 <= k < |slots|
      ensures r in SlotOut(slots[k], o, quoted).rows <==> ListCommand.Queried(slots[k], o.env) && ReportedBy(slots[k], QueryElements(o, quoted), r)
    {
      SlotRows(slots[k], QueryElements(o, quoted), r);
    }
    if slot :| slot in slots && ListCommand.Queried(slot, o.env) && ReportedBy(slot, QueryElements(o, quoted), r) {
      var k :| 0 <= k < |slots| && slots[k] == slot;
      assert r in SlotOuts(slots, o, quoted)[k].rows;
    }
  }

  /** Exactly the initialized environments that --env admits are queried, each for every
      element queried and nothing else; any other environment is never queried at all. */
  lemma QueriedIff(sites: seq<Site>, o: Options, quoted: bool, name: string, queried: Option<string>)
    ensures Query(name, queried) in Collected(sites, o, quoted).trace <==>
      queried.Some? && queried.value in QueryElements(o, quoted)
      && exists slot :: slot in Slots(sites) && ListCommand.Queried(slot, o.env) && slot.Name() == name
  {
    var slots := Slots(sites);
    var elements := QueryElements(o, quoted);
    var e := Query(name, queried);
    FlattenMembership(SlotOuts(slots, o, quoted), Row("", "", ""), e);
    forall k | 0 <= k < |slots|
      ensures e in SlotOut(slots[k], o, quoted).trace <==>
        ListCommand.Queried(slots[k], o.env) && slots[k].Name() == name && queried.Some? && queried.value in elements
    {
      SlotQueries(slots[k], elements, name, queried);
    }
    if queried.Some? && queried.value in elements
      && exists slot :: slot in slots && ListCommand.Queried(slot, o.env) && slot.Name() == name
    {
      var slot :| slot in slots && ListCommand.Queried(slot, o.env) && slot.Name() == name;
      var k :| 0 <= k < |slots| && slots[k] == slot;
      assert e in SlotOuts(slots, o, quoted)[k].trace;
    }
  }

  /** One environment queries exactly the elements asked for, under its own name. */
  lemma SlotQueries(slot: Slot, elements: seq<string>, name: string, queried: Option<string>)
    ensures Query(name, queried) in Flatten(UnitOuts(slot, elements)).trace <==>
      slot.Name() == name && queried.Some? && queried.value in elements
  {
    var units := UnitOuts(slot, elements);
    var e := Query(name, queried);
    FlattenMembership(units, Row("", "", ""), e);
    forall i | 0 <= i < |elements|
      ensures e in units[i].trace <==> slot.Name() == name && queried == Some(elements[i])
    {
    }
    if slot.Name() == name && queried.Some? && queried.value in elements {
      var i :| 0 <= i < |elements| && elements[i] == queried.value;
      assert e in units[i].trace;
    }
  }

  /** `r` reports, for one of `elements`, the newest backup of that element of the
      environment. */
  ghost predicate ReportedBy(slot: Slot, elements: seq<string>, r: Row) {
    exists element :: element in elements && Reports(slot, element, r)
  }

  ghost predicate Reports(slot: Slot, element: string, r: Row) {
    r.env == slot.Name() && r.element == Display(element)
      && exists m :: IsNewest(slot.env.backups, Some(element), m) && r.url == slot.env.backups[m].url
  }

  /** The rows of one queried environment are its newest backups of the elements queried. */
  lemma SlotRows(slot: Slot, elements: seq<string>, r: Row)
    ensures r in Flatten(UnitOuts(slot, elements)).rows <==> ReportedBy(slot, elements, r)
  {
    var units := UnitOuts(slot, elements);
    FlattenMembership(units, r, Log(NoSites));
    forall i | 0 <= i < |elements|
      ensures r in units[i].rows <==> Reports(slot, elements[i], r)
    {
      UnitNewest(slot, elements[i], r);
    }
    if element :| element in elements && Reports(slot, element, r) {
      var i :| 0 <= i < |elements| && elements[i] == element;
      assert r in units[i].rows;
    }
  }

  /** The closing notice counts the rows, rows are handed back only when there are some, and
      a query that finds nothing leaves its notice. */
  lemma CountIsRows(sites: seq<Site>, o: Options, quoted: bool)
    ensures var r := ReportWith(sites, o, quoted);
      && |r.trace| > 0 && r.trace[|r.trace| - 1] == Log(Total(if r.rows.Some? then |r.rows.value| else 0))
      && (r.rows.Some? ==> r.rows.value != [])
  {
  }

  /** A query that finds no finished backup leaves a notice and no row. */
  lemma EmptyQueryNotice(slot: Slot, element: string)
    requires FinishedBackups(slot.env, Some(element)) == []
    ensures UnitOut(slot, element).rows == []
    ensures Log(NoBackups(slot.Name(), element)) in UnitOut(slot, element).trace
  {
  }

  /** One query yields the newest matching backup's row, or nothing when none matches. */
  lemma UnitNewest(slot: Slot, element: string, r: Row)
    ensures r in UnitOut(slot, element).rows <==> Reports(slot, element, r)
    ensures |UnitOut(slot, element).rows| == if FinishedBackups(slot.env, Some(element)) == [] then 0 else 1
  {
    var backups := slot.env.backups;
    var bs := FinishedBackups(slot.env, Some(element));
    if bs != [] {
      FirstIsNewest(backups, Some(element));
      var k :| IsNewest(backups, Some(element), k) && backups[k] == bs[0];
      forall m | IsNewest(backups, Some(element), m) ensures m == k {
      }
    } else {
      forall m | 0 <= m < |backups| ensures !Matches(backups[m], Some(element)) {
        assert backups[m] in backups;
      }
    }
  }

  /** As written, an explicit element yields no row at all when every backup's element is
      one of the three element names: no such name begins with a quote. */
  lemma QuotedElementFindsNothing(sites: seq<Site>, o: Options)
    requires o.element.Some?
    requires forall slot, b :: slot in Slots(sites) && b in slot.env.backups ==> b.element in Canonical
    ensures Outcome(sites, o).rows.None?
  {
    var rows := Collected(sites, o, true).rows;
    assert rows == [] || rows[0] in rows;
    var quoted := QueryElements(o, true)[0];
    assert quoted[0] == '\'';
    forall slot, m | slot in Slots(sites) && 0 <= m < |slot.env.backups|
      ensures !Matches(slot.env.backups[m], Some(quoted))
    {
      assert slot.env.backups[m] in slot.env.backups;
    }
    forall r ensures r !in Collected(sites, o, true).rows {
      RowsIff(sites, o, true, r);
    }
  }

  /** As intended, an explicit element reports, for each initialized environment that
      --env admits, the newest backup of that element (`db` read as `database`), and
      nothing else. */
  lemma IntendedRows(sites: seq<Site>, o: Options, r: Row)
    requires o.element.Some?
    ensures r in IntendedOutcome(sites, o).rows.GetOr([]) <==>
      exists slot :: slot in Slots(sites) && ListCommand.Queried(slot, o.env) && Reports(slot, Normalize(o.element.value), r)
  {
    RowsIff(sites, o, false, r);
    var element := Normalize(o.element.value);
    forall slot ensures ReportedBy(slot, QueryElements(o, false), r) <==> Reports(slot, element, r) {
      assert element in QueryElements(o, false);
    }
  }

  /** A site with one initialized environment holding one finished code backup. */
  function OneBackupSite(): Site {
    Site("s", "drupal", [Env("dev", true, "git", false, [Backup("f", 1, "2020-01-01", "manual", "code", "u")])])
  }

  /** As written, asking for the code element reports nothing; as intended, it reports the
      environment's code backup. */
  lemma QuotedCodeMissed()
    ensures Outcome([OneBackupSite()], Options("all", Some("code"))).rows.None?
    ensures var rows := IntendedOutcome([OneBackupSite()], Options("all", Some("code"))).rows;
      rows.Some? && Row("s.dev", "code", "u") in rows.value
  {
    var site := OneBackupSite();
    var o := Options("all", Some("code"));
    var slot := Slot(site, site.envs[0]);
    assert [site][1..] == [];
    assert SiteSlots(site) == [slot];
    assert Slots([site]) == [slot] + Slots([]);
    QuotedElementFindsNothing([site], o);
    assert IsNewest(site.envs[0].backups, Some("code"), 0);
    assert QueryElements(o, false) == ["code"];
    RowsIff([site], o, false, Row("s.dev", "code", "u"));
  }

  /** One (environment, element) query (lines 61-76). */
  method QueryUnit(slot: Slot, element: string) returns (unit: Out<Row>)
    ensures unit == UnitOut(slot, element)
  {
    var siteEnv := slot.site.name + "." + slot.env.id;
    var backups := FinishedBackups(slot.env, Some(element));
    if backups == [] {
      unit := Out([], [Query(siteEnv, Some(element)), Log(NoBackups(siteEnv, element))]);
    } else {
      var backup := backups[0];
      unit := Out([Row(siteEnv, if element == "database" then "db" else element, backup.url)], [Query(siteEnv, Some(element))]);
    }
  }

  /** The element loop of one environment (lines 49-77). */
  method EnvRows(slot: Slot, o: Options) returns (out: Out<Row>)
    ensures out == SlotOut(slot, o, true)
  {
    out := Out([], []);
    if slot.env.initialized {
      var show := if o.env == "all" then true else slot.env.id == o.env;
      if show {
        var elements;
        if o.element.Some? {
          var element := if o.element.value == "db" then "database" else o.element.value;
          elements := ["'" + element + "'"];
        } else {
          elements := ["code", "database", "files"];
        }
        var i := 0;
        while i < |elements|
          invariant 0 <= i <= |elements|
          invariant out == Flatten(UnitOuts(slot, elements[..i]))
        {
          var unit := QueryUnit(slot, elements[i]);
          assert UnitOuts(slot, elements[..i + 1]) == UnitOuts(slot, elements[..i]) + [unit];
          FlattenSnoc(UnitOuts(slot, elements[..i]), unit);
          out := Then(out, unit);
          i := i + 1;
        }
        assert elements[..i] == elements;
      }
    }
  }

  /** The env loop of one site (lines 47-80). */
  method SiteRows(site: Site, o: Options) returns (out: Out<Row>)
    ensures out == Flatten(SlotOuts(SiteSlots(site), o, true))
  {
    var slots := SiteSlots(site);
    out := Out([], []);
    var j := 0;
    while j < |site.envs|
      invariant 0 <= j <= |site.envs|
      invariant out == Flatten(SlotOuts(slots[..j], o, true))
    {
      var slot := Slot(site, site.envs[j]);
      var envOut := EnvRows(slot, o);
      SiteSlotsPrefix(site, j);
      assert SlotOuts(slots[..j + 1], o, true) == SlotOuts(slots[..j], o, true) + [envOut];
      FlattenSnoc(SlotOuts(slots[..j], o, true), envOut);
      out := Then(out, envOut);
      j := j + 1;
    }
    assert slots[..j] == slots;
  }

  /** getBackup() (lines 42-87). */
  method GetBackup(sites: seq<Site>, o: Options) returns (report: Report<Row>)
    ensures report == Outcome(sites, o)
  {
    var out := Out([], []);
    var i := 0;
    while i < |sites|
      invariant 0 <= i <= |sites|
      invariant out == Collected(sites[..i], o, true)
    {
      var siteOut := SiteRows(sites[i], o);
      SlotsSnoc(sites[..i], sites[i]);
      assert sites[..i + 1] == sites[..i] + [sites[i]];
      SlotOutsAppend(Slots(sites[..i]), SiteSlots(sites[i]), o, true);
      FlattenAppend(SlotOuts(Slots(sites[..i]), o, true), SlotOuts(SiteSlots(sites[i]), o, true));
      out := Then(out, siteOut);
      i := i + 1;
    }
    assert sites[..i] == sites;
    if out.rows != [] {
      report := Report(None, Some(out.rows), out.trace + [Log(Total(|out.rows|))]);
    } else {
      report := Report(None, None, out.trace + [Log(Total(|out.rows|))]);
    }
  }
}
