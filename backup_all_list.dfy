/** `backup-all:list` as src/Commands/BackupAllListCommand.php implements it: every finished
    backup of the element asked for, of every initialized environment, in catalog order. It
    is the newer list command without the env, date and owner options. */
module BackupAllList {
  import opened Base
  import opened Catalog
  import opened Effects
  import opened Choices
  import ListCommand

  /** listBackups($element): the queries of every initialized environment, the closing
      count; the rows come back only when there are some. */
  function Outcome(sites: seq<Site>, element: string): Report<Backup> {
    var collected := ListCommand.Collected(sites, "all", element);
    Report(None, if collected.rows == [] then None else Some(collected.rows), collected.trace + [Log(Total(|collected.rows|))])
  }

  /** Exactly the initialized environments are queried, whatever their id, and only for the
      element asked for; an uninitialized environment is never queried at all. */
  lemma QueriedIff(sites: seq<Site>, element: string, name: string, queried: Option<string>)
    ensures Query(name, queried) in Outcome(sites, element).trace <==>
      queried == ListElement(element) && exists slot :: slot in Slots(sites) && slot.env.initialized && slot.Name() == name
  {
    ListCommand.QueriedIff(sites, ListCommand.Options("all", element, None, None), name, queried);
  }

  /** A backup is listed exactly when it is a matching finished backup of an initialized
      environment; the count is the number of rows. */
  lemma RowsIff(sites: seq<Site>, element: string, b: Backup)
    ensures var r := Outcome(sites, element);
      && (b in (if r.rows.Some? then r.rows.value else []) <==>
            exists slot :: slot in Slots(sites) && slot.env.initialized && b in slot.env.backups && Matches(b, ListElement(element)))
      && r.trace[|r.trace| - 1] == Log(Total(if r.rows.Some? then |r.rows.value| else 0))
  {
    ListCommand.CollectedIff(sites, ListCommand.Options("all", element, None, None), b);
  }

  /** The same rows as the newer list command with --env=all and no --date. */
  lemma SameAsListAll(sites: seq<Site>, element: string, user: string)
    ensures Outcome(sites, element).rows == ListCommand.Outcome(sites, ListCommand.Options("all", element, None, None), user).rows
  {
  }

  /** The environment loop of one site (lines 45-69). */
  method SiteRows(site: Site, element: string) returns (out: Out<Backup>)
    ensures out == Flatten(ListCommand.SlotOuts(SiteSlots(site), "all", element))
  {
    var slots := SiteSlots(site);
    out := Out([], []);
    var j := 0;
    while j < |site.envs|
      invariant 0 <= j <= |site.envs|
      invariant out == Flatten(ListCommand.SlotOuts(slots[..j], "all", element))
    {
      var environment := site.envs[j];
      var envOut := Out([], []);
      if environment.initialized {
        var siteEnv := site.name + "." + environment.id;
        var backupElement: Option<string>;
        match element {
          case "all" => backupElement := None;
          case "db" => backupElement := Some("database");
          case _ => backupElement := Some(element);
        }
        var rows := ListCommand.CopyRows(FinishedBackups(environment, backupElement));
        envOut := Out(rows, [Query(siteEnv, backupElement)]);
      }
      assert envOut == ListCommand.SlotOut(Slot(site, environment), "all", element);
      SiteSlotsPrefix(site, j);
      assert ListCommand.SlotOuts(slots[..j + 1], "all", element) == ListCommand.SlotOuts(slots[..j], "all", element) + [envOut];
      FlattenSnoc(ListCommand.SlotOuts(slots[..j], "all", element), envOut);
      out := Then(out, envOut);
      j := j + 1;
    }
    assert slots[..j] == slots;
  }

  /** listBackups() (lines 40-76). */
  method ListBackups(sites: seq<Site>, element: string) returns (report: Report<Backup>)
    ensures report == Outcome(sites, element)
  {
    var out := Out([], []);
    var i := 0;
    while i < |sites|
      invariant 0 <= i <= |sites|
      invariant out == ListCommand.Collected(sites[..i], "all", element)
    {
      var siteOut := SiteRows(sites[i], element);
      SlotsSnoc(sites[..i], sites[i]);
      assert sites[..i + 1] == sites[..i] + [sites[i]];
      ListCommand.SlotOutsAppend(Slots(sites[..i]), SiteSlots(sites[i]), "all", element);
      FlattenAppend(ListCommand.SlotOuts(Slots(sites[..i]), "all", element), ListCommand.SlotOuts(SiteSlots(sites[i]), "all", element));
      out := Then(out, siteOut);
      i := i + 1;
    }
    assert sites[..i] == sites;
    if out.rows != [] {
      report := Report(None, Some(out.rows), out.trace + [Log(Total(|out.rows|))]);
    } else {
      report := Report(None, None, out.trace + [Log(Total(|out.rows|))]);
    }
  }
}
