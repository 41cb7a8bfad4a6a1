/** `backup-all:create` as src/Commands/BackupAllCreateCommand.php implements it: one awaited
    backup of every environment of every site, initialized or not, with the element option
    (`db` read as `database`) and the keep-for option passed on to each. */
module BackupAllCreate {
  import opened Base
  import opened Catalog
  import opened Effects

  /** The option bag of create(): --element and --keep-for. */
  datatype Options = Options(element: Option<string>, keepFor: int)

  const Defaults: Options := Options(None, 365)

  /** The element option once `db` has been rewritten to `database`. */
  function Normalized(element: Option<string>): (e: Option<string>)
    ensures e.None? <==> element.None?
    ensures element == Some("db") ==> e == Some("database")
    ensures element != Some("db") ==> e == element
  {
    if element.Some? && element.value == "db" then Some("database") else element
  }

  /** What one environment does: the awaited create, then the notice naming the element when
      one was given. */
  function UnitTrace(slot: Slot, element: Option<string>, keepFor: int): seq<Effect> {
    [Create(slot.Name(), element, Some(keepFor), true), Log(Created(slot.Name(), element))]
  }

  function UnitTraces(slots: seq<Slot>, element: Option<string>, keepFor: int): seq<seq<Effect>> {
    seq(|slots|, k requires 0 <= k < |slots| => UnitTrace(slots[k], element, keepFor))
  }

  lemma UnitTracesAppend(a: seq<Slot>, b: seq<Slot>, element: Option<string>, keepFor: int)
    ensures UnitTraces(a + b, element, keepFor) == UnitTraces(a, element, keepFor) + UnitTraces(b, element, keepFor)
  {
  }

  /** The whole command. */
  function Outcome(sites: seq<Site>, o: Options): seq<Effect> {
    Concat(UnitTraces(Slots(sites), Normalized(o.element), o.keepFor))
  }

  /** Environment `k` of the catalog makes the create at position 2k and the notice right
      after it, and nothing else happens: one awaited create per environment, in catalog
      order, whether or not the environment is initialized. */
  lemma {:induction false} CreatesInOrder(slots: seq<Slot>, element: Option<string>, keepFor: int)
    ensures var t := Concat(UnitTraces(slots, element, keepFor));
      && |t| == 2 * |slots|
      && forall k :: 0 <= k < |slots| ==>
           t[2 * k] == Create(slots[k].Name(), element, Some(keepFor), true)
           && t[2 * k + 1] == Log(Created(slots[k].Name(), element))
    decreases |slots|
  {
    if slots != [] {
      var n := |slots| - 1;
      var unit := UnitTrace(slots[n], element, keepFor);
      CreatesInOrder(slots[..n], element, keepFor);
      assert UnitTraces(slots, element, keepFor) == UnitTraces(slots[..n], element, keepFor) + [unit];
      ConcatSnoc(UnitTraces(slots[..n], element, keepFor), unit);
      var p := Concat(UnitTraces(slots[..n], element, keepFor));
      var t := p + unit;
      forall k | 0 <= k < |slots|
        ensures t[2 * k] == Create(slots[k].Name(), element, Some(keepFor), true)
        ensures t[2 * k + 1] == Log(Created(slots[k].Name(), element))
      {
        if k < n {
          assert slots[..n][k] == slots[k];
          assert t[2 * k] == p[2 * k] && t[2 * k + 1] == p[2 * k + 1];
        } else {
          assert t[2 * k] == unit[0] && t[2 * k + 1] == unit[1];
        }
      }
    }
  }

  /** The number of create calls is the number of environments. */
  lemma {:induction false} CreateCount(slots: seq<Slot>, element: Option<string>, keepFor: int)
    ensures CountCreates(Concat(UnitTraces(slots, element, keepFor))) == |slots|
    decreases |slots|
  {
    if slots != [] {
      var n := |slots| - 1;
      var unit := UnitTrace(slots[n], element, keepFor);
      CreateCount(slots[..n], element, keepFor);
      assert UnitTraces(slots, element, keepFor) == UnitTraces(slots[..n], element, keepFor) + [unit];
      ConcatSnoc(UnitTraces(slots[..n], element, keepFor), unit);
      CountsAppend(Concat(UnitTraces(slots[..n], element, keepFor)), unit);
      assert unit[1..][1..] == [];
      assert CountCreates(unit[1..]) == 0;
    }
  }

  /** For the command: every environment of the catalog, and only those, gets one awaited
      create with the normalized element and the keep-for option. */
  lemma EveryEnvironment(sites: seq<Site>, o: Options)
    ensures CountCreates(Outcome(sites, o)) == |Slots(sites)| == EnvCount(sites)
    ensures forall e :: e in Outcome(sites, o) && e.Create? ==>
      e.awaited && e.element == Normalized(o.element) && e.keepFor == Some(o.keepFor)
      && exists slot :: slot in Slots(sites) && e.siteEnv == slot.Name()
  {
    var slots := Slots(sites);
    var t := Outcome(sites, o);
    SlotsCount(sites);
    CreateCount(slots, Normalized(o.element), o.keepFor);
    CreatesInOrder(slots, Normalized(o.element), o.keepFor);
    forall e | e in t && e.Create?
      ensures e.awaited && e.element == Normalized(o.element) && e.keepFor == Some(o.keepFor)
        && exists slot :: slot in slots && e.siteEnv == slot.Name()
    {
      var p :| 0 <= p < |t| && t[p] == e;
      var k := p / 2;
      assert p == 2 * k || p == 2 * k + 1;
      assert slots[k] in slots;
    }
  }

  /** The environment loop of one site (lines 41-59), with the element option as left by the
      sites before: it is rewritten in place on the first environment visited. */
  method SiteCreates(site: Site, element: Option<string>, keepFor: int) returns (trace: seq<Effect>, element': Option<string>)
    ensures trace == Concat(UnitTraces(SiteSlots(site), Normalized(element), keepFor))
    ensures element' == if site.envs == [] then element else Normalized(element)
  {
    var slots := SiteSlots(site);
    element' := element;
    trace := [];
    var j := 0;
    while j < |site.envs|
      invariant 0 <= j <= |site.envs|
      invariant element' == if j == 0 then element else Normalized(element)
      invariant trace == Concat(UnitTraces(slots[..j], Normalized(element), keepFor))
    {
      var environment := site.envs[j];
      var siteEnv := site.name + "." + environment.id;
      if element'.Some? && element'.value == "db" {
        element' := Some("database");
      }
      var unit := [Create(siteEnv, element', Some(keepFor), true), Log(Created(siteEnv, element'))];
      SiteSlotsPrefix(site, j);
      assert UnitTraces(slots[..j + 1], Normalized(element), keepFor) == UnitTraces(slots[..j], Normalized(element), keepFor) + [unit];
      ConcatSnoc(UnitTraces(slots[..j], Normalized(element), keepFor), unit);
      trace := trace + unit;
      j := j + 1;
    }
    assert slots[..j] == slots;
  }

  /** create() (lines 37-62). */
  method CreateAll(sites: seq<Site>, o: Options) returns (trace: seq<Effect>)
    ensures trace == Outcome(sites, o)
  {
    var element := o.element;
    trace := [];
    var i := 0;
    while i < |sites|
      invariant 0 <= i <= |sites|
      invariant Normalized(element) == Normalized(o.element)
      invariant trace == Concat(UnitTraces(Slots(sites[..i]), Normalized(o.element), o.keepFor))
    {
      var siteTrace;
      siteTrace, element := SiteCreates(sites[i], element, o.keepFor);
      SlotsSnoc(sites[..i], sites[i]);
      assert sites[..i + 1] == sites[..i] + [sites[i]];
      UnitTracesAppend(Slots(sites[..i]), SiteSlots(sites[i]), Normalized(o.element), o.keepFor);
      ConcatAppend(UnitTraces(Slots(sites[..i]), Normalized(o.element), o.keepFor), UnitTraces(SiteSlots(sites[i]), Normalized(o.element), o.keepFor));
      trace := trace + siteTrace;
      i := i + 1;
    }
    assert sites[..i] == sites;
  }
}
