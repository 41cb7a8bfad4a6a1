/** The snapshot of sites, environments and finished backups that every command walks.
    The remote catalog is read once; the commands never change it. */
module Catalog {
  import opened Base

  /** A finished backup as the remote side reports it. `day` is its creation date,
      already formatted as Y-m-d; `element` is code, database or files. */
  datatype Backup = Backup(file: string, size: nat, day: string, initiator: string, element: string, url: string)

  /** An environment of a site: its id (dev, test, live or a multidev name), whether it is
      initialized, its connection mode (sftp or git), whether its diffstat reports pending
      filesystem changes, and its finished backups, newest first. */
  datatype Env = Env(id: string, initialized: bool, mode: string, hasDiff: bool, backups: seq<Backup>)

  datatype Site = Site(name: string, framework: string, envs: seq<Env>)

  /** The `site.env` name used in messages, skip lists and lookups. */
  function SiteEnv(name: string, id: string): string {
    name + "." + id
  }

  /** One (site, environment) pair, in the order the commands visit them. */
  datatype Slot = Slot(site: Site, env: Env) {
    function Name(): string {
      SiteEnv(site.name, env.id)
    }
  }

  function SiteSlots(site: Site): seq<Slot> {
    seq(|site.envs|, k requires 0 <= k < |site.envs| => Slot(site, site.envs[k]))
  }

  lemma SiteSlotsPrefix(site: Site, j: nat)
    requires j < |site.envs|
    ensures SiteSlots(site)[..j + 1] == SiteSlots(site)[..j] + [Slot(site, site.envs[j])]
  {
    var ss := SiteSlots(site);
    assert ss[j] == Slot(site, site.envs[j]);
    assert ss[..j + 1] == ss[..j] + [ss[j]];
  }

  /** Every environment of every site, sites in catalog order and environments in site order. */
  function Slots(sites: seq<Site>): seq<Slot>
    decreases |sites|
  {
    if sites == [] then [] else SiteSlots(sites[0]) + Slots(sites[1..])
  }

  lemma {:induction false} SlotsSnoc(sites: seq<Site>, site: Site)
    ensures Slots(sites + [site]) == Slots(sites) + SiteSlots(site)
    decreases |sites|
  {
    if sites == [] {
      assert Slots([site]) == SiteSlots(site) + Slots([]);
    } else {
      assert (sites + [site])[1..] == sites[1..] + [site];
      SlotsSnoc(sites[1..], site);
    }
  }

  /** One more site of a catalog read in order adds its environments at the end. */
  lemma SlotsPrefix(sites: seq<Site>, i: nat)
    requires i < |sites|
    ensures Slots(sites[..i + 1]) == Slots(sites[..i]) + SiteSlots(sites[i])
  {
    SlotsSnoc(sites[..i], sites[i]);
    assert sites[..i + 1] == sites[..i] + [sites[i]];
  }

  /** The slots are exactly the environments of the catalog's sites. */
  lemma {:induction false} SlotsCover(sites: seq<Site>)
    ensures forall i, j :: 0 <= i < |sites| && 0 <= j < |sites[i].envs| ==> Slot(sites[i], sites[i].envs[j]) in Slots(sites)
    ensures forall s :: s in Slots(sites) ==> s.site in sites && s.env in s.site.envs
    decreases |sites|
  {
    if sites != [] {
      SlotsCover(sites[1..]);
      forall i, j | 0 <= i < |sites| && 0 <= j < |sites[i].envs|
        ensures Slot(sites[i], sites[i].envs[j]) in Slots(sites)
      {
        if i == 0 {
          assert SiteSlots(sites[0])[j] == Slot(sites[i], sites[i].envs[j]);
        } else {
          assert sites[i] == sites[1..][i - 1];
        }
      }
      forall s | s in Slots(sites) ensures s.site in sites && s.env in s.site.envs {
        if s in SiteSlots(sites[0]) {
          var k :| 0 <= k < |sites[0].envs| && SiteSlots(sites[0])[k] == s;
        } else {
          assert s in Slots(sites[1..]);
        }
      }
    }
  }

  /** The number of slots is the number of environments in the catalog. */
  function EnvCount(sites: seq<Site>): nat
    decreases |sites|
  {
    if sites == [] then 0 else |sites[0].envs| + EnvCount(sites[1..])
  }

  lemma {:induction false} SlotsCount(sites: seq<Site>)
    ensures |Slots(sites)| == EnvCount(sites)
    decreases |sites|
  {
    if sites != [] {
      SlotsCount(sites[1..]);
    }
  }

  /** Whether a backup answers a finished-backups query for `element` (none: every element). */
  predicate Matches(b: Backup, element: Option<string>) {
    element.None? || b.element == element.value
  }

  /** The remote finished-backups query on a list of records: the matching records,
      in the list's order. */
  function Matching(bs: seq<Backup>, element: Option<string>): (r: seq<Backup>)
    ensures forall b :: b in r <==> b in bs && Matches(b, element)
    decreases |bs|
  {
    if bs == [] then []
    else (if Matches(bs[0], element) then [bs[0]] else []) + Matching(bs[1..], element)
  }

  /** getFinishedBackups(element) of an environment. */
  function FinishedBackups(env: Env, element: Option<string>): seq<Backup> {
    Matching(env.backups, element)
  }

  /** The archive URLs of the records, in order. */
  function Urls(bs: seq<Backup>): (urls: seq<string>)
    ensures |urls| == |bs| && forall k :: 0 <= k < |bs| ==> urls[k] == bs[k].url
  {
    seq(|bs|, k requires 0 <= k < |bs| => bs[k].url)
  }

  /** Position `k` holds the newest record of `element` in a newest-first list. */
  predicate IsNewest(bs: seq<Backup>, element: Option<string>, k: int) {
    0 <= k < |bs| && Matches(bs[k], element) && forall m :: 0 <= m < k ==> !Matches(bs[m], element)
  }

  /** The first record the query returns is the newest matching record. */
  lemma {:induction false} FirstIsNewest(bs: seq<Backup>, element: Option<string>)
    requires Matching(bs, element) != []
    ensures exists k :: IsNewest(bs, element, k) && bs[k] == Matching(bs, element)[0]
    decreases |bs|
  {
    if Matches(bs[0], element) {
      assert IsNewest(bs, element, 0);
    } else {
      assert Matching(bs, element) == Matching(bs[1..], element);
      FirstIsNewest(bs[1..], element);
      var k :| IsNewest(bs[1..], element, k) && bs[1..][k] == Matching(bs[1..], element)[0];
      assert IsNewest(bs, element, k + 1);
    }
  }

  /** The environment a site holds under `id` (the first one, as the site's environment
      collection is keyed by id). */
  function FindEnv(envs: seq<Env>, id: string): (r: Option<Env>)
    ensures r.Some? <==> exists k :: 0 <= k < |envs| && envs[k].id == id
    ensures r.Some? ==> r.value in envs && r.value.id == id
    decreases |envs|
  {
    if envs == [] then None
    else if envs[0].id == id then Some(envs[0])
    else
      var r := FindEnv(envs[1..], id);
      assert forall k :: 1 <= k < |envs| ==> envs[k] == envs[1..][k - 1];
      r
  }
}
