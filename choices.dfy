/** Option values shared by several commands: the backup elements and their alias, the
    pending-change policy, and the owner filter. */
module Choices {
  import opened Base
  import opened Effects

  /** The three elements of a backup, in the order the commands visit them. */
  const Canonical: seq<string> := ["code", "database", "files"]

  /** `db` is another name for the database element. */
  function Normalize(element: string): string {
    if element == "db" then "database" else element
  }

  /** The finished-backups query a list command makes for its element option: `all` asks
      for every element, `db` for the database, and any other value is passed on unchecked. */
  function ListElement(element: string): (q: Option<string>)
    ensures q.None? <==> element == "all"
    ensures q.Some? ==> q.value == Normalize(element)
  {
    match element
    case "all" => None
    case "db" => Some("database")
    case _ => Some(element)
  }

  /** What to do with pending filesystem changes before a code backup in sftp mode. */
  datatype Policy = CommitPending | IgnorePending | SkipPending

  /** The --changes option; nothing outside commit, ignore and skip is accepted. */
  function ParsePolicy(changes: string): (p: Option<Policy>)
    ensures p.Some? <==> changes in {"commit", "ignore", "skip"}
    ensures p == Some(CommitPending) <==> changes == "commit"
    ensures p == Some(SkipPending) <==> changes == "skip"
  {
    match changes
    case "commit" => Some(CommitPending)
    case "ignore" => Some(IgnorePending)
    case "skip" => Some(SkipPending)
    case _ => None
  }

  /** The --owner option: `me` stands for the user of the current session. */
  function ResolveOwner(owner: string, user: string): string {
    if owner == "me" then user else owner
  }

  /** The owner filter applied to the fetched sites, if --owner was given. */
  function OwnerTrace(owner: Option<string>, user: string): (t: seq<Effect>)
    ensures owner.None? ==> t == []
    ensures owner == Some("me") ==> t == [OwnerFilter(user)]
    ensures owner.Some? && owner.value != "me" ==> t == [OwnerFilter(owner.value)]
  {
    if owner.Some? then [OwnerFilter(ResolveOwner(owner.value, user))] else []
  }
}
