# Terminus backup-all: a model of its commands

The Terminus backup-all plugin adds commands to the Pantheon command-line tool. They
create, list and fetch backups of every environment of every site a user can see. Each
command walks the site catalog once. For every environment it decides:

- whether to look at the environment at all;
- which backup elements apply (code, database, files);
- what to do about pending filesystem changes;
- which remote calls to make and which rows to report.

This project models that decision logic for the seven command files in Dafny and proves
what the commands promise.

The catalog is an immutable snapshot (`Catalog`):

- each site has a name, a framework and its environments in order;
- each environment has an id, an `initialized` flag, a connection mode, a flag saying
  whether its diffstat is non-empty, and its finished backups, newest first;
- each backup is a record with its day (`YYYY-MM-DD`), element and URL.

The remote calls a command makes beyond reading the catalog, and its log notices, are recorded as effects in a trace (`Effects`). The reads of the catalog itself (`sites->fetch`, `getSite`, `getEnvironments`) are not recorded. The trace holds:

- the owner filter;
- `diffstat` and `commitChanges`;
- the backup `create` (with its element, its keep-for value and whether it is awaited);
- the finished-backups query;
- the log notices.

Each command is an imperative method with the loops of the original. Each method is proved
equal to a specification function over the snapshot. The properties are lemmas about those
functions.

| module | file | command |
|---|---|---|
| `CreateCommand` | src/Commands/CreateCommand.php | `backup-all:create` with the skip list, the pending-change policy and the env filter |
| `LegacyBackupAll` | Commands/BackupAllCommand.php | the first-generation `site backup-all` |
| `GetCommand` | src/Commands/GetCommand.php | `backup-all:get` with framework and date filters |
| `ListCommand` | src/Commands/ListCommand.php | `backup-all:list` with env and date filters |
| `BackupAllGet` | src/Commands/BackupAllGetCommand.php | the simpler `backup-all:get` |
| `BackupAllCreate` | src/Commands/BackupAllCreateCommand.php | the simpler `backup-all:create` |
| `BackupAllList` | src/Commands/BackupAllListCommand.php | the simpler `backup-all:list` |

Shared modules:

- `Base`: options, results and failures.
- `Text`: splitting on a delimiter, and the byte-wise order PHP uses to compare date strings.
- `Choices`: the element names, the `db` alias, the pending-change policy and the owner option.
- `DateRange`: the `--date` option.

## Model

| member | source | states |
|---|---|---|
| Text.JoinSplit | src/Commands/CreateCommand.php:74 | splitting a string on a delimiter and joining the pieces again gives back the string |
| Text.SplitJoin | src/Commands/GetCommand.php:83 | splitting the join of delimiter-free pieces gives back the pieces |
| DateRange.ParseRange | src/Commands/GetCommand.php:126-137 | the lower bound is never after the upper one; with a colon the bounds are the first two pieces in some order, without one the single date is both bounds |
| DateRange.Bounds | src/Commands/ListCommand.php:119-130 | swapping the bounds through a temporary computes exactly ParseRange |
| DateRange.RangeOrderIndependent | src/Commands/GetCommand.php:128-134 | `A:B` and `B:A` give the same range |
| DateRange.SingleDate | src/Commands/GetCommand.php:135-137 | a single date D is the range D:D and admits exactly the day D |
| DateRange.WithinRange | src/Commands/ListCommand.php:131-138 | a record is kept exactly when its day is inside the inclusive range |
| DateRange.WithinRangeKeepsOrder | src/Commands/ListCommand.php:131-138 | the kept records are a subsequence of the input, in order |
| DateRange.WithinRangeCounts | src/Commands/ListCommand.php:131-138 | every copy of an in-range record is kept and no copy of any other record is |
| Catalog.Matching | src/Commands/ListCommand.php:106 | the finished-backups query returns exactly the records of the requested element (all of them for none) |
| Catalog.FirstIsNewest | src/Commands/GetCommand.php:146-151 | the first record the query returns is the newest matching record of the environment |
| Catalog.FindEnv | Commands/BackupAllCommand.php:200-202 | the environment lookup succeeds exactly when the site has an environment with that id, and returns it |
| Catalog.SlotsCover | src/Commands/CreateCommand.php:79-81 | the site and environment walk visits every environment of every site, and nothing else |
| Choices.ListElement | src/Commands/ListCommand.php:95-104 | `all` queries every element, `db` queries `database`, any other value is queried unchanged |
| Choices.ParsePolicy | src/Commands/CreateCommand.php:63-69 | `--changes` is accepted exactly when it is commit, ignore or skip, and each maps to its policy |
| Choices.OwnerTrace | src/Commands/ListCommand.php:71-76 | `--owner=me` filters by the session user, any other owner by itself, and no owner filters nothing |
| CreateCommand.MakePlan | src/Commands/CreateCommand.php:49-75 | an element outside code, database and files (after `db` becomes `database`) fails first; otherwise a changes value outside commit, ignore and skip fails; on success, the elements are canonical (code, database and files when `--element` is absent), the policy is the one parsed, and the skip tokens are the comma-split pieces of `--skip` (none when it is absent) |
| CreateCommand.Validate | src/Commands/CreateCommand.php:49-75 | the validation code computes MakePlan |
| CreateCommand.UnitPolicy | src/Commands/CreateCommand.php:101-136 | the diff is looked at exactly for an unskipped code unit outside test and live in sftp mode; with pending changes, commit commits once before the create, ignore creates without a commit, and skip makes no create |
| CreateCommand.UnitCreates | src/Commands/CreateCommand.php:137-145 | a unit makes exactly one create when it is not skipped and not aborted, otherwise none; the create is awaited and carries the unit's element and the keep-for value |
| CreateCommand.CreateIff | src/Commands/CreateCommand.php:79-151 | a run makes a create exactly for each dispatched unit of a processed environment |
| CreateCommand.FilterAfterPins | src/Commands/CreateCommand.php:82-85 | after the loop writes each processed id into the env option, the env filter is `--env` when given, and otherwise the id of the first initialized environment |
| CreateCommand.PinnedFilter | src/Commands/CreateCommand.php:82-85 | as written, an environment is processed exactly when it is initialized and its id equals `--env`, or, without `--env`, the id of the first initialized environment before it (if there is one) |
| CreateCommand.CreatesAreDispatched | src/Commands/CreateCommand.php:86-145 | every create is awaited, carries the keep-for value and a canonical element, and belongs to an initialized environment of the catalog whose unit the skip list does not name |
| CreateCommand.ClosingCount | src/Commands/CreateCommand.php:144-152 | the closing notice reports exactly the number of create calls, which is the number of dispatched units of the processed environments |
| CreateCommand.ElementsCount | src/Commands/CreateCommand.php:86-146 | one processed environment makes one create per dispatched element |
| CreateCommand.RunCount | src/Commands/CreateCommand.php:77-149 | the whole run makes exactly one create per dispatched unit of each processed environment, as written and as intended |
| CreateCommand.PinnedFilterMissesTest | src/Commands/CreateCommand.php:83-85 | with default options, a site with initialized dev and test gets no create for test as written, and gets one as intended |
| CreateCommand.IntendedCreates | src/Commands/CreateCommand.php:82-85 | as intended, exactly the dispatched units of every initialized environment admitted by `--env` get an awaited create |
| CreateCommand.BackUpUnit | src/Commands/CreateCommand.php:87-145 | one element pass produces the unit's effects and reports whether it backed up |
| CreateCommand.BackUpEnvironment | src/Commands/CreateCommand.php:86-146 | the element loop produces the effects of every element unit and counts their creates |
| CreateCommand.BackUpSlot | src/Commands/CreateCommand.php:82-147 | one environment pass: when it is processed, its id becomes the env filter and its element units are appended; otherwise nothing changes |
| CreateCommand.BackUpSite | src/Commands/CreateCommand.php:80-150 | the environment loop of one site continues the run: the env filter, the trace and the count after it are those of the whole run so far |
| CreateCommand.BackUpSites | src/Commands/CreateCommand.php:77-149 | the site loop produces the trace of the whole run in catalog order and counts its creates |
| CreateCommand.CreateBackups | src/Commands/CreateCommand.php:47-153 | the command computes Outcome; a failed validation does nothing; otherwise the last notice counts the creates |
| LegacyBackupAll.Validated | Commands/BackupAllCommand.php:75-95 | the element (default all, no `db` alias) must be all, code, database or files, checked first; then changes (default commit) must be commit, ignore or skip |
| LegacyBackupAll.Validate | Commands/BackupAllCommand.php:75-95 | the validation code computes Validated |
| LegacyBackupAll.CheckEnv | Commands/BackupAllCommand.php:127-152 | the search loop with its breaks accepts `--env` exactly when it is `all` or the id of some environment of some site |
| LegacyBackupAll.NoSitesRejectsEnv | Commands/BackupAllCommand.php:123-152 | without sites, any env other than `all` fails after the no-sites warning |
| LegacyBackupAll.AllCallsAreSlots | Commands/BackupAllCommand.php:155-168 | with env `all`, the backup calls are exactly the catalog's environments, one each, in order, initialized or not |
| LegacyBackupAll.OneCallPerSite | Commands/BackupAllCommand.php:169-177 | with any other env, each site gets exactly one call, for that env |
| LegacyBackupAll.EnvPolicy | Commands/BackupAllCommand.php:203-247 | the diff is looked at exactly in sftp mode for element all or code, test and live included; commit commits once then creates, ignore creates without a commit, skip creates nothing; the create carries the element as given and is not awaited |
| LegacyBackupAll.EnvCounts | Commands/BackupAllCommand.php:203-263 | each call makes exactly one create or one abort notice |
| LegacyBackupAll.DispatchStops | Commands/BackupAllCommand.php:197-202 | once a call fails on an unknown environment, no later call is made |
| LegacyBackupAll.DispatchSucceeds | Commands/BackupAllCommand.php:197-202 | calls for environments the site has never fail |
| LegacyBackupAll.AllEnvironmentsBackedUp | Commands/BackupAllCommand.php:155-178 | with env `all` no call fails, and creates plus aborts equal the number of environments, summed site by site |
| LegacyBackupAll.BackUpCall | Commands/BackupAllCommand.php:188-264 | the private backup method computes BackupCall |
| LegacyBackupAll.BackUpSite | Commands/BackupAllCommand.php:155-178 | the calls of one site continue the dispatch so far |
| LegacyBackupAll.BackupAll | Commands/BackupAllCommand.php:74-179 | the command computes Outcome |
| GetCommand.FrameworkList | src/Commands/GetCommand.php:79-90 | the option fails exactly when some comma-split token is not backdrop, drupal, drupal8 or wordpress; otherwise the tokens are the option split on commas |
| GetCommand.ValidateFrameworks | src/Commands/GetCommand.php:80-90 | the check loop computes FrameworkList |
| GetCommand.Elements | src/Commands/GetCommand.php:112-117 | without `--element`, code, database and files in that order; with it, the element with `db` read as `database` |
| GetCommand.UnitRows | src/Commands/GetCommand.php:118-151 | no finished backup gives a notice and no row; without `--date`, exactly one row, the URL of the newest backup; with it, the URLs of the backups inside the range, in list order |
| GetCommand.QueriedIff | src/Commands/GetCommand.php:99-119 | a query is made exactly for the initialized environments admitted by `--env` and `--framework`, each for exactly the elements asked for; no other environment is queried with any argument |
| GetCommand.RowsIff | src/Commands/GetCommand.php:99-157 | a row is reported exactly when some query of an admitted environment yields it |
| GetCommand.DateOrderIndependent | src/Commands/GetCommand.php:125-137 | `--date=A:B` and `--date=B:A` give the same report |
| GetCommand.CountIsRows | src/Commands/GetCommand.php:159-162 | the closing notice counts the rows, rows come back only when non-empty, and the command fails exactly on a bad framework |
| GetCommand.RowsInRange | src/Commands/GetCommand.php:138-145 | the date loop yields the URLs of the records inside the range, in order |
| GetCommand.QueryElement | src/Commands/GetCommand.php:118-151 | one element query computes its rows and notices |
| GetCommand.EnvRows | src/Commands/GetCommand.php:103-154 | one environment yields its queries and rows exactly when it is initialized and admitted by `--env` and `--framework`, and nothing otherwise |
| GetCommand.ElementRows | src/Commands/GetCommand.php:118-152 | the element loop of a shown environment yields the queries and rows of each element in order |
| GetCommand.SiteRows | src/Commands/GetCommand.php:101-156 | the environment loop of one site computes its rows and queries |
| GetCommand.CollectRows | src/Commands/GetCommand.php:98-157 | the site loop computes the rows and queries of every environment |
| GetCommand.GetBackup | src/Commands/GetCommand.php:59-163 | the command computes Outcome |
| ListCommand.CollectedIff | src/Commands/ListCommand.php:84-115 | before date filtering, a record is collected exactly when it is a matching finished backup of an initialized environment admitted by `--env` |
| ListCommand.QueriedIff | src/Commands/ListCommand.php:86-106 | exactly the initialized environments admitted by `--env` are queried, and only for the element asked for; no other environment is queried with any argument |
| ListCommand.FilteredRows | src/Commands/ListCommand.php:117-140 | the final rows are a subsequence of the collected ones; without `--date` they are all of them, with it exactly WithinRange of them, every copy of an in-range record kept and no copy of any other |
| ListCommand.DateOrderIndependent | src/Commands/ListCommand.php:117-130 | `--date=A:B` and `--date=B:A` give the same report |
| ListCommand.CountIsRows | src/Commands/ListCommand.php:141-144 | the closing notice counts the final rows, and rows come back only when non-empty |
| ListCommand.CopyRows | src/Commands/ListCommand.php:108-110 | the copy loop appends every record of the query, in order |
| ListCommand.SiteRows | src/Commands/ListCommand.php:87-114 | the environment loop of one site computes its rows and queries |
| ListCommand.CollectRows | src/Commands/ListCommand.php:84-115 | the site loop computes the collected rows and queries |
| ListCommand.KeepInRange | src/Commands/ListCommand.php:131-138 | the post-pass keeps exactly WithinRange of the rows |
| ListCommand.ListBackups | src/Commands/ListCommand.php:58-145 | the command computes Outcome |
| BackupAllGet.QueryElements | src/Commands/BackupAllGetCommand.php:55-60 | without `--element`, code, database and files; with it, the element (`db` read as `database`) wrapped in single quotes as written |
| BackupAllGet.UnitNewest | src/Commands/BackupAllGetCommand.php:61-75 | one query reports at most one row: exactly one, `site.env` with the element shown (`db` for database) and the URL of the newest matching backup, or none when nothing matches |
| BackupAllGet.EmptyQueryNotice | src/Commands/BackupAllGetCommand.php:63-67 | an empty query leaves its notice and no row |
| BackupAllGet.SlotRows | src/Commands/BackupAllGetCommand.php:61-76 | the rows of one environment are its newest backups of the queried elements |
| BackupAllGet.QueriedIff | src/Commands/BackupAllGetCommand.php:46-62 | a query is made for an environment exactly when it is initialized and admitted by `--env`, and its argument is exactly one of the queried elements; no other environment is queried with any argument |
| BackupAllGet.RowsIff | src/Commands/BackupAllGetCommand.php:46-81 | a row is reported exactly for an initialized environment admitted by `--env`, a queried element and its newest backup |
| BackupAllGet.CountIsRows | src/Commands/BackupAllGetCommand.php:83-86 | the closing notice counts the rows, and rows come back only when non-empty |
| BackupAllGet.QuotedElementFindsNothing | src/Commands/BackupAllGetCommand.php:55-57 | as written, an explicit `--element` reports no row at all when every backup's element is code, database or files |
| BackupAllGet.QuotedCodeMissed | src/Commands/BackupAllGetCommand.php:55-57 | a site with one code backup reports nothing for `--element=code` as written, and reports that backup as intended |
| BackupAllGet.IntendedRows | src/Commands/BackupAllGetCommand.php:55-57 | as intended, an explicit element reports exactly the newest backup of that element of each admitted initialized environment |
| BackupAllGet.QueryUnit | src/Commands/BackupAllGetCommand.php:61-76 | one element query computes its row or notice |
| BackupAllGet.EnvRows | src/Commands/BackupAllGetCommand.php:49-77 | the element loop of one environment computes its rows and queries |
| BackupAllGet.SiteRows | src/Commands/BackupAllGetCommand.php:45-80 | the environment loop of one site computes its rows and queries |
| BackupAllGet.GetBackup | src/Commands/BackupAllGetCommand.php:42-87 | the command computes Outcome |
| BackupAllCreate.Normalized | src/Commands/BackupAllCreateCommand.php:45-47 | `db` becomes `database`; any other element, or none, is unchanged |
| BackupAllCreate.CreatesInOrder | src/Commands/BackupAllCreateCommand.php:39-58 | environment k of the catalog makes the create at position 2k and its notice right after, and nothing else happens |
| BackupAllCreate.CreateCount | src/Commands/BackupAllCreateCommand.php:39-48 | the number of creates is the number of environments |
| BackupAllCreate.EveryEnvironment | src/Commands/BackupAllCreateCommand.php:39-48 | every environment gets one create, initialized or not, so the creates number the environments summed site by site; every create is awaited and carries the normalized element and the keep-for value |
| BackupAllCreate.SiteCreates | src/Commands/BackupAllCreateCommand.php:41-59 | the environment loop of one site, with the in-place `db` rewrite, makes the creates of the normalized element |
| BackupAllCreate.CreateAll | src/Commands/BackupAllCreateCommand.php:37-62 | the command computes Outcome |
| BackupAllList.QueriedIff | src/Commands/BackupAllListCommand.php:44-62 | exactly the initialized environments are queried, whatever their id, and only for the element asked for; an uninitialized environment is never queried |
| BackupAllList.RowsIff | src/Commands/BackupAllListCommand.php:62-75 | a record is listed exactly when it is a matching finished backup of an initialized environment, and the count is the number of rows |
| BackupAllList.SameAsListAll | src/Commands/BackupAllListCommand.php:40-76 | the rows equal those of the newer list command with env all and no date |
| BackupAllList.SiteRows | src/Commands/BackupAllListCommand.php:45-69 | the environment loop of one site computes its rows and queries |
| BackupAllList.ListBackups | src/Commands/BackupAllListCommand.php:40-76 | the command computes Outcome |

## Left out

- The remote API is not modelled, and neither are the Terminus library objects. The catalog is an input snapshot, and each remote call is an effect in the trace. This covers:
  - `sites->fetch`, `serialize`, `getSite`, `getSiteEnv` and `getEnvironments`;
  - `diffstat`, `commitChanges`, `getBackups()->create`, `wait` and `getFinishedBackups`.
- The finished-backups query is taken to return the environment's records of exactly the requested element, newest first. Its implementation is not part of this model.
- `getArchiveURL`, `getUrl` and `getDate` read the record's `url` and `day` fields.
- The list commands return whole records, standing in for `backup->serialize()`.
- Name, organisation and team filtering happen inside the site collection and are not modelled. The site list is taken as already filtered. Only the `me` to session-user rule of the owner option is modelled; the session user is a parameter.
- Timestamps are not converted to days (`date('Y-m-d', …)`, `strtotime`), because that depends on the clock and the time zone. Each record's day string is given.
- Log wording, output rendering, option parsing, help text and authentication are not modelled. Notices are recorded by kind, with the site.env, element or count they carry; only their wording is dropped.
- PHP loose comparison is not modelled:
  - `initialized` is a boolean. GetCommand tests it by truthiness (src/Commands/GetCommand.php:103) while the other commands compare it with `'true'`; the model treats both tests alike;
  - dates compare byte-wise, as PHP compares non-numeric strings.
- Whether an asynchronous workflow completes is not modelled; only whether the command waited for it is recorded.
- CreateCommand.CreateBackups: the create records the element and the keep-for value of the option bag. It does not record the `env`, `skip` and `changes` entries that also travel with it.
- CreateCommand.UnitTrace: the start and end notices around the automatic commit (src/Commands/CreateCommand.php:111-116) are not modelled; only the commit call is recorded, because these carry nothing the trace does not already show.
- LegacyBackupAll.BackupAll: the start notices, and the start and end notices around a commit, are not modelled; the end notice after a create is recorded as `Created`. `failure()` ends the command, and that end is modelled as a failure value carrying the trace so far.
- LegacyBackupAll.BackupCall: the environment lookup through the site's environment collection is modelled as a search by id. A missing environment is the not-found failure.

## Findings

| source | as written | input that shows it | evidently intended | confidence | as-written member | corrected member |
|---|---|---|---|---|---|---|
| src/Commands/CreateCommand.php:85 | each processed environment writes its id into `$options['env']`, so without `--env` only environments whose id equals the first initialized one are processed | defaults, one site with initialized `dev` then `test`: `test` is never backed up | without `--env`, every initialized environment is processed | high, not executed | CreateCommand.PinnedFilterMissesTest | CreateCommand.IntendedCreates |
| src/Commands/BackupAllGetCommand.php:57 | an explicit element is queried as `'code'`, with the quotes | `--element=code` on an environment whose newest code backup exists: no row, only a notice | the element is queried as given, and the newest backup is reported | medium (depends on the finished-backups query matching exactly), not executed | BackupAllGet.QuotedCodeMissed | BackupAllGet.IntendedRows |
