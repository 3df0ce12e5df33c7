# watchpkg: a verified model of the pkg(8) change-watching plugin

`watchpkg` is a pkg(8) plugin. During a package operation it records which
packages were installed, removed or upgraded; after the operation it runs
every configured script once per recorded change, as
`script <name> <origin>`. This project models the plugin's core in Dafny:

- `StringList` — `list_t`, the linked list of configuration strings (script
  paths, the package watch-list): in-place tail append, the linear membership
  scan with its NULL rules, and the dedup loop of `read_list_from_config`.
  The list is a chain of heap nodes; the ghost `nodes`/`Contents` view ties
  it to a sequence.
- `Notifications` — `notification_t`, the store of (name, origin) pairs that
  grows at the head; nodes are never written after creation.
- `PkgHost` — the host types the core consumes: package handles, events,
  the identity `pkg_get` yields, return codes, one script run.
- `Dispatch` — the order and the aggregate result of a dispatch, as
  functions over sequences, with the lemmas about them.
- `WatchPkg` — the globals `cfg_scripts`, `cfg_pkgs` and `pkg_notifications`
  as a `Session` object, with the two callbacks `Collect`
  (`collect_package_changes`) and `Notify` (`notify_package_changes`), and a
  client `Batch` that runs one collect/dispatch cycle end to end.

External collaborators are parameters: `call_script` is an oracle
`run: Call -> bool` handed to `Notify`, which also returns the sequence of
runs it made; `pkg_get` is an oracle `Pkg -> Option<PkgId>` handed to
`Collect`; the host's configuration arrays are sequences of
`Option<string>`, where `None` is what UCL yields for `""`.

## Behaviour worth noting

- An upgrade records the OLD package: `collect_package_changes` reads
  `e_upgrade_finished.o` (watchpkg.c:243), as its comment says
  (watchpkg.c:221-222).
- `list_append` does not deduplicate (watchpkg.c:365-382); duplicates are
  skipped by the loop in `read_list_from_config` (watchpkg.c:328-330).
- `notify_package_changes` does not empty the store (watchpkg.c:199-214);
  it is freed only at shutdown (watchpkg.c:180). `Batch` shows the store
  still holding both notifications after a dispatch.
- `notifications_insert` prepends (watchpkg.c:419-427), so in the
  two-package batch of `Batch` the script runs for wget (collected second)
  before curl.

## Model

| member | source | states |
|---|---|---|
| `StringList.StrList.Append` | watchpkg.c:365-382 | contents become old contents + [value]; on the NULL list the new node is the head and has no successor, otherwise the head is unchanged; only fresh nodes join the footprint |
| `StringList.StrList.Contains` | watchpkg.c:400-411 | true iff the query equals some element, a NULL element matching only a NULL query; a NULL query requires that no non-NULL element precedes the first NULL one (the `strcmp` on NULL is undefined); the list is not modified |
| `StringList.ReadListFromConfig` | watchpkg.c:314-335 | builds a fresh valid list whose contents are `ConfigList(items)`: the non-NULL items, each kept at its first occurrence |
| `StringList.ConfigListMembers` | watchpkg.c:322-332 | a value is in the list read from the configuration iff it is a non-NULL configuration item |
| `StringList.ConfigListNoDuplicates` | watchpkg.c:328-330 | the list read from the configuration holds no value twice |
| `StringList.ConfigListFirstOccurrenceOrder` | watchpkg.c:308-335 | kept values are in the order of their first occurrences in the configuration |
| `StringList.ConfigListSize` | watchpkg.c:322-332 | the list has as many entries as there are distinct non-NULL configuration items |
| `Notifications.Notification.constructor` | watchpkg.c:419-427 | the new head holds (name, origin) and is followed by the previous list unchanged; no deduplication |
| `WatchPkg.Session.constructor` | watchpkg.c:145-148 | the script and watch lists are the deduplicated SCRIPTS and PKGS arrays; the store starts empty |
| `WatchPkg.Session.Watches` | watchpkg.c:255-257 | true iff the watch-list is empty or lists the package's name or its origin |
| `WatchPkg.Session.Collect` | watchpkg.c:226-266 | prepends exactly one (name, origin) iff the event is present, is an install, deinstall or upgrade finish with a package, `pkg_get` succeeds and the watch-list admits it; otherwise the store is unchanged; always returns OK; keeps "every stored notification passes the watch-list" |
| `WatchPkg.UpgradeRecordsOldPackage` | watchpkg.c:242-244 | for an upgrade, the recorded identity is `pkg_get` of the old package and does not depend on the new one |
| `WatchPkg.Session.Notify` | watchpkg.c:199-214 | the runs are exactly `Trace(scripts, store)`, whatever the outcomes; the result is fatal iff some run failed; scripts and store are left unmodified |
| `Dispatch.TraceLength` | watchpkg.c:204-205 | a dispatch makes (number of scripts) times (number of notifications) runs |
| `Dispatch.TraceAt` | watchpkg.c:204-206 | with n notifications, run number i * n + j is script i on notification j: script-major order, every pair once |
| `Dispatch.TraceMembers` | watchpkg.c:204-206 | a run occurs in a dispatch iff it is some configured script on some stored notification |
| `Dispatch.DispatchFatalIff` | watchpkg.c:196-213 | the dispatch result is fatal iff some script failed on some notification: no failure stops the remaining runs |

## Left out

- `call_script` (watchpkg.c:274-306) is an oracle: process spawning, the
  `waitpid` retry on EINTR, exit-status decoding, the inherited environment
  and its diagnostics are operating-system I/O. The oracle is a pure
  function, so two runs of the same script on the same (name, origin) are
  given the same outcome.
- Diagnostic messages and their `MAXPATHLEN` truncation are output only.
- `pkg_plugin_init` and `pkg_plugin_shutdown` (watchpkg.c:109-185): plugin
  metadata, hook registration, the configuration-object type check and the
  early return when no scripts are configured (the callbacks are then never
  registered) are host glue; only the reading of the two lists is modelled,
  as the `Session` constructor.
- `list_free`, `notifications_free` and the `malloc` in `strclone`
  (watchpkg.c:345-353, 387-395, 432-441): memory management; `strclone` is the
  identity on values, so lists and notifications hold the values passed in.
  Allocation failure is not modelled.
- `pkg_get` is modelled as yielding non-NULL name and origin strings, so the
  watch-list lookups never pass a NULL query.
- Strings are `seq<char>`; `strcmp` equality is sequence equality (C strings
  cannot hold an embedded NUL, Dafny strings can).
- Event kinds other than the three "finished" ones are one `Other` case;
  their payloads are not read by the plugin.
