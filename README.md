# Git Remote Change Alert: the remote-change check, in Dafny

This project models the core of the Eclipse plug-in "Git Remote Change Alert".
That core is the class `Startup` (package `dev.roshin.eclipse.git_remote_change_alert`).
For each workspace project the plug-in decides whether the local branch tip differs from
the tip of `refs/remotes/origin/<branch>`. It uses a per-project cache, `cacheMap`, of
`CachedData{timestamp, commitId}`:

- **Cache hit.** Caching is enabled, the project has an entry, and the `long` difference
  `now - timestamp` is below the cooldown period. The answer then compares the local tip
  with the cached remote tip. No fetch is made and the cache is not written.
- **Fetch.** In every other case the plug-in fetches, resolves both tips, and overwrites
  the project's entry with `{clock, remote tip}`. It does this whether or not caching is
  enabled. The answer is whether the tips differ.
- **Failure.** A missing repository mapping, a failed fetch or a failed resolve answers
  `false` and leaves the cache as it was.

Around this sit two callers. The startup scan lists the open Git projects that have changes,
in workspace order, and notifies only when that list is non-empty. The resource-change
handler reacts only to POST_CHANGE events and checks a project only when the project is open
and its delta has the OPEN flag bit set.

Files:

- `java_arith.dfy` (module `JavaArith`): Java `int`/`long` wrap-around. The cooldown period
  `cooldownPeriodInMinutes * 60 * 1000` is computed in 32-bit `int` and only then widened
  to `long`. The age `currentTime - timestamp` is a 64-bit subtraction.
- `startup.dfy` (module `GitRemoteChangeAlert`): the data model and the specification
  functions. `Check` specifies one call of `hasRemoteChanges`, `Scan` the startup loop, and
  `HandleEvent` the change handler. The class `Startup` holds `cacheMap` and a ghost count of
  network fetches. Its methods are written in the source's early-return and loop style and
  are proved to follow those functions.
- `startup_properties.dfy` (module `StartupProperties`): the properties of the check, the
  scan and the handler, proved as lemmas about the specification functions.

What the collaborators answer during one call is an input value, `GitOracle`. The
collaborators are EGit's repository mapping, JGit's fetch and resolve, and the clock. The
oracle holds the clock read before the freshness test (`checkClock`) and the one made when
the new entry is built (`storeClock`), because the source reads the clock twice. An
exception anywhere in a resolve (no branch, a `null` resolve result, an I/O error) is
`Threw`. On the cache-hit path a missing repository also answers `false`: the source builds
a `RevWalk` over the `null` repository, that throws, and the catch-all returns `false`.

Constants taken from the Eclipse resources API, which is not part of this model:
`IResourceChangeEvent.POST_CHANGE = 1` and `IResourceDelta.OPEN = 0x4000`. A project
resource (`IResource.PROJECT`) is the `ProjectResource` variant of `Resource`. The default
preferences are caching off and a cooldown of 0 minutes (`DEFAULT_PREFERENCES`).

Arithmetic consequence, modelled as the source computes it: above 35791 minutes the
32-bit product overflows. From 35792 to 71582 minutes the period is negative
(`CooldownPeriodOverflows`). So, while the clock has not gone back since an entry was
stored, the cache never answers and every check with a mapped repository fetches
(`OverflowedCooldownAlwaysFetches`).

## Model

| member | source | states |
|---|---|---|
| `JavaArith.WrapInt32` | src/dev/roshin/eclipse/git_remote_change_alert/Startup.java:105 | a Java `int` result is the unique in-range value congruent to the exact result modulo 2^32, and equals it when it is in range |
| `JavaArith.WrapInt64` | src/dev/roshin/eclipse/git_remote_change_alert/Startup.java:112 | a Java `long` result is the unique in-range value congruent to the exact result modulo 2^64, and equals it when it is in range |
| `JavaArith.WrapThenTimes1000` | src/dev/roshin/eclipse/git_remote_change_alert/Startup.java:105 | wrapping `minutes * 60` before multiplying by 1000 gives the same `int` as wrapping the whole product |
| `StartupProperties.CooldownPeriodIsWrappedProduct` | src/dev/roshin/eclipse/git_remote_change_alert/Startup.java:104-105 | the cooldown period is `minutes * 60000` wrapped once to 32 bits, for every `int` number of minutes |
| `StartupProperties.CooldownPeriodExact` | src/dev/roshin/eclipse/git_remote_change_alert/Startup.java:104-105 | for -35791..35791 minutes the period is exactly `minutes * 60000` milliseconds |
| `StartupProperties.CooldownPeriodOverflows` | src/dev/roshin/eclipse/git_remote_change_alert/Startup.java:104-105 | for 35792..71582 minutes the period is `minutes * 60000 - 2^32`, a negative number |
| `GitRemoteChangeAlert.IsGitProject` | src/dev/roshin/eclipse/git_remote_change_alert/Startup.java:83-93 | an exception while locating the project answers false; otherwise the answer is whether `.git` exists |
| `GitRemoteChangeAlert.Startup.constructor` | src/dev/roshin/eclipse/git_remote_change_alert/Startup.java:49 | the cache starts empty and no fetch has been made |
| `GitRemoteChangeAlert.Startup.HasRemoteChanges` | src/dev/roshin/eclipse/git_remote_change_alert/Startup.java:101-170 | the answer, the new cache and the fetch count are those of the decision procedure `Check` on the old cache |
| `GitRemoteChangeAlert.Startup.EarlyStartup` | src/dev/roshin/eclipse/git_remote_change_alert/Startup.java:63-74 | the list, the new cache and the fetch count are those of `Scan` over the projects in order; a notification is made exactly when the list is non-empty |
| `GitRemoteChangeAlert.Startup.ResourceChanged` | src/dev/roshin/eclipse/git_remote_change_alert/Startup.java:227-251 | the notified projects, the new cache and the fetch count are those of `HandleEvent`: nothing for other event types, otherwise `Scan` over the opened projects of the visited deltas |
| `StartupProperties.CacheHitComparesLocally` | src/dev/roshin/eclipse/git_remote_change_alert/Startup.java:107-129 | on a cache hit the answer is true exactly when a repository is mapped, the local tip resolves and differs from the cached commit id; a failed resolve answers false; no fetch; cache unchanged |
| `StartupProperties.FetchOnlyWithoutCacheHit` | src/dev/roshin/eclipse/git_remote_change_alert/Startup.java:107-143 | a fetch is made if and only if the cache does not answer and a repository is mapped |
| `StartupProperties.DisabledCacheAnswersByFetch` | src/dev/roshin/eclipse/git_remote_change_alert/Startup.java:107-169 | with caching disabled the answer is what fetch-and-compare reports, whatever the cache holds, and every check with a repository fetches |
| `StartupProperties.ZeroCooldownAlwaysFetches` | src/dev/roshin/eclipse/git_remote_change_alert/Startup.java:104-112 | with a 0-minute cooldown and a clock that has not gone back since the entry was stored, the cache never answers and every check with a repository fetches |
| `StartupProperties.OverflowedCooldownAlwaysFetches` | src/dev/roshin/eclipse/git_remote_change_alert/Startup.java:104-112 | with a cooldown of 35792..71582 minutes (a negative period) and a clock that has not gone back since the entry was stored, the cache never answers and every check with a repository fetches |
| `StartupProperties.DefaultPreferencesAlwaysFetch` | src/dev/roshin/eclipse/git_remote_change_alert/preferences/PreferenceInitializer.java:22-23 | under the default preferences every check with a repository fetches, and the answer is what fetch-and-compare reports |
| `StartupProperties.SuccessfulFetchRecordsRemoteTip` | src/dev/roshin/eclipse/git_remote_change_alert/Startup.java:153-160 | after a successful fetch the entry is `{storeClock, remote tip}` whatever the cache-enabled flag, and the answer is "the tips differ" |
| `StartupProperties.FailedFetchAnswersFalse` | src/dev/roshin/eclipse/git_remote_change_alert/Startup.java:134-169 | a missing repository, a failed fetch or a failed resolve answers false and leaves the cache exactly as before |
| `StartupProperties.OtherEntriesUntouched` | src/dev/roshin/eclipse/git_remote_change_alert/Startup.java:157 | only the checked project's key can be added or changed; every other project's entry, or absence of one, is kept |
| `StartupProperties.CacheWrittenOnlyByFetch` | src/dev/roshin/eclipse/git_remote_change_alert/Startup.java:150-157 | whenever the cache changes, a fetch was made and succeeded and the project's entry is the fresh remote tip; entries are never created otherwise |
| `StartupProperties.SecondCheckWithinCooldown` | src/dev/roshin/eclipse/git_remote_change_alert/Startup.java:107-160 | a check within the cooldown after a successful fetch, with caching on, makes no fetch and no cache change; when the repository is still mapped and the local tip is the same, it also repeats the fetch's answer |
| `StartupProperties.FiveMinuteCooldownScenario` | src/dev/roshin/eclipse/git_remote_change_alert/Startup.java:101-170 | a five-minute cooldown: fetch at 0 (no change, C1 cached), answer "changed" from the cache at one minute, fetch again at six minutes (no change, C2 cached) |
| `StartupProperties.ScanFlagsOnlyOpenGitProjects` | src/dev/roshin/eclipse/git_remote_change_alert/Startup.java:63-70 | every listed project is an open Git project of the workspace, and the list is no longer than the project array |
| `StartupProperties.ScanTouchesOnlyCheckedProjects` | src/dev/roshin/eclipse/git_remote_change_alert/Startup.java:66-67 | because `&&` short-circuits, the scan changes no cache entry of a project that is closed or not a Git project, and makes at most one fetch per open Git project it meets |
| `StartupProperties.CheckDependsOnOwnEntry` | src/dev/roshin/eclipse/git_remote_change_alert/Startup.java:107-160 | a check's answer and whether it fetches depend on the cache only through the checked project's own entry |
| `StartupProperties.ScanListsExactlyChangedProjects` | src/dev/roshin/eclipse/git_remote_change_alert/Startup.java:63-70 | for projects with distinct ids, the list is exactly the open Git projects whose check against the starting cache answers "changed", in their original order, whether caching is on or off |
| `StartupProperties.ScanWithCacheDisabled` | src/dev/roshin/eclipse/git_remote_change_alert/Startup.java:63-70 | with caching disabled the list is exactly the open Git projects whose fetch-and-compare reports a change, in their original order |
| `StartupProperties.DisabledCacheFetchesEveryCheck` | src/dev/roshin/eclipse/git_remote_change_alert/Startup.java:66-67 | with caching disabled, N checks of open Git projects with a repository make N fetches, even of the same project |
| `StartupProperties.OpenedProjectsComeFromOpenDeltas` | src/dev/roshin/eclipse/git_remote_change_alert/Startup.java:235-238 | every project passed to the check comes from a project delta whose OPEN flag bit is set |
| `StartupProperties.HandlerIgnoresOtherEvents` | src/dev/roshin/eclipse/git_remote_change_alert/Startup.java:230-232 | an event other than POST_CHANGE notifies nothing, fetches nothing and leaves the cache as it was |
| `StartupProperties.HandlerTouchesOnlyOpenedGitProjects` | src/dev/roshin/eclipse/git_remote_change_alert/Startup.java:235-241 | the handler changes no cache entry except those of open Git projects whose delta has the OPEN flag bit, and makes at most one fetch per such delta |
| `StartupProperties.HandlerNotifiesOnlyOpenedGitProjects` | src/dev/roshin/eclipse/git_remote_change_alert/Startup.java:235-242 | every notified project is open, is a Git project, and has a project delta with the OPEN flag bit set |

## Left out

- JGit and EGit (`RepositoryMapping.getMapping`, `git.fetch().call()`, `repo.resolve`, `RevWalk.parseCommit`): foreign calls. Their answers are the fields of `GitOracle`, and every exception they can throw is `Threw`. The source distinguishes `IOException` from other exceptions only in its log message.
- `System.currentTimeMillis()`: the two readings are the oracle fields `checkClock` and `storeClock`.
- Logging (`LogUtil`): it has no effect on answers or state.
- Dialogs (`displayNotification`, `Display.asyncExec`, `MessageDialog`): UI. The scan's notification is the `notify` result, and the handler's per-project notifications are the `notified` list.
- The preference store and preference page: the preferences are a `Preferences` value. `HasRemoteChanges` takes them per call. `EarlyStartup` and `ResourceChanged` hold them fixed for one scan or event, while the source re-reads them for every project.
- The `.git` directory lookup on the file system: `isGitProject` gets its outcome as `Result<bool>`.
- Workspace plumbing: listener registration, `getProjects`, and how the delta visitor walks the delta tree. The handler takes the visited deltas as a sequence in visiting order.
- Concurrency between the startup scan and the change handler on the unsynchronised `HashMap`: the model runs every check sequentially.
