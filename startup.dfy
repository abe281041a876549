/**
 * The remote-change check of the Eclipse plug-in "Git Remote Change Alert"
 * (class `Startup` of package dev.roshin.eclipse.git_remote_change_alert).
 *
 * For a project the plug-in answers "do the local branch tip and the tip of
 * refs/remotes/origin/<branch> differ?". Answers are backed by a per-project
 * cache of the last remote tip seen: while an entry is younger than the
 * cooldown, the answer compares the local tip with the cached remote tip and
 * no fetch is made; otherwise the plug-in fetches, compares, and records the
 * fresh remote tip. Every failure answers `false`.
 *
 * What JGit, EGit, the workspace and the clock would answer during one call is
 * passed in as a `GitOracle` value; the class keeps the one piece of state the
 * plug-in keeps, the cache map, plus a ghost count of the fetches it issued.
 */
module GitRemoteChangeAlert {
  import opened JavaArith

  /** A workspace project, identified as `IProject` is: by its path. */
  type ProjectId = string

  /** A commit's identity, the hexadecimal name of its object id. */
  type CommitId = string

  /** The outcome of a collaborator call that may throw. */
  datatype Result<T> = Ok(value: T) | Threw

  /** `CachedData`: when the remote tip was last recorded, and what it was. */
  datatype CachedData = CachedData(timestamp: Int64, commitId: CommitId)

  /** `cacheMap`. */
  type Cache = map<ProjectId, CachedData>

  /** The two preferences read from the preference store on every check. */
  datatype Preferences = Preferences(cacheEnabled: bool, cooldownMinutes: Int32)

  /** The defaults the preference initializer installs. */
  const DEFAULT_PREFERENCES: Preferences := Preferences(false, 0)

  /**
   * What the collaborators answer during one check of one project:
   * - `mapped`: EGit's repository mapping yields a repository (it is not null);
   * - `checkClock`: the clock read before the freshness test;
   * - `localTip`: the commit the current full branch resolves to, or the
   *   resolve/parse threw (no branch, missing object, I/O error);
   * - `fetchCompletes`: `git.fetch().call()` returned rather than threw;
   * - `remoteTip`: the commit refs/remotes/origin/<branch> resolves to after
   *   the fetch, or the resolve/parse threw;
   * - `storeClock`: the clock read when the new cache entry is built.
   */
  datatype GitOracle = GitOracle(
    mapped: bool,
    checkClock: Int64,
    localTip: Result<CommitId>,
    fetchCompletes: bool,
    remoteTip: Result<CommitId>,
    storeClock: Int64)

  /** The answer of one check, the cache after it, and whether it went to the network. */
  datatype Outcome = Outcome(changed: bool, cache: Cache, fetched: bool)

  /** `cooldownPeriodInMinutes * 60 * 1000`: two `int` multiplications, widened to `long` afterwards. */
  function CooldownPeriod(minutes: Int32): Int64
  {
    MulInt32(MulInt32(minutes, 60), 1000)
  }

  /** An entry is fresh when the `long` difference between now and its timestamp is below the period. */
  predicate IsFresh(entry: CachedData, period: Int64, now: Int64)
  {
    SubInt64(now, entry.timestamp) < period
  }

  /** The check answers from the cache: caching is on, an entry exists and it is fresh. */
  predicate CacheHit(cache: Cache, project: ProjectId, prefs: Preferences, repo: GitOracle)
  {
    && prefs.cacheEnabled
    && project in cache
    && IsFresh(cache[project], CooldownPeriod(prefs.cooldownMinutes), repo.checkClock)
  }

  /** What a fetch-and-compare reports, independently of any cache: it completed and the tips differ. */
  predicate FetchReportsChange(repo: GitOracle)
  {
    && repo.mapped
    && repo.fetchCompletes
    && repo.localTip.Ok?
    && repo.remoteTip.Ok?
    && repo.localTip.value != repo.remoteTip.value
  }

  /**
   * The decision procedure of `hasRemoteChanges`. On a cache hit, the answer is
   * the comparison of the local tip with the cached remote tip (a missing
   * repository or a failed resolve answers false) and nothing else happens.
   * Otherwise, without a repository the answer is false and nothing happens;
   * with one a fetch is made, and only when fetch and both resolves succeed is
   * the entry overwritten and the two tips compared.
   */
  function Check(cache: Cache, project: ProjectId, prefs: Preferences, repo: GitOracle): Outcome
  {
    if CacheHit(cache, project, prefs, repo) then
      var hit := repo.mapped && repo.localTip.Ok? && cache[project].commitId != repo.localTip.value;
      Outcome(hit, cache, false)
    else if !repo.mapped then
      Outcome(false, cache, false)
    else if repo.fetchCompletes && repo.localTip.Ok? && repo.remoteTip.Ok? then
      var entry := CachedData(repo.storeClock, repo.remoteTip.value);
      Outcome(repo.localTip.value != repo.remoteTip.value, cache[project := entry], true)
    else
      Outcome(false, cache, true)
  }

  /** `isGitProject`: the `.git` directory test, where any exception (no location) answers false. */
  function IsGitProject(gitDirExists: Result<bool>): (r: bool)
    ensures gitDirExists.Threw? ==> !r
    ensures gitDirExists.Ok? ==> r == gitDirExists.value
  {
    match gitDirExists
    case Ok(found) => found
    case Threw => false
  }

  /** A project as the startup scan or the change handler sees it. */
  datatype ProjectView = ProjectView(
    id: ProjectId,
    open: bool,
    gitDirExists: Result<bool>,
    repo: GitOracle)

  /** The projects that have been checked so far, the cache, and the fetches made. */
  datatype ScanState = ScanState(flagged: seq<ProjectId>, cache: Cache, fetches: nat)

  /** One turn of the startup loop: an open Git project is checked, and listed when it has changes. */
  function ScanStep(s: ScanState, project: ProjectView, prefs: Preferences): ScanState
  {
    if project.open && IsGitProject(project.gitDirExists) then
      var o := Check(s.cache, project.id, prefs, project.repo);
      ScanState(
        if o.changed then s.flagged + [project.id] else s.flagged,
        o.cache,
        s.fetches + if o.fetched then 1 else 0)
    else
      s
  }

  /** The startup scan over `projects`, in order, starting from `cache`. */
  function Scan(cache: Cache, projects: seq<ProjectView>, prefs: Preferences): ScanState
    decreases |projects|
  {
    if projects == [] then ScanState([], cache, 0)
    else ScanStep(Scan(cache, projects[..|projects| - 1], prefs), projects[|projects| - 1], prefs)
  }

  /** The scan over a longer prefix is one more step of the loop. */
  lemma ScanSnoc(cache: Cache, projects: seq<ProjectView>, project: ProjectView, prefs: Preferences)
    ensures Scan(cache, projects + [project], prefs) == ScanStep(Scan(cache, projects, prefs), project, prefs)
  {
  }

  /** `IResourceChangeEvent.POST_CHANGE`. */
  const POST_CHANGE: int := 1

  /** `IResourceDelta.OPEN`: the open state of the project changed. */
  const OPEN: bv32 := 0x4000

  /** The resource a delta is about: a project (`IResource.PROJECT`) or any other kind. */
  datatype Resource = ProjectResource(project: ProjectView) | OtherResource(resourceType: int)

  /** One resource delta visited by the change handler, with its flags. */
  datatype Delta = Delta(resource: Resource, flags: bv32)

  /** A project delta whose OPEN flag bit is set. */
  predicate IsOpenedProjectDelta(d: Delta)
  {
    d.resource.ProjectResource? && d.flags & OPEN != 0
  }

  /** The projects of the visited deltas whose OPEN flag bit is set, in visiting order. */
  function OpenedProjects(deltas: seq<Delta>): seq<ProjectView>
    decreases |deltas|
  {
    if deltas == [] then []
    else
      var d := deltas[|deltas| - 1];
      OpenedProjects(deltas[..|deltas| - 1]) + if IsOpenedProjectDelta(d) then [d.resource.project] else []
  }

  /**
   * `resourceChanged`: events other than POST_CHANGE are ignored; otherwise
   * the opened projects among the visited deltas are checked in visiting
   * order exactly as the startup scan checks its projects.
   */
  function HandleEvent(cache: Cache, eventType: int, deltas: seq<Delta>, prefs: Preferences): ScanState
  {
    if eventType != POST_CHANGE then ScanState([], cache, 0)
    else Scan(cache, OpenedProjects(deltas), prefs)
  }

  /** `Startup`: the plug-in's listener, holding the per-project cache. */
  class Startup {
    var cacheMap: Cache
    /** The number of network fetches issued so far. */
    ghost var fetches: nat

    constructor ()
      ensures cacheMap == map[] && fetches == 0
    {
      cacheMap := map[];
      fetches := 0;
    }

    /** `hasRemoteChanges`. */
    method HasRemoteChanges(project: ProjectId, prefs: Preferences, repo: GitOracle) returns (changed: bool)
      modifies this
      ensures changed == Check(old(cacheMap), project, prefs, repo).changed
      ensures cacheMap == Check(old(cacheMap), project, prefs, repo).cache
      ensures fetches == old(fetches) + if Check(old(cacheMap), project, prefs, repo).fetched then 1 else 0
    {
      var cooldownPeriod := CooldownPeriod(prefs.cooldownMinutes);
      if prefs.cacheEnabled {
        if project in cacheMap {
          var data := cacheMap[project];
          var currentTime := repo.checkClock;
          if SubInt64(currentTime, data.timestamp) < cooldownPeriod {
            // Within the cooldown: compare the local tip with the cached remote tip.
            // A RevWalk over a missing repository throws, which answers false.
            if !repo.mapped {
              return false;
            }
            match repo.localTip
            case Threw =>
              return false;
            case Ok(localCommit) =>
              return data.commitId != localCommit;
          }
        }
      }

      if !repo.mapped {
        return false;
      }
      fetches := fetches + 1;
      if !repo.fetchCompletes {
        return false;
      }
      if repo.localTip.Threw? || repo.remoteTip.Threw? {
        return false;
      }
      var localCommit, remoteCommit := repo.localTip.value, repo.remoteTip.value;
      var newData := CachedData(repo.storeClock, remoteCommit);
      cacheMap := cacheMap[project := newData];
      changed := localCommit != remoteCommit;
    }

    /**
     * The project loop of `earlyStartup`: every open Git project is checked in
     * order, those with changes are collected, and a notification lists them
     * when there is at least one.
     */
    method EarlyStartup(projects: seq<ProjectView>, prefs: Preferences)
      returns (projectsWithChanges: seq<ProjectId>, notify: bool)
      modifies this
      ensures projectsWithChanges == Scan(old(cacheMap), projects, prefs).flagged
      ensures cacheMap == Scan(old(cacheMap), projects, prefs).cache
      ensures fetches == old(fetches) + Scan(old(cacheMap), projects, prefs).fetches
      ensures notify <==> projectsWithChanges != []
    {
      projectsWithChanges := [];
      var i := 0;
      while i < |projects|
        invariant 0 <= i <= |projects|
        invariant old(fetches) <= fetches
        invariant ScanState(projectsWithChanges, cacheMap, fetches - old(fetches))
                  == Scan(old(cacheMap), projects[..i], prefs)
      {
        var project := projects[i];
        ScanSnoc(old(cacheMap), projects[..i], project, prefs);
        if project.open && IsGitProject(project.gitDirExists) {
          var changed := HasRemoteChanges(project.id, prefs, project.repo);
          if changed {
            projectsWithChanges := projectsWithChanges + [project.id];
          }
        }
        assert projects[..i + 1] == projects[..i] + [project];
        i := i + 1;
      }
      assert projects[..i] == projects;
      notify := false;
      if projectsWithChanges != [] {
        notify := true;  // displayNotification(projectsWithChanges)
      }
    }

    /**
     * `resourceChanged`: for a POST_CHANGE event, every visited project delta
     * whose project is open and whose OPEN flag bit is set leads to a check;
     * each project with changes gets its own notification, in visiting order.
     */
    method ResourceChanged(eventType: int, deltas: seq<Delta>, prefs: Preferences)
      returns (notified: seq<ProjectId>)
      modifies this
      ensures notified == HandleEvent(old(cacheMap), eventType, deltas, prefs).flagged
      ensures cacheMap == HandleEvent(old(cacheMap), eventType, deltas, prefs).cache
      ensures fetches == old(fetches) + HandleEvent(old(cacheMap), eventType, deltas, prefs).fetches
    {
      notified := [];
      if eventType != POST_CHANGE {
        return;
      }
      var i := 0;
      while i < |deltas|
        invariant 0 <= i <= |deltas|
        invariant old(fetches) <= fetches
        invariant ScanState(notified, cacheMap, fetches - old(fetches))
                  == Scan(old(cacheMap), OpenedProjects(deltas[..i]), prefs)
      {
        var delta := deltas[i];
        assert deltas[..i + 1][..i] == deltas[..i];
        assert OpenedProjects(deltas[..i + 1])
               == OpenedProjects(deltas[..i]) + if IsOpenedProjectDelta(delta) then [delta.resource.project] else [];
        match delta.resource {
          case ProjectResource(project) =>
            ScanSnoc(old(cacheMap), OpenedProjects(deltas[..i]), project, prefs);
            if project.open && delta.flags & OPEN != 0 {
              if IsGitProject(project.gitDirExists) {
                var changed := HasRemoteChanges(project.id, prefs, project.repo);
                if changed {
                  notified := notified + [project.id];
                }
              }
            }
          case OtherResource(_) =>
            assert OpenedProjects(deltas[..i + 1]) == OpenedProjects(deltas[..i]);
        }
        assert ScanState(notified, cacheMap, fetches - old(fetches))
               == Scan(old(cacheMap), OpenedProjects(deltas[..i + 1]), prefs);
        i := i + 1;
      }
      assert deltas[..i] == deltas;
    }
  }
}
