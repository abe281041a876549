/**
 * What the remote-change check promises, stated over the specification
 * functions `Check`, `Scan` and `HandleEvent` that the methods of class
 * `Startup` are proved to follow.
 */
module StartupProperties {
  import opened JavaArith
  import opened GitRemoteChangeAlert

  /** `q` has the same entry, or the same absence of one, in both caches. */
  predicate SameEntry(before: Cache, after: Cache, q: ProjectId)
  {
    (q in before <==> q in after) && (q in before ==> after[q] == before[q])
  }

  /** A fetch completed and both tips resolved. */
  predicate FetchSucceeds(repo: GitOracle)
  {
    repo.mapped && repo.fetchCompletes && repo.localTip.Ok? && repo.remoteTip.Ok?
  }

  // ---------------------------------------------------------------------------
  // The cooldown period and its 32-bit arithmetic

  /** The period is the exact product `minutes * 60000` wrapped once to 32 bits. */
  lemma CooldownPeriodIsWrappedProduct(minutes: Int32)
    ensures CooldownPeriod(minutes) == WrapInt32(minutes * 60000)
  {
    WrapThenTimes1000(minutes * 60);
  }

  /** Up to 35791 minutes (in either sign) nothing wraps: the period is `minutes` minutes in milliseconds. */
  lemma CooldownPeriodExact(minutes: Int32)
    requires -35791 <= minutes <= 35791
    ensures CooldownPeriod(minutes) == minutes * 60000
  {
  }

  /** From 35792 to 71582 minutes the product passes 2^31 and the period wraps to a negative value,
      so no entry with a non-negative age is ever fresh. */
  lemma CooldownPeriodOverflows(minutes: Int32)
    requires 35792 <= minutes <= 71582
    ensures CooldownPeriod(minutes) == minutes * 60000 - TWO_32 < 0
  {
  }

  // ---------------------------------------------------------------------------
  // One check

  /** Cache hit: the answer compares the local tip with the cached remote tip; a missing repository or a
      failed resolve answers false; there is no fetch and the cache is left as it was. */
  lemma CacheHitComparesLocally(cache: Cache, p: ProjectId, prefs: Preferences, repo: GitOracle)
    requires CacheHit(cache, p, prefs, repo)
    ensures Check(cache, p, prefs, repo).changed
            <==> repo.mapped && repo.localTip.Ok? && repo.localTip.value != cache[p].commitId
    ensures !Check(cache, p, prefs, repo).fetched
    ensures Check(cache, p, prefs, repo).cache == cache
  {
  }

  /** The network is used exactly when the cache does not answer and a repository is mapped. */
  lemma FetchOnlyWithoutCacheHit(cache: Cache, p: ProjectId, prefs: Preferences, repo: GitOracle)
    ensures Check(cache, p, prefs, repo).fetched <==> !CacheHit(cache, p, prefs, repo) && repo.mapped
  {
  }

  /** With caching disabled the cache plays no part: the answer is what a fetch-and-compare reports, and
      every check with a repository fetches. */
  lemma DisabledCacheAnswersByFetch(cache: Cache, p: ProjectId, prefs: Preferences, repo: GitOracle)
    requires !prefs.cacheEnabled
    ensures Check(cache, p, prefs, repo).changed == FetchReportsChange(repo)
    ensures Check(cache, p, prefs, repo).fetched == repo.mapped
  {
  }

  /** A cooldown of 0 minutes never answers from the cache while the clock has not gone backwards. */
  lemma ZeroCooldownAlwaysFetches(cache: Cache, p: ProjectId, prefs: Preferences, repo: GitOracle)
    requires prefs.cooldownMinutes == 0
    requires p in cache ==> 0 <= cache[p].timestamp <= repo.checkClock
    ensures !CacheHit(cache, p, prefs, repo)
    ensures Check(cache, p, prefs, repo).fetched == repo.mapped
  {
  }

  /** A cooldown that overflows to a negative period (35792 to 71582 minutes) never answers from the cache
      while the clock has not gone backwards, so every check with a repository fetches. */
  lemma OverflowedCooldownAlwaysFetches(cache: Cache, p: ProjectId, prefs: Preferences, repo: GitOracle)
    requires 35792 <= prefs.cooldownMinutes <= 71582
    requires p in cache ==> 0 <= cache[p].timestamp <= repo.checkClock
    ensures !CacheHit(cache, p, prefs, repo)
    ensures Check(cache, p, prefs, repo).fetched == repo.mapped
  {
    CooldownPeriodOverflows(prefs.cooldownMinutes);
  }

  /** Under the default preferences (caching off, cooldown 0) every check with a repository fetches. */
  lemma DefaultPreferencesAlwaysFetch(cache: Cache, p: ProjectId, repo: GitOracle)
    ensures Check(cache, p, DEFAULT_PREFERENCES, repo).fetched == repo.mapped
    ensures Check(cache, p, DEFAULT_PREFERENCES, repo).changed == FetchReportsChange(repo)
  {
  }

  /** A successful fetch overwrites the project's entry with the remote tip and the clock, whether or not
      caching is enabled, and answers whether the two tips differ. */
  lemma SuccessfulFetchRecordsRemoteTip(cache: Cache, p: ProjectId, prefs: Preferences, repo: GitOracle)
    requires !CacheHit(cache, p, prefs, repo)
    requires FetchSucceeds(repo)
    ensures Check(cache, p, prefs, repo).fetched
    ensures Check(cache, p, prefs, repo).cache == cache[p := CachedData(repo.storeClock, repo.remoteTip.value)]
    ensures Check(cache, p, prefs, repo).changed <==> repo.localTip.value != repo.remoteTip.value
  {
  }

  /** A missing repository, a failed fetch or a failed resolve answers false and leaves the cache as it was. */
  lemma FailedFetchAnswersFalse(cache: Cache, p: ProjectId, prefs: Preferences, repo: GitOracle)
    requires !CacheHit(cache, p, prefs, repo)
    requires !FetchSucceeds(repo)
    ensures !Check(cache, p, prefs, repo).changed
    ensures Check(cache, p, prefs, repo).cache == cache
  {
  }

  /** Only the checked project's entry can change. */
  lemma OtherEntriesUntouched(cache: Cache, p: ProjectId, prefs: Preferences, repo: GitOracle)
    ensures Check(cache, p, prefs, repo).cache.Keys <= cache.Keys + {p}
    ensures forall q :: q != p ==> SameEntry(cache, Check(cache, p, prefs, repo).cache, q)
  {
  }

  /** The cache changes only through a successful fetch; in particular no entry is created otherwise. */
  lemma CacheWrittenOnlyByFetch(cache: Cache, p: ProjectId, prefs: Preferences, repo: GitOracle)
    ensures Check(cache, p, prefs, repo).cache != cache
            ==> Check(cache, p, prefs, repo).fetched && FetchSucceeds(repo)
                && Check(cache, p, prefs, repo).cache[p] == CachedData(repo.storeClock, repo.remoteTip.value)
  {
  }

  /** A second check within the cooldown of the fetch that created the entry, with caching enabled, never
      fetches and leaves the cache alone; when the repository is still mapped and the local tip is unchanged
      it also repeats the fetch's answer. */
  lemma SecondCheckWithinCooldown(
    cache: Cache, p: ProjectId, prefs1: Preferences, repo1: GitOracle, prefs2: Preferences, repo2: GitOracle)
    requires !CacheHit(cache, p, prefs1, repo1) && FetchSucceeds(repo1)
    requires prefs2.cacheEnabled
    requires SubInt64(repo2.checkClock, repo1.storeClock) < CooldownPeriod(prefs2.cooldownMinutes)
    ensures !Check(Check(cache, p, prefs1, repo1).cache, p, prefs2, repo2).fetched
    ensures repo2.mapped && repo2.localTip == repo1.localTip
            ==> Check(Check(cache, p, prefs1, repo1).cache, p, prefs2, repo2).changed
                == Check(cache, p, prefs1, repo1).changed
    ensures Check(Check(cache, p, prefs1, repo1).cache, p, prefs2, repo2).cache
            == Check(cache, p, prefs1, repo1).cache
  {
  }

  /** The end-to-end scenario of a five-minute cooldown with caching enabled:
      at 0 ms a fetch finds remote C1 = local C1 (no change) and records C1;
      at one minute the local branch is at C2, the cache answers "changed" without a fetch;
      at six minutes the entry is stale, a fetch finds remote C2 = local C2 and records it. */
  lemma FiveMinuteCooldownScenario()
    ensures
      var prefs := Preferences(true, 5);
      var o1 := Check(map[], "p", prefs, GitOracle(true, 0, Ok("C1"), true, Ok("C1"), 0));
      var o2 := Check(o1.cache, "p", prefs, GitOracle(true, 60000, Ok("C2"), true, Ok("C9"), 60000));
      var o3 := Check(o2.cache, "p", prefs, GitOracle(true, 360000, Ok("C2"), true, Ok("C2"), 360000));
      && !o1.changed && o1.fetched && o1.cache == map["p" := CachedData(0, "C1")]
      && o2.changed && !o2.fetched && o2.cache == o1.cache
      && !o3.changed && o3.fetched && o3.cache == map["p" := CachedData(360000, "C2")]
  {
  }

  // ---------------------------------------------------------------------------
  // The startup scan

  /** The ids of the projects the scan checks: the open Git projects. */
  ghost function CheckedIds(projects: seq<ProjectView>): set<ProjectId>
  {
    set i | 0 <= i < |projects| && projects[i].open && IsGitProject(projects[i].gitDirExists) :: projects[i].id
  }

  /** The open Git projects, in order: the ones the scan checks, a repeated project once per occurrence. */
  function OpenGitProjects(projects: seq<ProjectView>): seq<ProjectView>
    decreases |projects|
  {
    if projects == [] then []
    else
      var p := projects[|projects| - 1];
      OpenGitProjects(projects[..|projects| - 1]) + if p.open && IsGitProject(p.gitDirExists) then [p] else []
  }

  /** No two projects of the sequence share an id, as with the workspace's project array. */
  predicate DistinctIds(projects: seq<ProjectView>)
  {
    forall i, j :: 0 <= i < j < |projects| ==> projects[i].id != projects[j].id
  }

  /** The open Git projects whose check against `cache` answers "changed", in their original order. */
  function ChangedProjects(cache: Cache, projects: seq<ProjectView>, prefs: Preferences): seq<ProjectId>
    decreases |projects|
  {
    if projects == [] then []
    else
      var p := projects[|projects| - 1];
      ChangedProjects(cache, projects[..|projects| - 1], prefs)
      + if p.open && IsGitProject(p.gitDirExists) && Check(cache, p.id, prefs, p.repo).changed then [p.id] else []
  }

  /** A check depends on the cache only through the checked project's own entry. */
  lemma CheckDependsOnOwnEntry(c1: Cache, c2: Cache, p: ProjectId, prefs: Preferences, repo: GitOracle)
    requires SameEntry(c1, c2, p)
    ensures Check(c1, p, prefs, repo).changed == Check(c2, p, prefs, repo).changed
    ensures Check(c1, p, prefs, repo).fetched == Check(c2, p, prefs, repo).fetched
  {
  }

  /** Every listed project is an open Git project of the input, and no more are listed than there are. */
  lemma {:induction false} ScanFlagsOnlyOpenGitProjects(cache: Cache, projects: seq<ProjectView>, prefs: Preferences)
    ensures |Scan(cache, projects, prefs).flagged| <= |projects|
    ensures forall x :: x in Scan(cache, projects, prefs).flagged ==>
              exists i :: 0 <= i < |projects| && projects[i].id == x
                          && projects[i].open && IsGitProject(projects[i].gitDirExists)
    decreases |projects|
  {
    if projects != [] {
      var n := |projects| - 1;
      ScanFlagsOnlyOpenGitProjects(cache, projects[..n], prefs);
      forall x | x in Scan(cache, projects, prefs).flagged
        ensures exists i :: 0 <= i < |projects| && projects[i].id == x
                            && projects[i].open && IsGitProject(projects[i].gitDirExists)
      {
        if x in Scan(cache, projects[..n], prefs).flagged {
          var i :| 0 <= i < n && projects[..n][i].id == x
                   && projects[..n][i].open && IsGitProject(projects[..n][i].gitDirExists);
          assert projects[i] == projects[..n][i];
        } else {
          assert projects[n].id == x;
        }
      }
    }
  }

  /** Because `&&` short-circuits, the scan changes no entry of a project it does not check, and fetches at
      most once per open Git project it meets. */
  lemma {:induction false} ScanTouchesOnlyCheckedProjects(cache: Cache, projects: seq<ProjectView>, prefs: Preferences)
    ensures Scan(cache, projects, prefs).fetches <= |OpenGitProjects(projects)|
    ensures forall q :: q !in CheckedIds(projects) ==> SameEntry(cache, Scan(cache, projects, prefs).cache, q)
    decreases |projects|
  {
    if projects != [] {
      var n := |projects| - 1;
      ScanTouchesOnlyCheckedProjects(cache, projects[..n], prefs);
      var before := Scan(cache, projects[..n], prefs);
      forall q | q !in CheckedIds(projects)
        ensures SameEntry(cache, Scan(cache, projects, prefs).cache, q)
      {
        assert CheckedIds(projects[..n]) <= CheckedIds(projects) by {
          forall x | x in CheckedIds(projects[..n]) ensures x in CheckedIds(projects) {
            var i :| 0 <= i < n && projects[..n][i].open && IsGitProject(projects[..n][i].gitDirExists)
                     && projects[..n][i].id == x;
            assert projects[i] == projects[..n][i];
          }
        }
        if projects[n].open && IsGitProject(projects[n].gitDirExists) {
          assert projects[n].id in CheckedIds(projects);
        }
      }
    }
  }

  /** For projects with distinct ids, the scan lists exactly the open Git projects whose check against the
      cache the scan starts with answers "changed", in their original order: checking one project never
      alters the answer for another. */
  lemma {:induction false} ScanListsExactlyChangedProjects(cache: Cache, projects: seq<ProjectView>, prefs: Preferences)
    requires DistinctIds(projects)
    ensures Scan(cache, projects, prefs).flagged == ChangedProjects(cache, projects, prefs)
    decreases |projects|
  {
    if projects != [] {
      var n := |projects| - 1;
      var p := projects[n];
      ScanListsExactlyChangedProjects(cache, projects[..n], prefs);
      ScanTouchesOnlyCheckedProjects(cache, projects[..n], prefs);
      assert p.id !in CheckedIds(projects[..n]) by {
        forall i | 0 <= i < n ensures projects[..n][i].id != p.id {
          assert projects[..n][i] == projects[i];
        }
      }
      CheckDependsOnOwnEntry(cache, Scan(cache, projects[..n], prefs).cache, p.id, prefs, p.repo);
    }
  }

  /** The projects with reported changes: open Git projects whose fetch-and-compare reports a change. */
  function ReportingProjects(projects: seq<ProjectView>): seq<ProjectId>
    decreases |projects|
  {
    if projects == [] then []
    else
      var p := projects[|projects| - 1];
      ReportingProjects(projects[..|projects| - 1])
      + if p.open && IsGitProject(p.gitDirExists) && FetchReportsChange(p.repo) then [p.id] else []
  }

  /** With caching disabled the scan lists exactly the open Git projects whose fetch reports a change, in
      their original order, whatever the cache held. */
  lemma {:induction false} ScanWithCacheDisabled(cache: Cache, projects: seq<ProjectView>, prefs: Preferences)
    requires !prefs.cacheEnabled
    ensures Scan(cache, projects, prefs).flagged == ReportingProjects(projects)
    decreases |projects|
  {
    if projects != [] {
      var n := |projects| - 1;
      ScanWithCacheDisabled(cache, projects[..n], prefs);
      DisabledCacheAnswersByFetch(Scan(cache, projects[..n], prefs).cache, projects[n].id, prefs, projects[n].repo);
    }
  }

  /** With caching disabled, a scan over open Git projects that all have a repository fetches once for each
      of them, even when the same project is checked repeatedly. */
  lemma {:induction false} DisabledCacheFetchesEveryCheck(cache: Cache, projects: seq<ProjectView>, prefs: Preferences)
    requires !prefs.cacheEnabled
    requires forall i :: 0 <= i < |projects| ==>
               projects[i].open && IsGitProject(projects[i].gitDirExists) && projects[i].repo.mapped
    ensures Scan(cache, projects, prefs).fetches == |projects|
    decreases |projects|
  {
    if projects != [] {
      var n := |projects| - 1;
      assert forall i :: 0 <= i < n ==> projects[..n][i] == projects[i];
      DisabledCacheFetchesEveryCheck(cache, projects[..n], prefs);
      DisabledCacheAnswersByFetch(Scan(cache, projects[..n], prefs).cache, projects[n].id, prefs, projects[n].repo);
    }
  }

  // ---------------------------------------------------------------------------
  // The change handler

  /** Every project the handler passes on comes from a project delta with the OPEN flag bit set. */
  lemma {:induction false} OpenedProjectsComeFromOpenDeltas(deltas: seq<Delta>)
    ensures forall v :: v in OpenedProjects(deltas) ==>
              exists i :: 0 <= i < |deltas| && IsOpenedProjectDelta(deltas[i]) && deltas[i].resource.project == v
    decreases |deltas|
  {
    if deltas != [] {
      var n := |deltas| - 1;
      OpenedProjectsComeFromOpenDeltas(deltas[..n]);
      forall v | v in OpenedProjects(deltas)
        ensures exists i :: 0 <= i < |deltas| && IsOpenedProjectDelta(deltas[i]) && deltas[i].resource.project == v
      {
        if v in OpenedProjects(deltas[..n]) {
          var i :| 0 <= i < n && IsOpenedProjectDelta(deltas[..n][i]) && deltas[..n][i].resource.project == v;
          assert deltas[i] == deltas[..n][i];
        } else {
          assert IsOpenedProjectDelta(deltas[n]) && deltas[n].resource.project == v;
        }
      }
    }
  }

  /** Events other than POST_CHANGE notify nothing, fetch nothing and leave the cache as it was. */
  lemma HandlerIgnoresOtherEvents(cache: Cache, eventType: int, deltas: seq<Delta>, prefs: Preferences)
    requires eventType != POST_CHANGE
    ensures HandleEvent(cache, eventType, deltas, prefs) == ScanState([], cache, 0)
  {
  }

  /** The handler fetches for, and writes the cache entry of, only open Git projects whose delta carries
      the OPEN flag bit, and fetches at most once per such delta. */
  lemma HandlerTouchesOnlyOpenedGitProjects(cache: Cache, eventType: int, deltas: seq<Delta>, prefs: Preferences)
    ensures HandleEvent(cache, eventType, deltas, prefs).fetches <= |OpenGitProjects(OpenedProjects(deltas))|
    ensures forall q :: q !in CheckedIds(OpenedProjects(deltas)) ==>
              SameEntry(cache, HandleEvent(cache, eventType, deltas, prefs).cache, q)
  {
    if eventType == POST_CHANGE {
      ScanTouchesOnlyCheckedProjects(cache, OpenedProjects(deltas), prefs);
    }
  }

  /** The handler notifies only projects that are open, are Git projects, and whose delta carries the
      OPEN flag bit. */
  lemma HandlerNotifiesOnlyOpenedGitProjects(cache: Cache, eventType: int, deltas: seq<Delta>, prefs: Preferences)
    ensures forall x :: x in HandleEvent(cache, eventType, deltas, prefs).flagged ==>
              exists i :: 0 <= i < |deltas| && IsOpenedProjectDelta(deltas[i])
                          && deltas[i].resource.project.id == x && deltas[i].resource.project.open
                          && IsGitProject(deltas[i].resource.project.gitDirExists)
  {
    if eventType == POST_CHANGE {
      var views := OpenedProjects(deltas);
      ScanFlagsOnlyOpenGitProjects(cache, views, prefs);
      OpenedProjectsComeFromOpenDeltas(deltas);
      forall x | x in HandleEvent(cache, eventType, deltas, prefs).flagged
        ensures exists i :: 0 <= i < |deltas| && IsOpenedProjectDelta(deltas[i])
                            && deltas[i].resource.project.id == x && deltas[i].resource.project.open
                            && IsGitProject(deltas[i].resource.project.gitDirExists)
      {
        var j :| 0 <= j < |views| && views[j].id == x && views[j].open && IsGitProject(views[j].gitDirExists);
        assert views[j] in views;
        var i :| 0 <= i < |deltas| && IsOpenedProjectDelta(deltas[i]) && deltas[i].resource.project == views[j];
      }
    }
  }
}
