/**
 * The process-wide cache of internal/cache: entries, projects and one task
 * list per project.
 *
 * A Go slice that may be nil is an `Option<seq<T>>`: `None` is nil, which is
 * what every getter of a never-set cache returns. The methods of
 * cache.go (`Set*`, `Get*`) are modelled exactly; the add, update, delete,
 * invalidate and expiry operations that cache_test.go exercises are marked as
 * extensions. The clock is a parameter `now` in milliseconds.
 */
module Cache {
  import opened Wrappers
  import opened Models

  /** `minTilExpired` outside of tests: two minutes, in milliseconds. */
  const DefaultExpiry: int := 2 * 60 * 1000

  /** `CachedItem` holding a project's tasks and the time they were stored. */
  datatype CachedItem = CachedItem(data: seq<Task>, cachedAt: int)

  /** A nil slice reads as empty when something is added to it. */
  function OrEmpty<T>(xs: Option<seq<T>>): (r: seq<T>)
    ensures xs.Some? ==> r == xs.value
    ensures xs.None? ==> r == []
  {
    match xs
    case None => []
    case Some(s) => s
  }

  /** `i` is the position of the first entry whose id is `id`. */
  predicate IsFirstMatch(es: seq<Entry>, id: string, i: int) {
    0 <= i < |es| && es[i].id == id && forall j :: 0 <= j < i ==> es[j].id != id
  }

  /** `es` without its `i`-th element: the survivors keep their relative order. */
  function RemoveAt(es: seq<Entry>, i: int): (r: seq<Entry>)
    requires 0 <= i < |es|
    ensures |r| == |es| - 1
    ensures forall j :: 0 <= j < i ==> r[j] == es[j]
    ensures forall j :: i <= j < |r| ==> r[j] == es[j + 1]
  {
    es[..i] + es[i + 1..]
  }

  class ClockifyCache {
    var entries: Option<seq<Entry>>
    var projects: Option<seq<Project>>
    var projectTasks: map<string, CachedItem>
    /** Extension: when `entries` and `projects` were last written. */
    var entriesCachedAt: int
    var projectsCachedAt: int
    /** Extension: `minTilExpired`; cache_test.go lowers it to 10 ms. */
    var minTilExpired: int

    /** `GetInstance` on first use: nothing cached, and an empty task map. */
    constructor (expiry: int)
      ensures entries.None? && projects.None? && projectTasks == map[]
      ensures minTilExpired == expiry
    {
      entries := None;
      projects := None;
      projectTasks := map[];
      entriesCachedAt := 0;
      projectsCachedAt := 0;
      minTilExpired := expiry;
    }

    function GetEntries(): Option<seq<Entry>>
      reads this
    {
      entries
    }

    function GetProjects(): Option<seq<Project>>
      reads this
    {
      projects
    }

    /** The stored task list of a project, or nil for a key never set. */
    function GetProjectTasks(projectId: string): (r: Option<seq<Task>>)
      reads this
      ensures r.Some? <==> projectId in projectTasks
      ensures r.Some? ==> r.value == projectTasks[projectId].data
    {
      if projectId in projectTasks then Some(projectTasks[projectId].data) else None
    }

    /** Extension: a payload is a hit only while it is younger than the expiry window and not empty. */
    predicate IsFresh(size: int, cachedAt: int, now: int)
      reads this
    {
      size > 0 && now - cachedAt < minTilExpired
    }

    /** Extension: the expiring read of the entries. */
    function FreshEntries(now: int): (r: Option<seq<Entry>>)
      reads this
      ensures r.Some? <==> entries.Some? && IsFresh(|entries.value|, entriesCachedAt, now)
      ensures r.Some? ==> r == entries
    {
      if entries.Some? && IsFresh(|entries.value|, entriesCachedAt, now) then entries else None
    }

    /** Extension: the expiring read of the projects. */
    function FreshProjects(now: int): (r: Option<seq<Project>>)
      reads this
      ensures r.Some? <==> projects.Some? && IsFresh(|projects.value|, projectsCachedAt, now)
      ensures r.Some? ==> r == projects
    {
      if projects.Some? && IsFresh(|projects.value|, projectsCachedAt, now) then projects else None
    }

    /** Extension: the expiring read of one project's tasks; each key has its own clock. */
    function FreshProjectTasks(projectId: string, now: int): (r: Option<seq<Task>>)
      reads this
      ensures r.Some? <==> projectId in projectTasks &&
                           IsFresh(|projectTasks[projectId].data|, projectTasks[projectId].cachedAt, now)
      ensures r.Some? ==> r == GetProjectTasks(projectId)
    {
      if projectId in projectTasks && IsFresh(|projectTasks[projectId].data|, projectTasks[projectId].cachedAt, now)
      then Some(projectTasks[projectId].data)
      else None
    }

    method SetEntries(es: Option<seq<Entry>>, now: int)
      modifies this
      ensures GetEntries() == es && entriesCachedAt == now
      ensures projects == old(projects) && projectTasks == old(projectTasks)
      ensures projectsCachedAt == old(projectsCachedAt) && minTilExpired == old(minTilExpired)
      ensures forall t :: FreshEntries(t) == if es.Some? && |es.value| > 0 && t - now < minTilExpired then es else None
    {
      entries := es;
      entriesCachedAt := now;
    }

    method SetProjects(ps: Option<seq<Project>>, now: int)
      modifies this
      ensures GetProjects() == ps && projectsCachedAt == now
      ensures entries == old(entries) && projectTasks == old(projectTasks)
      ensures entriesCachedAt == old(entriesCachedAt) && minTilExpired == old(minTilExpired)
      ensures forall t :: FreshProjects(t) == if ps.Some? && |ps.value| > 0 && t - now < minTilExpired then ps else None
    {
      projects := ps;
      projectsCachedAt := now;
    }

    /** Stores the list under `projectId` only: every other key reads as before. */
    method SetProjectTasks(projectId: string, tasks: seq<Task>, now: int)
      modifies this
      ensures GetProjectTasks(projectId) == Some(tasks)
      ensures forall k :: k != projectId ==> GetProjectTasks(k) == old(GetProjectTasks(k))
      ensures projectTasks == old(projectTasks)[projectId := CachedItem(tasks, now)]
      ensures entries == old(entries) && projects == old(projects)
      ensures entriesCachedAt == old(entriesCachedAt) && projectsCachedAt == old(projectsCachedAt)
      ensures minTilExpired == old(minTilExpired)
    {
      projectTasks := projectTasks[projectId := CachedItem(tasks, now)];
    }

    /** Extension: the new entry goes first; the old ones follow in their order. */
    method AddEntry(e: Entry, now: int)
      modifies this
      ensures entries == Some([e] + OrEmpty(old(entries)))
      ensures |entries.value| == |OrEmpty(old(entries))| + 1 && entries.value[0] == e
      ensures entries.value[1..] == OrEmpty(old(entries))
      ensures entriesCachedAt == now
      ensures projects == old(projects) && projectTasks == old(projectTasks)
      ensures projectsCachedAt == old(projectsCachedAt) && minTilExpired == old(minTilExpired)
    {
      var es := OrEmpty(entries);
      entries := Some([e] + es);
      entriesCachedAt := now;
      assert entries.value[1..] == es;
    }

    /** Extension: the new project goes last, unlike `AddEntry`. */
    method AddProject(p: Project, now: int)
      modifies this
      ensures projects == Some(OrEmpty(old(projects)) + [p])
      ensures |projects.value| == |OrEmpty(old(projects))| + 1 && projects.value[|projects.value| - 1] == p
      ensures projectsCachedAt == now
      ensures entries == old(entries) && projectTasks == old(projectTasks)
      ensures entriesCachedAt == old(entriesCachedAt) && minTilExpired == old(minTilExpired)
    {
      projects := Some(OrEmpty(projects) + [p]);
      projectsCachedAt := now;
    }

    /**
     * Extension: the first entry with the same id is replaced where it stands.
     * With no such entry nothing changes, not even the timestamp.
     */
    method UpdateEntry(e: Entry, now: int)
      modifies this
      ensures var es := OrEmpty(old(entries));
        (forall j :: 0 <= j < |es| ==> es[j].id != e.id) ==>
          entries == old(entries) && entriesCachedAt == old(entriesCachedAt)
      ensures var es := OrEmpty(old(entries));
        (exists j :: 0 <= j < |es| && es[j].id == e.id) ==>
          exists i :: IsFirstMatch(es, e.id, i) && entries == Some(es[i := e]) && entriesCachedAt == now
      ensures projects == old(projects) && projectTasks == old(projectTasks)
      ensures projectsCachedAt == old(projectsCachedAt) && minTilExpired == old(minTilExpired)
    {
      var es := OrEmpty(entries);
      var i := 0;
      while i < |es|
        invariant 0 <= i <= |es|
        invariant forall j :: 0 <= j < i ==> es[j].id != e.id
      {
        if es[i].id == e.id {
          entries := Some(es[i := e]);
          entriesCachedAt := now;
          assert IsFirstMatch(es, e.id, i);
          return;
        }
        i := i + 1;
      }
    }

    /**
     * Extension: the first entry with the id is removed and the rest keep their
     * order. With no such entry nothing changes, not even the timestamp.
     */
    method DeleteEntry(id: string, now: int)
      modifies this
      ensures var es := OrEmpty(old(entries));
        (forall j :: 0 <= j < |es| ==> es[j].id != id) ==>
          entries == old(entries) && entriesCachedAt == old(entriesCachedAt)
      ensures var es := OrEmpty(old(entries));
        (exists j :: 0 <= j < |es| && es[j].id == id) ==>
          exists i :: IsFirstMatch(es, id, i) && entries == Some(RemoveAt(es, i)) && entriesCachedAt == now
      ensures projects == old(projects) && projectTasks == old(projectTasks)
      ensures projectsCachedAt == old(projectsCachedAt) && minTilExpired == old(minTilExpired)
    {
      var es := OrEmpty(entries);
      var i := 0;
      while i < |es|
        invariant 0 <= i <= |es|
        invariant forall j :: 0 <= j < i ==> es[j].id != id
      {
        if es[i].id == id {
          entries := Some(RemoveAt(es, i));
          entriesCachedAt := now;
          assert IsFirstMatch(es, id, i);
          return;
        }
        i := i + 1;
      }
    }

    /** Extension: the next read of the entries is nil. */
    method InvalidateEntries()
      modifies this
      ensures GetEntries().None? && forall t :: FreshEntries(t).None?
      ensures projects == old(projects) && projectTasks == old(projectTasks)
      ensures projectsCachedAt == old(projectsCachedAt) && minTilExpired == old(minTilExpired)
    {
      entries := None;
    }

    /** Extension: the next read of the projects is nil. */
    method InvalidateProjects()
      modifies this
      ensures GetProjects().None? && forall t :: FreshProjects(t).None?
      ensures entries == old(entries) && projectTasks == old(projectTasks)
      ensures entriesCachedAt == old(entriesCachedAt) && minTilExpired == old(minTilExpired)
    {
      projects := None;
    }

    /** Extension: the next read of this project's tasks is nil; other projects keep theirs. */
    method InvalidateProjectTasks(projectId: string)
      modifies this
      ensures GetProjectTasks(projectId).None?
      ensures forall k :: k != projectId ==> GetProjectTasks(k) == old(GetProjectTasks(k))
      ensures projectTasks == old(projectTasks) - {projectId}
      ensures entries == old(entries) && projects == old(projects)
      ensures entriesCachedAt == old(entriesCachedAt) && projectsCachedAt == old(projectsCachedAt)
      ensures minTilExpired == old(minTilExpired)
    {
      projectTasks := projectTasks - {projectId};
    }
  }
}
