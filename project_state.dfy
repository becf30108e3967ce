/**
 * The project store (`ProjectState`): an ordered list of projects, an
 * append-only list of listeners, and the fan-out that hands every listener a
 * copy of the list after each change.
 */
module ProjectStore {
  import opened Wrappers
  import opened ProjectModel

  /** A registered listener callback, identified by an opaque handle. */
  type ListenerId = nat

  /** One listener call: the listener's position in registration order, the listener, and the list it received. */
  datatype Notification = Notification(position: nat, listener: ListenerId, items: seq<ProjectData>)

  /** `projects.find(prj => prj.id === id)`, as the index of the first project carrying `id`. */
  function FindIndex(ps: seq<ProjectData>, id: string): (r: Option<nat>)
    ensures r.Some? ==> r.value < |ps| && ps[r.value].id == id
    ensures r.Some? ==> forall j :: 0 <= j < r.value ==> ps[j].id != id
    ensures r.None? <==> forall j :: 0 <= j < |ps| ==> ps[j].id != id
  {
    if ps == [] then None
    else if ps[0].id == id then Some(0)
    else match FindIndex(ps[1..], id)
      case None => None
      case Some(j) => Some(j + 1)
  }

  /** The list after `moveProject(id, s)`: the first project with `id` gets status `s`. */
  function Moved(ps: seq<ProjectData>, id: string, s: ProjectStatus): (r: seq<ProjectData>)
    ensures |r| == |ps|
    ensures forall k :: 0 <= k < |ps| ==> r[k] == ps[k].(status := r[k].status)
    ensures forall k :: 0 <= k < |ps| && ps[k].id != id ==> r[k] == ps[k]
  {
    match FindIndex(ps, id)
    case None => ps
    case Some(i) => ps[i := ps[i].(status := s)]
  }

  /**
   * Whether `moveProject(id, s)` writes a status and notifies: a project carries `id` and
   * its status differs from `s`. That happens exactly when the move changes the list.
   */
  predicate Changes(ps: seq<ProjectData>, id: string, s: ProjectStatus): (r: bool)
    ensures r <==> Moved(ps, id, s) != ps
  {
    match FindIndex(ps, id)
    case None => false
    case Some(i) =>
      assert ps[i].status != s ==> Moved(ps, id, s)[i] != ps[i];
      ps[i].status != s
  }

  /** One round of notifications: every listener, in registration order, receives `items`. */
  function Round(ls: seq<ListenerId>, items: seq<ProjectData>): seq<Notification> {
    seq(|ls|, k requires 0 <= k < |ls| => Notification(k, ls[k], items))
  }

  function Ids(ps: seq<ProjectData>): seq<string> {
    seq(|ps|, k requires 0 <= k < |ps| => ps[k].id)
  }

  predicate UniqueIds(ps: seq<ProjectData>) {
    forall i, j :: 0 <= i < j < |ps| ==> ps[i].id != ps[j].id
  }

  /** The lookup depends on the ids alone. */
  lemma {:induction false} FindIndexByIds(ps: seq<ProjectData>, qs: seq<ProjectData>, id: string)
    requires Ids(ps) == Ids(qs)
    ensures FindIndex(ps, id) == FindIndex(qs, id)
  {
    if ps != [] {
      assert ps[0].id == Ids(ps)[0] == Ids(qs)[0] == qs[0].id;
      assert Ids(ps[1..]) == Ids(ps)[1..];
      assert Ids(qs[1..]) == Ids(qs)[1..];
      FindIndexByIds(ps[1..], qs[1..], id);
    }
  }

  /** Moving never changes which ids are stored, nor their order. */
  lemma MovedKeepsIds(ps: seq<ProjectData>, id: string, s: ProjectStatus)
    ensures Ids(Moved(ps, id, s)) == Ids(ps)
  {
  }

  /** An unknown id leaves the list as it is. */
  lemma MovedUnknownId(ps: seq<ProjectData>, id: string, s: ProjectStatus)
    requires forall j :: 0 <= j < |ps| ==> ps[j].id != id
    ensures Moved(ps, id, s) == ps && !Changes(ps, id, s)
  {
  }

  /**
   * The move changes exactly the status of the first project with `id`:
   * length, order, that project's other fields and every other project stay as they were.
   */
  lemma MovedFirstMatch(ps: seq<ProjectData>, id: string, s: ProjectStatus, i: nat)
    requires i < |ps| && ps[i].id == id
    requires forall j :: 0 <= j < i ==> ps[j].id != id
    ensures |Moved(ps, id, s)| == |ps|
    ensures Moved(ps, id, s)[i] == ps[i].(status := s)
    ensures forall j :: 0 <= j < |ps| && j != i ==> Moved(ps, id, s)[j] == ps[j]
    ensures Changes(ps, id, s) <==> ps[i].status != s
  {
    assert FindIndex(ps, id) == Some(i);
  }

  /** Moving twice to the same status is the same as moving once. */
  lemma {:induction false} MovedIdempotent(ps: seq<ProjectData>, id: string, s: ProjectStatus)
    ensures Moved(Moved(ps, id, s), id, s) == Moved(ps, id, s)
    ensures !Changes(Moved(ps, id, s), id, s)
  {
    MovedKeepsIds(ps, id, s);
    FindIndexByIds(Moved(ps, id, s), ps, id);
  }

  /** Both statuses are mutually reachable: moving back to the old status restores the list. */
  lemma {:induction false} MoveBackRestores(ps: seq<ProjectData>, id: string, s: ProjectStatus, i: nat)
    requires FindIndex(ps, id) == Some(i)
    ensures Moved(Moved(ps, id, s), id, ps[i].status) == ps
  {
    MovedKeepsIds(ps, id, s);
    FindIndexByIds(Moved(ps, id, s), ps, id);
  }

  /** Appending a project with an id not yet stored keeps the ids unique. */
  lemma FreshIdKeepsUnique(ps: seq<ProjectData>, p: ProjectData)
    requires UniqueIds(ps)
    requires FindIndex(ps, p.id).None?
    ensures UniqueIds(ps + [p])
  {
  }

  /** The store. Its `projects` objects are pairwise distinct: each was created by one `AddProject`. */
  class ProjectState {
    var listeners: seq<ListenerId>
    var projects: seq<Project>
    /** Every listener call made so far, in order. */
    ghost var log: seq<Notification>

    ghost predicate Valid()
      reads this`projects
    {
      forall i, j :: 0 <= i < j < |projects| ==> projects[i] != projects[j]
    }

    /** `projects.slice()`: the current fields of every stored project, in store order. */
    function Snapshot(): seq<ProjectData>
      reads this`projects, projects
    {
      var ps := projects;
      seq(|ps|, k requires 0 <= k < |ps| reads ps => ps[k].View())
    }

    /** The private constructor: no projects, no listeners, nothing notified. */
    constructor ()
      ensures Valid()
      ensures projects == [] && listeners == [] && log == []
    {
      listeners := [];
      projects := [];
      log := [];
    }

    /** `addListener`: appends, without de-duplication, and removes nothing. */
    method AddListener(listener: ListenerId)
      modifies this`listeners
      ensures listeners == old(listeners) + [listener]
    {
      listeners := listeners + [listener];
    }

    /**
     * `addProject` with the id supplied by the caller: one new `Active` project at the end,
     * earlier projects untouched, then exactly one notification round.
     */
    method AddProject(id: string, title: string, description: string, people: int)
      requires Valid()
      modifies this`projects, this`log
      ensures Valid()
      ensures |projects| == |old(projects)| + 1 && projects[..|old(projects)|] == old(projects)
      ensures fresh(projects[|projects| - 1])
      ensures Snapshot() == old(Snapshot()) + [ProjectData(id, title, description, people, Active)]
      ensures log == old(log) + Round(listeners, Snapshot())
    {
      var project := new Project(id, title, description, people, Active);
      projects := projects + [project];
      assert projects[..|old(projects)|] == old(projects);
      UpdateListeners();
    }

    /**
     * `moveProject`: sets the status of the first project with `id` in place; notifies once
     * when that changed anything, and not at all for an unknown id or an unchanged status.
     */
    method MoveProject(id: string, newStatus: ProjectStatus)
      requires Valid()
      modifies this`log, projects
      ensures Valid() && projects == old(projects)
      ensures Snapshot() == Moved(old(Snapshot()), id, newStatus)
      ensures log == old(log) + if Changes(old(Snapshot()), id, newStatus) then Round(listeners, Snapshot()) else []
    {
      match FindIndex(Snapshot(), id)
      case None =>
      case Some(i) =>
        var project := projects[i];
        if project.status != newStatus {
          ghost var before := Snapshot();
          project.status := newStatus;
          assert Snapshot() == before[i := before[i].(status := newStatus)];
          UpdateListeners();
        }
    }

    /** `updateListeners`: calls every listener in registration order, each with a copy of the list. */
    method UpdateListeners()
      modifies this`log
      ensures log == old(log) + Round(listeners, Snapshot())
    {
      var items := Snapshot();
      for k := 0 to |listeners|
        invariant log == old(log) + Round(listeners[..k], items)
      {
        log := log + [Notification(k, listeners[k], items)];
      }
      assert listeners[..|listeners|] == listeners;
    }
  }

  /** The static part of `ProjectState`: the lazily created single instance. */
  class ProjectStateStatics {
    var instance: ProjectState?

    constructor ()
      ensures instance == null
    {
      instance := null;
    }

    /** `getInstance`: creates the store on first use and returns that same store ever after. */
    method GetInstance() returns (store: ProjectState)
      modifies this
      ensures instance == store
      ensures old(instance) != null ==> store == old(instance)
      ensures old(instance) == null ==> fresh(store) && store.Valid()
      ensures old(instance) == null ==> store.projects == [] && store.listeners == [] && store.log == []
    {
      if instance == null {
        instance := new ProjectState();
      }
      store := instance;
    }
  }
}
