/**
 * The views' decision rules around the store: the drag payload the item
 * attaches, the list's hover test and drop request, the per-list status
 * filter the list's listener applies, and the item's people caption.
 */
module App {
  import opened Wrappers
  import opened Text
  import opened ProjectModel
  import opened ProjectStore

  /** The payload kind the item writes and the list accepts. */
  const PlainText: string := "text/plain"

  /** `"active" | "finished"`: which bucket a `ProjectList` shows. */
  datatype ListType = ActiveList | FinishedList

  /** The status a list stands for: the one it filters by and the one a drop on it requests. */
  function TargetStatus(t: ListType): (s: ProjectStatus)
    ensures s == Active <==> t == ActiveList
    ensures s == Finished <==> t == FinishedList
  {
    match t
    case ActiveList => Active
    case FinishedList => Finished
  }

  /** Each status belongs to exactly one list. */
  lemma TargetStatusBijective(s: ProjectStatus)
    ensures TargetStatus(ActiveList) != TargetStatus(FinishedList)
    ensures TargetStatus(ActiveList) == s || TargetStatus(FinishedList) == s
  {
  }

  /** `projects.filter(prj => prj.status === s)`. */
  function Filter(ps: seq<ProjectData>, s: ProjectStatus): (r: seq<ProjectData>)
    ensures |r| <= |ps|
    ensures forall x :: x in r ==> x in ps && x.status == s
    ensures forall k :: 0 <= k < |ps| && ps[k].status == s ==> ps[k] in r
  {
    if ps == [] then []
    else if ps[0].status == s then [ps[0]] + Filter(ps[1..], s)
    else Filter(ps[1..], s)
  }

  /** The filter keeps store order: filtering a concatenation concatenates the filtered parts. */
  lemma {:induction false} FilterAppend(a: seq<ProjectData>, b: seq<ProjectData>, s: ProjectStatus)
    ensures Filter(a + b, s) == Filter(a, s) + Filter(b, s)
  {
    if a != [] {
      assert (a + b)[1..] == a[1..] + b;
      FilterAppend(a[1..], b, s);
    } else {
      assert a + b == b;
    }
  }

  /** The active and the finished list together hold every project of the snapshot exactly once. */
  lemma {:induction false} FilterPartition(ps: seq<ProjectData>)
    ensures multiset(Filter(ps, Active)) + multiset(Filter(ps, Finished)) == multiset(ps)
    ensures |Filter(ps, Active)| + |Filter(ps, Finished)| == |ps|
  {
    if ps != [] {
      var rest := ps[1..];
      FilterPartition(rest);
      assert ps == [ps[0]] + rest;
    }
  }

  /** A project of the snapshot is shown by exactly the list whose status it has. */
  lemma ShownByItsList(ps: seq<ProjectData>, k: nat, t: ListType)
    requires k < |ps|
    ensures ps[k] in Filter(ps, TargetStatus(t)) <==> ps[k].status == TargetStatus(t)
  {
  }

  /** The platform's drag data store: (format, data) entries in insertion order. */
  datatype DataTransfer = DataTransfer(items: seq<(string, string)>, effectAllowed: string)

  /** `dataTransfer.types`. */
  function Types(dt: DataTransfer): seq<string> {
    seq(|dt.items|, k requires 0 <= k < |dt.items| => dt.items[k].0)
  }

  function GetItem(items: seq<(string, string)>, format: string): string {
    if items == [] then ""
    else if items[0].0 == format then items[0].1
    else GetItem(items[1..], format)
  }

  function RemoveFormat(items: seq<(string, string)>, format: string): (r: seq<(string, string)>)
    ensures forall k :: 0 <= k < |r| ==> r[k].0 != format
  {
    if items == [] then []
    else if items[0].0 == format then RemoveFormat(items[1..], format)
    else [items[0]] + RemoveFormat(items[1..], format)
  }

  /** `dataTransfer.getData(format)`: the stored data, or the empty string when none is stored. */
  function GetData(dt: DataTransfer, format: string): string {
    GetItem(dt.items, format)
  }

  /** `dataTransfer.setData(format, data)`: replaces any entry of that format by a new last entry. */
  function SetData(dt: DataTransfer, format: string, data: string): DataTransfer {
    dt.(items := RemoveFormat(dt.items, format) + [(format, data)])
  }

  lemma {:induction false} GetItemRemoved(items: seq<(string, string)>, format: string, other: string)
    requires other != format
    ensures GetItem(RemoveFormat(items, format), other) == GetItem(items, other)
  {
    if items != [] {
      GetItemRemoved(items[1..], format, other);
    }
  }

  lemma {:induction false} GetItemAppend(items: seq<(string, string)>, extra: seq<(string, string)>, format: string)
    requires forall k :: 0 <= k < |items| ==> items[k].0 != format
    ensures GetItem(items + extra, format) == GetItem(extra, format)
  {
    if items != [] {
      assert (items + extra)[1..] == items[1..] + extra;
      GetItemAppend(items[1..], extra, format);
    } else {
      assert items + extra == extra;
    }
  }

  lemma {:induction false} GetItemAppendOther(items: seq<(string, string)>, format: string, data: string, other: string)
    requires other != format
    ensures GetItem(items + [(format, data)], other) == GetItem(items, other)
  {
    if items != [] {
      assert (items + [(format, data)])[1..] == items[1..] + [(format, data)];
      GetItemAppendOther(items[1..], format, data, other);
    }
  }

  /** `getData` returns what `setData` stored under that format and leaves other formats as they were. */
  lemma SetThenGet(dt: DataTransfer, format: string, data: string, other: string)
    ensures GetData(SetData(dt, format, data), format) == data
    ensures other != format ==> GetData(SetData(dt, format, data), other) == GetData(dt, other)
  {
    GetItemAppend(RemoveFormat(dt.items, format), [(format, data)], format);
    if other != format {
      GetItemAppendOther(RemoveFormat(dt.items, format), format, data, other);
      GetItemRemoved(dt.items, format, other);
    }
  }

  /** `setData` moves its format to the end of `types`, after the other formats in their old order. */
  lemma TypesSetData(dt: DataTransfer, format: string, data: string)
    ensures Types(SetData(dt, format, data)) == Types(dt.(items := RemoveFormat(dt.items, format))) + [format]
    ensures format !in Types(dt.(items := RemoveFormat(dt.items, format)))
  {
  }

  /** `ProjectItem.dragStartHandler`: attaches the project's id as plain text and allows a move. */
  function DragStart(project: ProjectData, dt: DataTransfer): (r: DataTransfer)
    ensures GetData(r, PlainText) == project.id
    ensures forall other :: other != PlainText ==> GetData(r, other) == GetData(dt, other)
    ensures r.effectAllowed == "move"
  {
    SetThenGet(dt, PlainText, project.id, PlainText);
    assert forall other :: other != PlainText ==> GetData(SetData(dt, PlainText, project.id), other) == GetData(dt, other) by {
      forall other | other != PlainText
        ensures GetData(SetData(dt, PlainText, project.id), other) == GetData(dt, other)
      {
        SetThenGet(dt, PlainText, project.id, other);
      }
    }
    SetData(dt, PlainText, project.id).(effectAllowed := "move")
  }

  /** A drag event; `dataTransfer` may be absent. */
  datatype DragEvent = DragEvent(dataTransfer: Option<DataTransfer>)

  /** The hover test of `dragOverHandler`: the first payload type is plain text. */
  predicate AcceptsHover(event: DragEvent): (r: bool)
    ensures r ==> event.dataTransfer.Some? && |event.dataTransfer.value.items| > 0 &&
                  GetData(event.dataTransfer.value, PlainText) == event.dataTransfer.value.items[0].1
  {
    event.dataTransfer.Some? && |Types(event.dataTransfer.value)| > 0 &&
    Types(event.dataTransfer.value)[0] == PlainText
  }

  /**
   * The drag handshake round trip: the payload an item attaches to a fresh gesture is
   * accepted on hover, and reading it on drop yields that item's id.
   */
  lemma DragPayloadRoundTrip(project: ProjectData, dt: DataTransfer)
    requires dt.items == []
    ensures AcceptsHover(DragEvent(Some(DragStart(project, dt))))
    ensures GetData(DragStart(project, dt), PlainText) == project.id
  {
    SetThenGet(dt, PlainText, project.id, PlainText);
  }

  /**
   * Only the first type is checked: an item's own payload is rejected on hover when the
   * gesture's data store already held another format first.
   */
  lemma OwnPayloadBehindOtherFormatRejected(project: ProjectData, dt: DataTransfer)
    requires |dt.items| > 0 && dt.items[0].0 != PlainText
    ensures !AcceptsHover(DragEvent(Some(DragStart(project, dt))))
  {
    assert RemoveFormat(dt.items, PlainText)[0] == dt.items[0];
  }

  /** A payload without types, or whose first type is another kind, is never accepted. */
  lemma OtherKindRejected(dt: DataTransfer)
    requires dt.items == [] || dt.items[0].0 != PlainText
    ensures !AcceptsHover(DragEvent(Some(dt))) && !AcceptsHover(DragEvent(None))
  {
  }

  /** `ProjectItem.persons`: "1 person", otherwise the number followed by " persons". */
  function Persons(people: int): (caption: string)
    ensures |caption| > 0 && (caption[|caption| - 1] == 's' <==> people != 1)
  {
    if people == 1 then "1 person" else IntToString(people) + " persons"
  }

  /** The caption starts with the number and is plural exactly when the number is not one. */
  lemma PersonsCaption(people: int)
    ensures Persons(people) == IntToString(people) + " person" + (if people == 1 then "" else "s")
    ensures Persons(people)[|Persons(people)| - 1] == 's' <==> people != 1
  {
    assert IntToString(1) == "1" by {
      assert NatToString(1) == [DigitChar(1)];
    }
  }

  /** A bucket view: its list type, the store it talks to, the projects it shows and its drop marker. */
  class ProjectList {
    const listType: ListType
    const state: ProjectState
    /** The handle of the listener this list registered with the store. */
    const handle: ListenerId
    var assignedProjects: seq<ProjectData>
    var droppable: bool

    /** Starts empty and, as `configure` does, registers its listener with the store. */
    constructor (listType: ListType, state: ProjectState, listener: ListenerId)
      modifies state`listeners
      ensures this.listType == listType && this.state == state && this.handle == listener
      ensures assignedProjects == [] && !droppable
      ensures state.listeners == old(state.listeners) + [listener]
    {
      this.listType := listType;
      this.state := state;
      this.handle := listener;
      assignedProjects := [];
      droppable := false;
      new;
      state.AddListener(listener);
    }

    /** `dragOverHandler`: accepts (prevents the default) and marks the list exactly when the payload is plain text. */
    method DragOver(event: DragEvent) returns (accepted: bool)
      modifies this`droppable
      ensures accepted <==> AcceptsHover(event)
      ensures droppable == (old(droppable) || accepted)
    {
      accepted := false;
      if event.dataTransfer.Some? && |Types(event.dataTransfer.value)| > 0 && Types(event.dataTransfer.value)[0] == PlainText {
        accepted := true;
        droppable := true;
      }
    }

    /** `dragLeaveHandler`: always clears the marker. */
    method DragLeave()
      modifies this`droppable
      ensures !droppable
    {
      droppable := false;
    }

    /** `dropHandler`: asks the store to move the payload's project to this list's status. */
    method Drop(event: DragEvent)
      requires event.dataTransfer.Some?
      requires state.Valid()
      modifies state`log, state.projects
      ensures state.Valid() && state.projects == old(state.projects)
      ensures state.Snapshot() == Moved(old(state.Snapshot()), GetData(event.dataTransfer.value, PlainText), TargetStatus(listType))
      ensures state.log == old(state.log) +
        if Changes(old(state.Snapshot()), GetData(event.dataTransfer.value, PlainText), TargetStatus(listType))
        then Round(state.listeners, state.Snapshot()) else []
    {
      var projectId := GetData(event.dataTransfer.value, PlainText);
      state.MoveProject(projectId, if listType == ActiveList then Active else Finished);
    }

    /** The body of the listener registered in `configure`: keep the projects of this list's status. */
    method Receive(items: seq<ProjectData>)
      modifies this`assignedProjects
      ensures assignedProjects == Filter(items, TargetStatus(listType))
    {
      assignedProjects := Filter(items, if listType == ActiveList then Active else Finished);
    }
  }

  /**
   * The application wiring: the single store, then the active and the finished list
   * subscribing in that order, with the given listener handles.
   */
  method StartApp(activeHandle: ListenerId, finishedHandle: ListenerId)
    returns (state: ProjectState, activeList: ProjectList, finishedList: ProjectList)
    ensures fresh(state) && fresh(activeList) && fresh(finishedList)
    ensures activeList.state == state && activeList.listType == ActiveList && activeList.handle == activeHandle
    ensures finishedList.state == state && finishedList.listType == FinishedList && finishedList.handle == finishedHandle
    ensures state.Valid() && state.projects == [] && state.log == []
    ensures state.listeners == [activeList.handle, finishedList.handle]
  {
    var statics := new ProjectStateStatics();
    state := statics.GetInstance();
    activeList := new ProjectList(ActiveList, state, activeHandle);
    finishedList := new ProjectList(FinishedList, state, finishedHandle);
  }

  /**
   * One drag gesture of `item` onto `list` on a fresh payload: the item attaches its id,
   * the list accepts the hover and, on drop, asks the store to move that id to its status.
   */
  method Gesture(item: ProjectData, list: ProjectList) returns (accepted: bool)
    requires list.state.Valid()
    modifies list`droppable, list.state`log, list.state.projects
    ensures accepted && list.droppable
    ensures list.state.Valid() && list.state.projects == old(list.state.projects)
    ensures list.state.Snapshot() == Moved(old(list.state.Snapshot()), item.id, TargetStatus(list.listType))
    ensures list.state.log == old(list.state.log) +
      if Changes(old(list.state.Snapshot()), item.id, TargetStatus(list.listType))
      then Round(list.state.listeners, list.state.Snapshot()) else []
  {
    var payload := DragStart(item, DataTransfer([], "none"));
    DragPayloadRoundTrip(item, DataTransfer([], "none"));
    var event := DragEvent(Some(payload));
    accepted := list.DragOver(event);
    list.Drop(event);
  }

  /**
   * The end-to-end scenario: the lists of `StartApp` with listener handles `activeHandle`
   * and `finishedHandle`, a new project, then a drag of it onto the finished list.
   * The project ends `Finished` with its other fields unchanged, after two notification
   * rounds, each to the active list's listener first and the finished list's second.
   */
  method DropScenario(id: string, title: string, description: string, people: int,
                      activeHandle: ListenerId, finishedHandle: ListenerId)
    returns (created: seq<ProjectData>, accepted: bool, moved: seq<ProjectData>, ghost calls: seq<Notification>)
    ensures created == [ProjectData(id, title, description, people, Active)]
    ensures accepted
    ensures moved == [ProjectData(id, title, description, people, Finished)]
    ensures calls == [Notification(0, activeHandle, created), Notification(1, finishedHandle, created),
                      Notification(0, activeHandle, moved), Notification(1, finishedHandle, moved)]
  {
    var state, activeList, finishedList := StartApp(activeHandle, finishedHandle);
    state.AddProject(id, title, description, people);
    created := state.Snapshot();
    assert created == [ProjectData(id, title, description, people, Active)];
    ghost var firstRound := state.log;
    assert firstRound == [Notification(0, activeHandle, created), Notification(1, finishedHandle, created)];

    MovedFirstMatch(created, id, Finished, 0);
    assert Moved(created, id, Finished) == [ProjectData(id, title, description, people, Finished)];
    accepted := Gesture(created[0], finishedList);
    moved := state.Snapshot();
    calls := state.log;
    assert calls == firstRound + Round([activeHandle, finishedHandle], moved);
  }
}
