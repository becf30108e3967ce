# dragndrop project tracker: the store and its drag-and-drop rules, in Dafny

This project models the core of a small browser project tracker. `ProjectState` is a
single store. It keeps an ordered list of projects and an append-only list of
listeners. After every change it calls each listener, in registration order, with a
copy of the list. Around the store sit short decision rules:

- `validate`, the input validator;
- the drag payload an item attaches;
- the list's hover test and the status its drop requests;
- the filter each list's listener applies;
- the "persons" caption.

Modules:

- `Wrappers` (`wrappers.dfy`): `Option`, for optional properties and `Array.find`.
- `Text` (`text.dfy`): JavaScript `trim`, the UTF-16 `length`, and the decimal
  rendering of an integral number, with its round trip.
- `ProjectModel` (`project_model.dfy`): `ProjectStatus`, and the `Project` object whose
  `status` the store writes in place. `ProjectData` is the value of its fields.
- `ProjectStore` (`project_state.dfy`): the class `ProjectState` with fields
  `listeners`, `projects` and a ghost `log` of every listener call. Next to it are the
  value-level functions that specify its operations: `FindIndex` (the `find`), `Moved`,
  `Changes` and `Round`, with lemmas about them. `ProjectStateStatics` holds the static
  `instance`.
- `Validation` (`validation.dfy`): `Validate`, the chain of `if`s, is proved equal to the
  predicate `IsValid`, and lemmas state what `IsValid` accepts.
- `App` (`app.dfy`): the `ProjectList` view class (hover, leave, drop, listener body),
  the drag data store operations `setData`/`getData`, the payload, the
  status filter, `persons`, and the application wiring with the end-to-end drop scenario.

`src/state/project-state.ts` and the copy of `ProjectState` in `app.ts` (lines 10-53) are
the same code. The table cites the former.

Three facts about the code shape the model:

- Project ids come from `Math.random()`, so the code does not guarantee that they are
  unique. `moveProject` changes the first project with the id. `AddProject` takes the id as
  a parameter and does not require it to be fresh. `FreshIdKeepsUnique` states when
  uniqueness is kept.
- The list accepts on `dragover`, with no separate hover-enter step. The drop handler does
  not check the payload kind itself.
- The droppable marker is modelled as written: `dropHandler` never clears it and no
  `dragleave` follows a `drop`, so after a drop the list stays marked (`Gesture` ends with
  `droppable` set).

## Model

| member | source | states |
|---|---|---|
| ProjectModel.Project.constructor | src/state/project-state.ts:24-30 | a new project object holds exactly the id, title, description, people and status it was constructed with |
| ProjectStore.ProjectState.constructor | src/state/project-state.ts:6-10 | a new store has no projects, no listeners and has notified nobody |
| ProjectStore.ProjectStateStatics.constructor | src/state/project-state.ts:8 | before the first access there is no instance |
| ProjectStore.ProjectStateStatics.GetInstance | src/state/project-state.ts:12-17 | the first call creates an empty store; every later call returns that same store |
| ProjectStore.ProjectState.AddListener | src/state/project-state.ts:19-21 | the listener is appended at the end, without de-duplication; nothing is removed and nothing else changes |
| ProjectStore.ProjectState.AddProject | src/state/project-state.ts:23-33 | exactly one new project object at the end, with the given fields and status Active; earlier projects are unchanged; then exactly one notification round over all listeners with the new list |
| ProjectStore.ProjectState.MoveProject | src/state/project-state.ts:35-41 | the list becomes `Moved` of the old list; the same objects stay in the same order; one notification round exactly when `Changes` holds, none otherwise |
| ProjectStore.ProjectState.UpdateListeners | src/state/project-state.ts:43-47 | one call per registered listener, in registration order, each with the current list |
| ProjectStore.ProjectState.Snapshot | src/state/project-state.ts:45 | definition: the field values of `projects.slice()`, in store order, which `AddProject` and `MoveProject` are proved against |
| ProjectStore.FindIndex | src/state/project-state.ts:36 | returns the first index whose project has the id, and None exactly when no project has it |
| ProjectStore.FindIndexByIds | src/state/project-state.ts:36 | the lookup depends only on the sequence of ids |
| ProjectStore.MovedUnknownId | src/state/project-state.ts:36-37 | an id that no project has leaves the list unchanged and triggers no notification |
| ProjectStore.MovedFirstMatch | src/state/project-state.ts:36-38 | only the status of the first project with the id changes. Length, order, its other fields and all other projects stay the same. A notification fires exactly when its status differed |
| ProjectStore.Moved | src/state/project-state.ts:36-38 | the moved list has the same length, every entry keeps all fields but possibly its status, and entries with another id are unchanged |
| ProjectStore.Changes | src/state/project-state.ts:37-39 | a notification fires if and only if the move changes the list, so a move to the current status is silent |
| ProjectStore.MovedKeepsIds | src/state/project-state.ts:38 | a move never changes the ids or their order |
| ProjectStore.MovedIdempotent | src/state/project-state.ts:37-38 | repeating a move changes nothing more and does not notify |
| ProjectStore.MoveBackRestores | src/state/project-state.ts:35-40 | moving a project and then moving it back to its old status restores the list |
| ProjectStore.FreshIdKeepsUnique | src/state/project-state.ts:24-31 | appending a project whose id is not stored keeps all ids distinct |
| ProjectStore.Round | src/state/project-state.ts:44-45 | definition: the closed form of one fan-out (call k to the k-th registered listener, all with the same list) that `UpdateListeners` is proved to append |
| Text.LeadingWhitespace | app.ts:69 | counts exactly the whitespace prefix that `trim` removes at the start |
| Text.TrailingWhitespaceStart | app.ts:69 | finds exactly the whitespace suffix that `trim` removes at the end |
| Text.Trim | app.ts:69 | the trimmed text is a contiguous part of the input; only whitespace was removed before and after it, and it neither starts nor ends with whitespace |
| Text.TrimEmptyIff | app.ts:69 | `trim` gives the empty string exactly when every character is whitespace |
| Text.Utf16Length | app.ts:69 | the UTF-16 length is between one and two units per character, and zero only for the empty string |
| Text.NatToString | app.ts:154 | the rendering is a non-empty digit string without a leading zero |
| Text.NatToStringRoundTrip | app.ts:154 | reading the digits back gives the number |
| Text.IntToString | app.ts:154 | a minus sign is present exactly for negative numbers |
| Text.IntToStringNotBlank | app.ts:69 | a rendered number is never all whitespace |
| Validation.ValueText | app.ts:69 | a string's text is the string itself; a number's text is never all whitespace |
| Validation.IsValid | app.ts:66-98 | a valid required string is not all whitespace, and an input without constraints is valid |
| Validation.Validate | app.ts:66-98 | the chain of checks returns true exactly when every applicable check holds |
| Validation.UnconstrainedIsValid | app.ts:67-97 | with no constraint set, every value is valid |
| Validation.RequiredIff | app.ts:68-70 | `required` rejects exactly the strings that are all whitespace; numbers always pass it |
| Validation.RequiredBlankFails | app.ts:68-70 | a required string whose trimmed form is empty fails |
| Validation.LengthBoundsStrict | app.ts:71-84 | a passing string is strictly longer than `minLength` and strictly shorter than `maxLength` |
| Validation.LengthAtBoundFails | app.ts:71-84 | a string whose length equals a length bound fails |
| Validation.LengthIgnoredForNumbers | app.ts:71-84 | length constraints never affect a number |
| Validation.NumberBoundsStrict | app.ts:85-96 | a passing number is strictly above `min` and strictly below `max` |
| Validation.NumberBoundsIgnoredForStrings | app.ts:85-96 | numeric bounds never affect a string |
| Validation.AddingConstraintsNeverValidates | app.ts:67-97 | the result is a conjunction, so adding constraints never turns a rejection into an acceptance |
| App.TargetStatus | app.ts:217 | the active list stands for Active and the finished list for Finished, the same mapping as the filter at lines 249-253 |
| App.TargetStatusBijective | app.ts:249-253 | the two lists stand for different statuses, and every status belongs to one of them |
| App.Filter | app.ts:248-254 | every kept project has the list's status and comes from the snapshot; every project of the snapshot with that status is kept |
| App.FilterAppend | app.ts:248-254 | the filter keeps store order |
| App.FilterPartition | app.ts:247-255 | the active and the finished lists together hold every project of the snapshot exactly once |
| App.ShownByItsList | app.ts:248-254 | a project is shown by a list if and only if it has that list's status |
| App.TypesSetData | app.ts:166 | after `setData` its format is the last of the payload types, after the other formats in their old order, and appears once |
| App.SetThenGet | app.ts:166 | `getData` returns what `setData` stored under that format and leaves other formats as they were |
| App.DragStart | app.ts:165-168 | the payload carries the project's id under text/plain, other formats are untouched, and the allowed effect is move |
| App.AcceptsHover | app.ts:206 | an accepted hover has a payload whose first entry is the text/plain entry, so the drop reads that entry's data as the id |
| App.DragPayloadRoundTrip | app.ts:166-216 | the payload an item attaches to a fresh gesture passes the hover test, and reading it on drop gives the item's id |
| App.OwnPayloadBehindOtherFormatRejected | app.ts:206 | only the first type is tested: an item's own payload is rejected when another format was stored first |
| App.OtherKindRejected | app.ts:206 | a missing payload, an empty one, or one whose first type is another kind is not accepted |
| App.Persons | app.ts:153-155 | the caption is non-empty and ends in "s" exactly when the number of people is not one |
| App.PersonsCaption | app.ts:153-155 | the caption is the number followed by " person", plural exactly when the number is not one |
| App.ProjectList.constructor | app.ts:195-202 | a new list shows nothing, is not marked, keeps its listener handle, and registers that handle at the end of the store's listeners |
| App.ProjectList.DragOver | app.ts:204-212 | the default is prevented and the list marked droppable if and only if the payload's first type is text/plain; otherwise the marker is untouched |
| App.ProjectList.DragLeave | app.ts:219-223 | the droppable marker is always cleared |
| App.ProjectList.Drop | app.ts:214-218 | the store moves the payload's text/plain data, used as the id, to Active on the active list and Finished on the finished list |
| App.ProjectList.Receive | app.ts:247-257 | the list keeps exactly the snapshot's projects of its status, in store order |
| App.StartApp | app.ts:344-346 | creates one empty store and the two lists on it; the store's listeners are the active list's handle followed by the finished list's |
| App.Gesture | app.ts:165-218 | dragging an item onto a list on a fresh payload is accepted and moves that item's id to the list's status |
| App.DropScenario | app.ts:28-51 | create a project and drop it on the finished list: it starts Active and ends Finished with the same id, title, description and people. Each of the two notification rounds calls the active list's handle first and the finished list's second |

## Left out

- Rendering and the DOM are not modelled: the `Component` base class, `attach`,
  `renderContent`, `renderProjects`, `querySelector`, `classList`, `innerHTML` and
  `insertAdjacentElement`. The droppable CSS class is the boolean `droppable`.
- The `Autobind` decorator only binds `this` and has no behaviour to model.
- `ProjectInput` and `src/components/project-input.ts` are left out: they read the form,
  call `alert` and `console.log`, and call `validate`, which is modelled.
- `dragEndHandler` does nothing and is not modelled.
- Ids from `Math.random().toString()` are not modelled; the id is a parameter of `AddProject`.
- Numbers are integers. Fractions, NaN, infinities, `+enteredPeople`, and `toString`'s
  exponent form for magnitudes of 10^21 and above are not modelled.
- The store does not run listener bodies. Each call is recorded in the ghost `log` as
  (position, listener handle, list). The body of the lists' listener is
  `ProjectList.Receive`; it is stated separately here, and the store does not call it.
- `slice()` copies references, so in the source a list received earlier sees later status
  changes to the same project objects. Listeners here receive the field values at the
  moment of the call.
- The platform delivers `drop` only after an accepted `dragover`. That rule is the
  browser's and is not modelled; `Gesture` composes the two handlers on an accepted payload.
- App.DragStart: takes the gesture's `DataTransfer` as given. The source's non-null
  assertions on `event.dataTransfer` would throw a TypeError for a dragstart without one,
  and that exception is not modelled.
- ProjectList.Drop: requires the event to carry a `dataTransfer`. The source's non-null
  assertion would throw a TypeError otherwise, and that exception is not modelled.
- Strings are sequences of Unicode scalar values, so JavaScript strings holding lone UTF-16
  surrogates cannot be represented; `Utf16Length` counts the others exactly.
- `setData`'s lower-casing of the format and the other `DataTransfer` members are not
  modelled.
- `project-model.ts` is not modelled from its text; `ProjectModel` rebuilds its shape from how
  `app.ts` and `src/state/project-state.ts` construct and read projects. Fields other than
  `status` are constants here, because the core never writes them.
