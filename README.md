# Task scheduler window: the task and marker state model

The window is an Eisenhower-matrix to-do list. It has twelve card containers:

- four category stacks: MostImportantUrgent, ImportantNotUrgent, UrgentNotImportant and NotImportantNotUrgent;
- an unfiled task pool;
- seven day panels, Monday to Sunday.

Several cards ("clones") can show one logical task. The window keeps three mutable collections:

- `taskMarkerStates`: task id to the list of progress markers that every clone of the task shows;
- `globalTaskInstances`: task id to the task's clone cards, in creation order;
- `_savedTasks`: the flat list of `TaskItem` records that is written to disk.

The event handlers work on these collections:

- adding a task from a category input box;
- ticking a marker, or adding one (at most three);
- deleting a card, either everywhere or only from a day panel;
- dropping a dragged task on a day panel or on the pool;
- rebuilding every card from the saved records at start-up;
- turning the containers back into records when saving.

The model is one class, `Scheduler.MainWindow`. Its fields are:

- the twelve containers, as a `Panels.Board` of card sequences;
- both dictionaries, as maps;
- the record list;
- the list last written to disk;
- the progress panel each card renders;
- a handle counter that gives each new card its identity.

A card (`Panels.Card`) is the handle of one visual clone plus the tag data it carries: task id, text and category. The invariants `Valid()` and `MarkersBounded()` are proved to be kept by every handler:

- every registered clone carries its list's task id;
- every registered clone renders its task's current marker list;
- every card in a container is a registered clone;
- no marker list grows beyond three.

The save and the rebuild are each proved against a specification function:

- `Records.Snapshot` is what a save produces;
- `Reload.Placements` says where a rebuild puts each card.

The two are tied together by the round trip `Reload.ReloadOfSnapshot`. Take a list that `SaveAllTasksToDisk` produced, that is a `Records.Snapshot`. Rebuilding the window from it and saving again gives the same list.

Two behaviours of the code shape the model:

- **DayPanel_Drop's record update has no lasting effect.** The upsert at MainWindow.xaml.cs:663-677 is overwritten, because `SaveAllTasksToDisk` at line 678 clears `_savedTasks` and rebuilds it from the containers. `Scheduler.MainWindow.DayPanel_Drop` therefore states the saved list as the snapshot, and proves that the snapshot holds the dropped task's record with the day's name.
- **Categories come from the containers when saving.** A stack card is saved under the stack's label (line 175). A day-panel card is saved under its own tag category (line 206). See `Records.PanelRecord`.

## Model

| member | source | states |
|---|---|---|
| Models.DefaultTaskItem | Models/TaskItem.cs:8-14 | A record built with no initialisers has the empty Guid, empty text, category and day ("no day"), and no markers; the `[false]` default is not the record's |
| Text.IsWhiteSpace | MainWindow.xaml.cs:313-314 | The characters Char.IsWhiteSpace accepts |
| Text.IsNullOrWhiteSpace | MainWindow.xaml.cs:314 | String.IsNullOrWhiteSpace on a non-null string: every character is whitespace |
| Text.TrimStartSpec | MainWindow.xaml.cs:313 | TrimStart keeps a suffix that does not start with whitespace, and every character it drops is whitespace |
| Text.TrimEndSpec | MainWindow.xaml.cs:313 | TrimEnd keeps a prefix that does not end with whitespace, and every character it drops is whitespace |
| Text.TrimSpec | MainWindow.xaml.cs:313 | String.Trim yields the slice of the input between its leading and trailing whitespace, which neither starts nor ends with whitespace |
| Text.TrimmedBlank | MainWindow.xaml.cs:313-314 | A trimmed text is null-or-whitespace exactly when it is empty, and that happens exactly when the input was whitespace only |
| Text.TrimIdempotent | MainWindow.xaml.cs:313 | Trimming an already trimmed text changes nothing |
| Text.TrimStart | MainWindow.xaml.cs:313 | Dropping leading whitespace never lengthens the text |
| Text.TrimEnd | MainWindow.xaml.cs:313 | Dropping trailing whitespace never lengthens the text |
| Text.Trim | MainWindow.xaml.cs:313 | Trimming never lengthens the text |
| Scheduler.ReadTaskText | MainWindow.xaml.cs:313-315 | The input is accepted exactly when its trimmed text is neither empty nor the placeholder "Type your task here..."; the text kept is the trimmed one |
| Markers.Glyph | MainWindow.xaml.cs:462 | A ticked marker shows a filled circle, an unticked one an empty circle |
| Markers.AllTicked | MainWindow.xaml.cs:495 | The strike-through rule: at least one marker, and every marker ticked |
| Markers.ProgressView | MainWindow.xaml.cs:456-497 | The rendering rule: a button per marker with its glyph and slot index, "+" below three markers, and the strike-through rule |
| Markers.BuildProgress | MainWindow.xaml.cs:454-497 | One marker button per marker, in slot order, each with the filled or empty glyph of its marker and its slot index; the "+" button exactly when there are fewer than three markers; strike-through exactly when the list is non-empty and holds no unticked marker |
| Markers.ProgressViewShape | MainWindow.xaml.cs:458-495 | The rendered panel has one button per marker, "+" exactly below three, and strike-through exactly for a non-empty, fully ticked list |
| Markers.Toggled | MainWindow.xaml.cs:502-504 | Flipping slot `i` keeps the length, negates exactly slot `i` and keeps every other slot |
| Markers.ToggledTwice | MainWindow.xaml.cs:500-508 | Toggling one slot twice restores the marker list |
| Markers.ToggledStrike | MainWindow.xaml.cs:495-504 | Ticking the only unticked marker strikes the task through; unticking any marker of a struck-through task clears the strike-through |
| Markers.WithNewMarker | MainWindow.xaml.cs:513-515 | Below three markers, one unticked marker is appended; at three or more, the list is unchanged |
| Markers.WithNewMarkerBounded | MainWindow.xaml.cs:511-519 | From at most three markers, adding one never exceeds three, and a marker that is added clears the strike-through |
| Panels.IndexOf | MainWindow.xaml.cs:292-310 | The first position of a label in a label list, or the list length when the label is absent; no earlier position holds it |
| Panels.LabelsDistinct | MainWindow.xaml.cs:89-137 | The four category labels and the seven day names are pairwise distinct, so a label's position is its index; no day name is empty |
| Panels.CategoriesDistinct | MainWindow.xaml.cs:121-134 | Each category label is found at its own position |
| Panels.DayNamesDistinct | MainWindow.xaml.cs:89-111 | Each day name is found at its own position |
| Panels.DayNamesNonEmpty | MainWindow.xaml.cs:84-89 | No day name is the empty "no day" value |
| Panels.Slot | MainWindow.xaml.cs:84-138 | A record goes to a day panel exactly when its day is one of the seven day names, and then to that day's panel. It goes to a category stack exactly when it has no day and a known category, and then to that category's stack. Every other record goes to the pool |
| Panels.Keep | MainWindow.xaml.cs:257-263 | Detaching a group of cards keeps exactly the cards not in the group, and never lengthens a container |
| Panels.KeepKeep | MainWindow.xaml.cs:560-563 | Detaching two groups one after the other detaches their union |
| Panels.KeepAppend | MainWindow.xaml.cs:560-563 | Detaching distributes over concatenated card lists |
| Panels.KeepNothing | MainWindow.xaml.cs:558-563 | Detaching no card keeps the container as it is |
| Panels.RemoveFirst | MainWindow.xaml.cs:575 | List.Remove: a missing card changes nothing; a present card shortens the list by one; the multiset of the list loses exactly one copy of the card; every other card stays |
| Panels.RemoveFirstAt | MainWindow.xaml.cs:575 | List.Remove takes out the first occurrence: when the card first appears at position `k`, the result is the list without position `k`, the rest in its order |
| Panels.Board.Put | MainWindow.xaml.cs:124-136 | Appending a card keeps the window's twelve containers |
| Panels.PutGet | MainWindow.xaml.cs:124-136 | Appending a card to one container puts it at the end of that container and leaves every other container as it was |
| Panels.Board.Without | MainWindow.xaml.cs:257-263 | Removing cards from their parent leaves every container holding exactly its cards that were not removed, in order |
| Panels.EmptyBoard | MainWindow.xaml.cs:38-40 | The window starts with twelve empty containers and no card in any day panel |
| Panels.WithoutNothing | MainWindow.xaml.cs:558-563 | Detaching no card leaves the whole window unchanged |
| Panels.WithoutWithout | MainWindow.xaml.cs:560-563 | Detaching the clones one by one detaches the whole group |
| Panels.HoldsTask | MainWindow.xaml.cs:647-654 | The duplicate check of a drop: true exactly when some card of the container has the dropped task's id |
| Registry.InitMarkers | MainWindow.xaml.cs:348-349 | A task with no marker list gets a single unticked marker; an existing list, and every other task's list, is left as it is; exactly the task's id is added |
| Registry.Register | MainWindow.xaml.cs:434-436 | The card is appended to its task's clone list, which is created empty when missing; every other task's clone list is unchanged |
| Registry.RegisterKeeps | MainWindow.xaml.cs:434-436 | Registering a clone never forgets another clone |
| Registry.InitMarkersIdempotent | MainWindow.xaml.cs:319-349 | The marker default of AddTask_Click followed by that of CreateTaskCard is the marker default applied once |
| Records.MarkersOf | MainWindow.xaml.cs:168-170 | The saved marker list is the task's shared list, or empty when the task has none |
| Records.SaveOrderSaved | MainWindow.xaml.cs:183-221 | The save visits exactly the four stacks and the seven day panels, never the pool |
| Records.SaveOrderDistinct | MainWindow.xaml.cs:183-221 | The save visits each container once |
| Records.PanelRecord | MainWindow.xaml.cs:164-209 | A stack card is saved with its id, its text, the stack's label and no day; a day card is saved with its own category and the day's name; both carry the task's marker list |
| Records.PanelRecords | MainWindow.xaml.cs:162-180 | One record per card of a container, in card order |
| Records.RecordsOver | MainWindow.xaml.cs:183-221 | The records of a run of containers, container after container, each in card order |
| Records.Snapshot | MainWindow.xaml.cs:155-224 | The list a save writes: the records of the four stacks, then Monday to Sunday |
| Records.SavedAfter | MainWindow.xaml.cs:157-221 | After no container the record list is empty; after all eleven it is the whole snapshot |
| Records.RecordsOverMembers | MainWindow.xaml.cs:155-224 | A record is saved from a run of containers exactly when some card of one of them yields it |
| Records.SnapshotMembers | MainWindow.xaml.cs:155-224 | A record is in the snapshot exactly when it is the record of some card of a stack or a day panel |
| Records.RecordsOverIgnoresPool | MainWindow.xaml.cs:155-224 | The records of the visited containers do not depend on the pool |
| Records.SnapshotIgnoresPool | MainWindow.xaml.cs:155-224 | Pool cards are not saved: changing the pool does not change the snapshot |
| Records.SnapshotBounded | MainWindow.xaml.cs:168-177 | When no marker list is longer than three, no saved record's marker list is either |
| Records.RecordsOverPrefix | MainWindow.xaml.cs:183-221 | Visiting one more container appends exactly that container's records |
| Records.ProcessStackChildren | MainWindow.xaml.cs:160-181 | One record per stack card, in order, under the stack's label with no day, with the task's marker list or an empty one |
| Records.ProcessDayPanel | MainWindow.xaml.cs:189-213 | One record per day-panel card, in order, with the card's own category, the day's name, and the task's marker list or an empty one |
| Records.FindIndex | MainWindow.xaml.cs:663 | List.Find by id: the position of the first record of the task, or the list length when there is none |
| Records.UpsertDay | MainWindow.xaml.cs:663-677 | When the task has a record, the first such record gets the day and every other record stays; when it has none, the dropped data is appended as a new record with the day |
| Records.WithoutTask | MainWindow.xaml.cs:567 | RemoveAll by id: exactly the records of other tasks remain; a list without the task is unchanged |
| Records.WithoutTaskAppend | MainWindow.xaml.cs:567 | RemoveAll keeps the remaining records in their order: removing from a concatenation removes from each part |
| Records.WithoutTaskOne | MainWindow.xaml.cs:567 | A single record is dropped exactly when it belongs to the task. Together with WithoutTaskAppend, this fixes each kept record's position and multiplicity |
| Reload.CardFor | MainWindow.xaml.cs:74-79 | The card a record's TaskData gives: the record's id, text and category |
| Reload.Placements | MainWindow.xaml.cs:67-150 | The cards of the rebuild, record after record, with handles counting up |
| Reload.CardsAt | MainWindow.xaml.cs:84-149 | The cards a run of placements adds to a container, in order |
| Reload.RegisterAll | MainWindow.xaml.cs:67-150 | Registering the rebuild's cards one after the other |
| Reload.FirstMarkers | MainWindow.xaml.cs:67-71 | The marker map of the rebuild: the first record of each id decides its list |
| Reload.FirstMarkersBounded | MainWindow.xaml.cs:67-71 | When every record holds at most `n` markers, so does every rebuilt marker list |
| Reload.RecordsAt | MainWindow.xaml.cs:84-138 | The records aimed at a container, in order |
| Reload.Step | MainWindow.xaml.cs:73-150 | A record with a day yields one card. A record without a day yields two, the second a pool clone, with consecutive handles |
| Reload.StepUnknownDay | MainWindow.xaml.cs:112-115 | A record whose day is not one of the seven day names yields one card, in the pool |
| Reload.PlacedPanel | MainWindow.xaml.cs:84-149 | Every card the rebuild creates lands in one of the twelve containers |
| Reload.PlacementsHandles | MainWindow.xaml.cs:67-150 | The rebuild's cards get consecutive handles in creation order |
| Reload.CardsAtAppend | MainWindow.xaml.cs:67-150 | The cards a run of placements puts in a container distribute over concatenated runs |
| Reload.PlaceAll | MainWindow.xaml.cs:67-150 | Placing cards keeps the twelve containers |
| Reload.PlaceAllGet | MainWindow.xaml.cs:67-150 | After placing, a container holds its earlier cards followed by the placed cards aimed at it, in order |
| Reload.FirstMarkersFirst | MainWindow.xaml.cs:67-71 | After the rebuild, a task has a marker list exactly when some record has its id, and the list is the one of the first such record; later duplicates do not override it |
| Reload.FindIndexPrefix | MainWindow.xaml.cs:70-71 | The first record of an id stays first when records are appended |
| Reload.FirstMarkersUniform | MainWindow.xaml.cs:67-71 | When all records of an id carry the same marker list, the rebuilt list of every record's task is that record's list |
| Reload.RecordsAtAppend | MainWindow.xaml.cs:84-138 | The records aimed at one container distribute over concatenated record lists |
| Reload.SlotOfPanelRecord | MainWindow.xaml.cs:84-209 | The record saved for a card of a stack or a day panel goes back to that same container on a rebuild |
| Reload.RecordsAtOne | MainWindow.xaml.cs:84-138 | A single record aims at exactly its own slot |
| Reload.RecordsAtPanel | MainWindow.xaml.cs:84-209 | The records saved from one container all aim back at that container, and at no other |
| Reload.RecordsAtOver | MainWindow.xaml.cs:155-224 | Of the records saved from distinct containers, those aimed at one container are exactly that container's records |
| Reload.PanelRecordAnyHandle | MainWindow.xaml.cs:164-209 | A card's saved record does not depend on the card's identity |
| Reload.CardsAtStep | MainWindow.xaml.cs:84-150 | Of one record's cards, only the main one can land in a stack or a day panel; the pool clone never does |
| Reload.PanelRecordsAppend | MainWindow.xaml.cs:162-180 | Saving concatenated card lists concatenates their records |
| Reload.StepRecords | MainWindow.xaml.cs:84-209 | Saving the cards of one reproducing record gives back that record in its own container and nothing elsewhere |
| Reload.PanelRecordsSnoc | MainWindow.xaml.cs:67-209 | Rebuilding one more record adds exactly that record to its container's saved records |
| Reload.PanelRecordsOfPlacements | MainWindow.xaml.cs:67-209 | The saved records of a rebuilt container are exactly the original records aimed at it, in order |
| Reload.RecordsOverAgree | MainWindow.xaml.cs:155-224 | Two windows whose containers save the same records save the same list |
| Reload.SnapshotReproduces | MainWindow.xaml.cs:67-224 | Every saved record reproduces itself: it goes back to the container it came from, and is saved again with the same category, day and markers |
| Reload.SnapshotAt | MainWindow.xaml.cs:155-224 | The saved records aimed at a container are exactly that container's records |
| Reload.RebuiltAt | MainWindow.xaml.cs:54-152 | A container rebuilt from reproducing records saves exactly the records aimed at it |
| Reload.ReloadedPanel | MainWindow.xaml.cs:54-224 | After a save and a rebuild, every stack and day panel saves the same records as before |
| Reload.ReloadOfSnapshot | MainWindow.xaml.cs:54-224 | Round trip: rebuilding the window on empty containers from a list that `SaveAllTasksToDisk` produced (a `Records.Snapshot`), then saving again, yields the same list |
| Reload.PlacementsSnoc | MainWindow.xaml.cs:67-150 | One more record appends its own cards, with handles after the earlier ones |
| Reload.PlaceAllSnoc | MainWindow.xaml.cs:67-150 | Placing one more card adds it to its container |
| Reload.RegisterAllSnoc | MainWindow.xaml.cs:67-150 | Registering one more card appends it to its task's clone list |
| Reload.FirstMarkersSnoc | MainWindow.xaml.cs:67-71 | One more record sets its task's marker list unless an earlier record already did |
| Reload.PlaceAllAppend | MainWindow.xaml.cs:67-150 | Placing two runs of cards is placing the second on the window the first leaves |
| Reload.RegisterAllAppend | MainWindow.xaml.cs:67-150 | Registering two runs of cards is registering the second after the first |
| Reload.PlaceStep | MainWindow.xaml.cs:73-150 | One record's cards are its main card in its slot and, without a day, a pool clone |
| Reload.RegisterStep | MainWindow.xaml.cs:73-150 | One record's cards are registered in creation order |
| Reload.RecordStep | MainWindow.xaml.cs:73-150 | The per-record effect of the rebuild is placing and registering that record's cards |
| Reload.PlacementsNext | MainWindow.xaml.cs:67 | The cards of the first `i + 1` records are those of the first `i` followed by record `i`'s |
| Reload.FirstMarkersNext | MainWindow.xaml.cs:67-71 | The marker map after record `i` adds its list only when its task has none yet |
| Reload.RebuildAgrees | MainWindow.xaml.cs:67-151 | After record `i`, the containers and the clone lists are those the first `i + 1` records yield |
| Scheduler.DayNameOf | MainWindow.xaml.cs:684-694 | A day panel's name is its day's name; any other container gets the empty string |
| Scheduler.DayNameSlot | MainWindow.xaml.cs:662-665 | A record carrying a day panel's name goes back to that day panel on a rebuild |
| Scheduler.Refreshed | MainWindow.xaml.cs:522-532 | After re-rendering a task's clones, each of them shows the new view, every other card keeps its view, and no card is added or lost |
| Scheduler.RegisteredClone | MainWindow.xaml.cs:29-33 | A registered clone carries its task's id, has a marker list, and shows that list's view |
| Scheduler.CloneIds | MainWindow.xaml.cs:29-33 | Every clone registered for a task carries that task's id |
| Scheduler.TrackedCard | MainWindow.xaml.cs:29 | Every card in a container is a registered clone of its task |
| Scheduler.CreateKeeps | MainWindow.xaml.cs:346-440 | Creating a card keeps the dictionaries consistent and every container card registered, disturbs no other clone's view, and keeps marker lists within three |
| Scheduler.PutKeeps | MainWindow.xaml.cs:322-330 | Adding a registered clone to a container keeps every container card registered |
| Scheduler.RefreshKeeps | MainWindow.xaml.cs:500-532 | Changing one task's markers and re-rendering its clones keeps every clone showing its task's list |
| Scheduler.DeleteAllKeeps | MainWindow.xaml.cs:555-569 | Global deletion keeps the dictionaries consistent, leaves no card of the task anywhere, and keeps marker lists within three |
| Scheduler.WithinKeeps | MainWindow.xaml.cs:574-575 | Forgetting clones keeps the dictionaries consistent |
| Scheduler.ForgetKeeps | MainWindow.xaml.cs:574-575 | Dropping one card from its task's clone list keeps the dictionaries consistent |
| Scheduler.DetachKeeps | MainWindow.xaml.cs:573-575 | Detaching a card and forgetting only that card keeps every remaining container card registered |
| Scheduler.FreshMarkersKeep | MainWindow.xaml.cs:70-71 | A marker list for a task without clones changes no card's view |
| Scheduler.MainWindow.constructor | MainWindow.xaml.cs:38-45 | From the loaded list: the saved list is the loaded one; the containers, clone lists and marker lists are what the rebuild of that list yields on empty containers; `Valid()` holds, and when every loaded record has at most three markers `MarkersBounded()` holds too |
| Scheduler.MainWindow.RebuildUIFromSavedTasks | MainWindow.xaml.cs:54-152 | The stacks, the pool and both dictionaries are cleared, the day panels are kept. Each record's cards are then placed and registered in order, and each task gets the marker list of its first record. Registered clones show their task's list. When the day panels start empty, every card is registered |
| Scheduler.MainWindow.RebuildNext | MainWindow.xaml.cs:67-151 | One loop iteration extends the rebuilt state from the first `i` records to the first `i + 1` |
| Scheduler.MainWindow.RebuildStep | MainWindow.xaml.cs:67-151 | One record's cards are placed and registered; its marker list is taken unless the task has one; the invariants are kept |
| Scheduler.MainWindow.RebuildRecord | MainWindow.xaml.cs:69-150 | A record with a day gets one card in its slot; one without a day gets a card in its slot and a clone in the pool; the marker list is taken only for a task that has none |
| Scheduler.MainWindow.CreateTaskCard | MainWindow.xaml.cs:346-440 | The new card has a fresh handle and the task's data. The task's markers default to a single unticked marker. The card is appended to its clone list and renders the task's list. Other tasks are untouched and every invariant is kept |
| Scheduler.MainWindow.SetupProgressPanel | MainWindow.xaml.cs:454-497 | Exactly the given card is re-rendered, from its task's current marker list |
| Scheduler.MainWindow.UpdateAllClonesForTask | MainWindow.xaml.cs:522-532 | Every registered clone of the task is re-rendered from its current marker list; a task without clones changes nothing |
| Scheduler.MainWindow.SaveAllTasksToDisk | MainWindow.xaml.cs:155-224 | The record list becomes the snapshot of the four stacks and then the seven day panels, and is written out |
| Scheduler.MainWindow.OnClosing | MainWindow.xaml.cs:47-51 | Closing the window saves: the record list becomes the snapshot of the containers and is written out |
| Scheduler.MainWindow.SaveContainer | MainWindow.xaml.cs:183-221 | Each visit appends exactly the next container's records |
| Scheduler.MainWindow.ToggleMarker | MainWindow.xaml.cs:500-508 | For a known task and an index below its count exactly that slot flips, every clone of the task is re-rendered with the new view while every other recorded view is kept, and the snapshot is saved. Otherwise nothing changes: no re-render and no save. The containers and clones are untouched and every invariant is kept |
| Scheduler.MainWindow.AddMarker | MainWindow.xaml.cs:511-519 | For a known task below three markers, the task's list becomes `WithNewMarker` of it, which is one unticked marker appended. Every clone of the task is re-rendered with the new view, every other recorded view is kept, and the snapshot is saved. Otherwise nothing changes. Lists never exceed three and every invariant is kept |
| Scheduler.MainWindow.AddTask_Click | MainWindow.xaml.cs:285-343 | A task is added exactly when the category is one of the four and the trimmed text is neither empty nor the placeholder. An added task gets a card in its stack and a clone in the pool. Both are registered, stack card first, as the task's last two clones. The task gets the default marker list, and one record with no day is appended and written out. A rejected input changes nothing |
| Scheduler.MainWindow.AddTaskCards | MainWindow.xaml.cs:317-342 | The added task's stack card and pool clone, registered in that order after the task's earlier clones; its marker default; and its one appended record, written out |
| Scheduler.MainWindow.DefaultMarkers | MainWindow.xaml.cs:319-320 | A task with no marker list gets a single unticked marker, keeping every invariant |
| Scheduler.MainWindow.PlaceClone | MainWindow.xaml.cs:322-330 | A new card for the task is created, registered once as the task's last clone, and appended to the given container; other tasks' clone lists are unchanged and every invariant is kept |
| Scheduler.MainWindow.DeleteButton_Click | MainWindow.xaml.cs:537-579 | Outside a day panel: every clone of the task is removed, its clone list, marker list and records are dropped, the list is written out, and no card of the task remains. Inside a day panel: only that card is removed and forgotten; markers and records stay and nothing is written. Invariants are kept |
| Scheduler.MainWindow.DeleteEverywhere | MainWindow.xaml.cs:555-569 | Every clone of the task is removed from its container; its clone list, marker list and records are dropped; the list is written out; no card of the task remains |
| Scheduler.MainWindow.DeleteHere | MainWindow.xaml.cs:570-576 | Only the clicked card is detached and removed from its task's clone list; the invariants are kept |
| Scheduler.MainWindow.RemoveCloneFromParent | MainWindow.xaml.cs:257-263 | The card is detached from the container holding it; nothing else moves |
| Scheduler.MainWindow.DayPanel_Drop | MainWindow.xaml.cs:640-681 | A panel already holding a clone of the task ignores the drop and nothing changes. Otherwise a new clone is appended to the panel and registered as the task's last clone, and the task gets the default marker list if it had none. Everything is then saved, and the saved list holds the task's record with the day's name |
| Scheduler.MainWindow.PlaceOnDay | MainWindow.xaml.cs:655-678 | The new day clone is placed and registered once, the record list is upserted, and the save leaves the snapshot, which holds the task's record with the day's name |
| Scheduler.MainWindow.TaskPool_Drop | MainWindow.xaml.cs:697-716 | A pool already holding a clone of the task ignores the drop and nothing changes. Otherwise a new pool clone is appended and registered as the task's last clone, and the task gets the default marker list if it had none. Everything is then saved. Pool cards are not saved, so the result is the snapshot of the containers as they were before the drop |

## Left out

- Persistence (`Models/TaskDataManager.cs`, JSON): this is file I/O through a serializer whose source is not part of this model. Loading is the constructor's parameter. Saving is the `disk` field, which receives a copy of the record list.
- Widget construction, styling, colours, `CreateCircularButtonTemplate` and the placeholder focus handlers: these only build visuals. A card's rendered state is abstracted to `Markers.Progress`.
- Reload.ReloadOfSnapshot: a list the round trip does not cover need not come back unchanged. Such lists are written by `AddTask_Click` or the global delete, or loaded from disk. Their records come back grouped by container in the save order. A record whose day or category is unknown lands in the pool, which is not saved.
- Sender checks of the event handlers (`sender is Button`, `Tag` casts, `Child is Panel`): every sender is taken to be the expected widget, so these checks always pass.
- `FindVisualParentByName` and `FindVisualParent` (visual-tree walks): `DeleteButton_Click` takes whether the card sits in a day panel as a parameter.
- Drag-and-drop plumbing (`TaskCard_MouseMove`, `TaskPoolItem_MouseMove`, the mouse-distance threshold, `DoDragDrop`): a drop takes the dropped id, text and category. `DayPanel_Drop` takes the day panel as a day index.
- `Guid.NewGuid()`: the new task's id is a parameter of `AddTask_Click`. No freshness is required, because the contracts hold for any id.
- `OnClosing`: the call to `base.OnClosing`, which is window lifecycle outside the task state. The save it makes is modelled.
- `BackButton_Click`: window navigation, outside the task state.
- The `IsDayPanel` flag of the tag data: no code reads it.
- Clearing the input box (line 332): it has no effect on the task state.
- Panel removal: WPF gives a card one parent. Removing a card from its parent is therefore modelled as filtering it out of every container.
- Static nature of the dictionaries: a single window and a single thread, so they are fields of the window.
- Scheduler.MainWindow.ToggleMarker: the index is a `nat`. A negative index passes the source's bounds check and then throws. The marker buttons only ever pass slot indexes, so that case is not modelled.
- Scheduler.MainWindow.RebuildUIFromSavedTasks: the day panels are not cleared, so the invariant that every card is registered is stated only for day panels that start empty. The one caller, the constructor, meets that.
- Text.IsWhiteSpace: the character class follows the Unicode space separators and control characters that `Char.IsWhiteSpace` accepts. It does not cover the .NET character tables beyond that list.
- Models.Guid: a number below 2^128. The byte layout of a Guid is not modelled.
- Models.DefaultTaskItem: the empty Guid (0) stands for `default(Guid)`. `TaskItem.ID` has no initialiser, so it starts as `Guid.Empty`.
