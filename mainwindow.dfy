/** The scheduler window (MainWindow.xaml.cs): its containers, the two shared dictionaries, the
    saved record list, and the event handlers that change them. */
module Scheduler {
  import opened Models
  import opened Text
  import opened Markers
  import opened Panels
  import opened Records
  import opened Registry
  import opened Reload

  /** The text a category input box shows while it is empty. */
  const Placeholder: string := "Type your task here..."

  /** The input check of AddTask_Click: the trimmed text, and whether it is worth a task (neither
      blank nor the placeholder). */
  method ReadTaskText(input: string) returns (text: string, accepted: bool)
    ensures text == Trim(input)
    ensures accepted <==> Trim(input) != [] && Trim(input) != Placeholder
  {
    text := Trim(input);
    TrimmedBlank(input);
    accepted := !(IsNullOrWhiteSpace(text) || text == Placeholder);
  }

  /** GetDayNameFromPanel: the name of a day panel, or "" for any other container. */
  function DayNameOf(p: PanelId): (name: string)
    ensures name != "" <==> p.Day? && p.d < |DayNames|
    ensures p.Day? && p.d < |DayNames| ==> name == DayNames[p.d]
  {
    if p.Day? && p.d < |DayNames| then DayNames[p.d] else ""
  }

  /** A record carrying the name of a day panel goes back to that panel on a rebuild. */
  lemma {:induction false} DayNameSlot(d: nat, t: TaskItem)
    requires d < |DayNames| && t.dayAssignment == DayNameOf(Day(d))
    ensures Slot(t) == Day(d)
  {
    LabelsDistinct();
  }

  /** The progress panels after re-rendering every card of `cs` with view `v`. */
  function Refreshed(shown: map<Card, Progress>, cs: seq<Card>, v: Progress): (r: map<Card, Progress>)
    ensures forall c :: c in r <==> c in shown || c in cs
    ensures forall c | c in cs :: r[c] == v
    ensures forall c | c in shown && c !in cs :: r[c] == shown[c]
    decreases |cs|
  {
    if cs == [] then shown
    else Refreshed(shown, cs[..|cs| - 1], v)[cs[|cs| - 1] := v]
  }

  /** `c` is registered as a clone of task `id`. */
  ghost predicate IsClone(clones: map<Guid, seq<Card>>, id: Guid, c: Card)
  {
    id in clones && c in clones[id]
  }

  /** `c` sits in container `p` of board `b`. */
  ghost predicate OnBoard(b: Board, p: PanelId, c: Card)
  {
    b.WellShaped() && IsPanel(p) && c in b.Get(p)
  }

  /** The shape of the two dictionaries: every clone list belongs to a task with a marker list,
      every clone carries its list's task id, and every card has a handle below `next`. */
  ghost predicate Indexes(clones: map<Guid, seq<Card>>, markers: map<Guid, seq<bool>>, next: nat)
  {
    clones.Keys <= markers.Keys &&
    forall id, c {:trigger IsClone(clones, id, c)} | IsClone(clones, id, c) :: c.id == id && c.handle < next
  }

  /** Every registered clone shows the progress panel of its task's marker list. */
  ghost predicate Renders(clones: map<Guid, seq<Card>>, markers: map<Guid, seq<bool>>, shown: map<Card, Progress>)
  {
    forall id, c {:trigger IsClone(clones, id, c)} | IsClone(clones, id, c) ::
      id in markers && c in shown && shown[c] == ProgressView(markers[id])
  }

  /** Every card in a container is a registered clone of its task. */
  ghost predicate Tracks(b: Board, clones: map<Guid, seq<Card>>)
  {
    forall p, c {:trigger OnBoard(b, p, c)} | OnBoard(b, p, c) :: IsClone(clones, c.id, c)
  }

  /** No task has more markers than the "+" button allows. */
  ghost predicate Bounded(markers: map<Guid, seq<bool>>)
  {
    forall id | id in markers :: |markers[id]| <= MaxMarkers
  }

  /** What the two invariants say about one registered clone. */
  lemma {:induction false} RegisteredClone(clones: map<Guid, seq<Card>>, markers: map<Guid, seq<bool>>,
                        shown: map<Card, Progress>, next: nat, id: Guid, x: Card)
    requires Indexes(clones, markers, next) && Renders(clones, markers, shown)
    requires id in clones && x in clones[id]
    ensures id in markers && x.id == id && x.handle < next
    ensures x in shown && shown[x] == ProgressView(markers[id])
  {
    assert IsClone(clones, id, x);
  }

  /** Every clone registered for `id` carries that id. */
  lemma {:induction false} CloneIds(clones: map<Guid, seq<Card>>, markers: map<Guid, seq<bool>>, next: nat, id: Guid)
    requires Indexes(clones, markers, next) && id in clones
    ensures id in markers && forall c | c in clones[id] :: c.id == id
  {
    forall c | c in clones[id] ensures c.id == id {
      assert IsClone(clones, id, c);
    }
  }

  /** What Tracks says about one card in a container. */
  lemma {:induction false} TrackedCard(b: Board, clones: map<Guid, seq<Card>>, p: PanelId, x: Card)
    requires b.WellShaped() && IsPanel(p) && Tracks(b, clones) && x in b.Get(p)
    ensures x.id in clones && x in clones[x.id]
  {
    assert OnBoard(b, p, x);
  }

  /** CreateTaskCard keeps the dictionaries consistent: the new card has a handle no earlier
      card has, so rendering it disturbs no other clone. */
  lemma {:induction false} CreateKeeps(b: Board, clones: map<Guid, seq<Card>>, markers: map<Guid, seq<bool>>,
                    shown: map<Card, Progress>, next: nat, c: Card)
    requires Indexes(clones, markers, next) && Renders(clones, markers, shown)
    requires c.handle == next
    ensures var m := InitMarkers(markers, c.id);
      var cl := Register(clones, c);
      Indexes(cl, m, next + 1) && Renders(cl, m, shown[c := ProgressView(m[c.id])]) &&
      (Tracks(b, clones) ==> Tracks(b, cl)) &&
      (Bounded(markers) ==> Bounded(m))
  {
    var m := InitMarkers(markers, c.id);
    var cl := Register(clones, c);
    var sh := shown[c := ProgressView(m[c.id])];
    forall id, x | IsClone(cl, id, x)
      ensures x.id == id && x.handle < next + 1 && id in m && x in sh && sh[x] == ProgressView(m[id])
    {
      if x != c || id != c.id {
        assert x in clones[id] by {
          if id == c.id {
            assert cl[id] == ClonesFor(clones, id) + [c];
          }
        }
        RegisteredClone(clones, markers, shown, next, id, x);
      }
    }
    if Tracks(b, clones) {
      forall p, x | OnBoard(b, p, x) ensures IsClone(cl, x.id, x) {
        TrackedCard(b, clones, p, x);
        RegisterKeeps(clones, c, x.id, x);
      }
    }
  }

  /** Adding a registered clone to a container keeps every container's cards registered. */
  lemma {:induction false} PutKeeps(b: Board, clones: map<Guid, seq<Card>>, p: PanelId, c: Card)
    requires b.WellShaped() && IsPanel(p) && Tracks(b, clones)
    requires c.id in clones && c in clones[c.id]
    ensures Tracks(b.Put(p, c), clones)
  {
    PutGet(b, p, c);
    forall p', x | OnBoard(b.Put(p, c), p', x) ensures IsClone(clones, x.id, x) {
      if x != c {
        TrackedCard(b, clones, p', x);
      }
    }
  }

  /** Changing one task's marker list and re-rendering its clones keeps every clone rendered
      from its task's list. */
  lemma {:induction false} RefreshKeeps(clones: map<Guid, seq<Card>>, markers: map<Guid, seq<bool>>, shown: map<Card, Progress>,
                     next: nat, id: Guid, ms: seq<bool>)
    requires Indexes(clones, markers, next) && Renders(clones, markers, shown) && id in markers
    ensures var m := markers[id := ms];
      Indexes(clones, m, next) &&
      Renders(clones, m, if id in clones then Refreshed(shown, clones[id], ProgressView(ms)) else shown)
  {
    var m := markers[id := ms];
    var sh := if id in clones then Refreshed(shown, clones[id], ProgressView(ms)) else shown;
    forall i, c | IsClone(clones, i, c) ensures c.id == i && c.handle < next && i in m && c in sh && sh[c] == ProgressView(m[i]) {
      RegisteredClone(clones, markers, shown, next, i, c);
      if id in clones && i != id && c in clones[id] {
        RegisteredClone(clones, markers, shown, next, id, c);
      }
    }
  }

  /** The global deletion keeps the dictionaries consistent and leaves no card of the task in
      any container. */
  lemma {:induction false} DeleteAllKeeps(b: Board, clones: map<Guid, seq<Card>>, markers: map<Guid, seq<bool>>,
                       shown: map<Card, Progress>, next: nat, id: Guid)
    requires b.WellShaped() && Indexes(clones, markers, next) && Renders(clones, markers, shown)
    requires Tracks(b, clones)
    ensures var b' := b.Without(ClonesFor(clones, id));
      Indexes(clones - {id}, markers - {id}, next) && Renders(clones - {id}, markers - {id}, shown) &&
      Tracks(b', clones - {id}) &&
      (forall p, x | IsPanel(p) && x in b'.Get(p) :: x.id != id) &&
      (Bounded(markers) ==> Bounded(markers - {id}))
  {
    var b' := b.Without(ClonesFor(clones, id));
    var cl := clones - {id};
    forall i, x | IsClone(cl, i, x) ensures x.id == i && x.handle < next && i in markers - {id} && x in shown && shown[x] == ProgressView((markers - {id})[i]) {
      RegisteredClone(clones, markers, shown, next, i, x);
    }
    forall p, x | IsPanel(p) && x in b'.Get(p) ensures x.id != id && IsClone(cl, x.id, x) {
      assert x in b.Get(p) && x !in ClonesFor(clones, id);
      TrackedCard(b, clones, p, x);
    }
    forall p, x | OnBoard(b', p, x) ensures IsClone(cl, x.id, x) {
    }
  }

  /** Every clone list of `a` lists only clones that `b` lists for the same task. */
  ghost predicate Within(a: map<Guid, seq<Card>>, b: map<Guid, seq<Card>>)
  {
    forall id, x {:trigger IsClone(a, id, x)} | IsClone(a, id, x) :: IsClone(b, id, x)
  }

  /** Forgetting clones keeps the dictionaries consistent. */
  lemma {:induction false} WithinKeeps(a: map<Guid, seq<Card>>, b: map<Guid, seq<Card>>, markers: map<Guid, seq<bool>>,
                    shown: map<Card, Progress>, next: nat)
    requires Indexes(b, markers, next) && Renders(b, markers, shown) && Within(a, b)
    requires a.Keys <= b.Keys
    ensures Indexes(a, markers, next) && Renders(a, markers, shown)
  {
    forall id: Guid, x: Card | IsClone(a, id, x)
      ensures id in markers && x.id == id && x.handle < next && x in shown && shown[x] == ProgressView(markers[id])
    {
      RegisteredClone(b, markers, shown, next, id, x);
    }
  }

  /** Dropping one card from its clone list keeps the dictionaries consistent. */
  lemma {:induction false} ForgetKeeps(clones: map<Guid, seq<Card>>, markers: map<Guid, seq<bool>>,
                    shown: map<Card, Progress>, next: nat, c: Card)
    requires Indexes(clones, markers, next) && Renders(clones, markers, shown) && c.id in clones
    ensures var cl := clones[c.id := RemoveFirst(clones[c.id], c)];
      Indexes(cl, markers, next) && Renders(cl, markers, shown)
  {
    var cl := clones[c.id := RemoveFirst(clones[c.id], c)];
    forall id, x | IsClone(cl, id, x) ensures IsClone(clones, id, x) {
    }
    WithinKeeps(cl, clones, markers, shown, next);
  }

  /** Detaching a card from the containers keeps the others registered when its clone list
      loses only that card. */
  lemma {:induction false} DetachKeeps(b: Board, clones: map<Guid, seq<Card>>, c: Card)
    requires b.WellShaped() && Tracks(b, clones)
    ensures var cl := if c.id in clones then clones[c.id := RemoveFirst(clones[c.id], c)] else clones;
      Tracks(b.Without([c]), cl)
  {
    var cl := if c.id in clones then clones[c.id := RemoveFirst(clones[c.id], c)] else clones;
    var b' := b.Without([c]);
    forall p, x | OnBoard(b', p, x) ensures IsClone(cl, x.id, x) {
      assert b'.Get(p) == Keep(b.Get(p), [c]);
      assert x in b.Get(p) && x != c;
      TrackedCard(b, clones, p, x);
    }
  }

  /** A marker list for a task without clones disturbs no rendered card. */
  lemma {:induction false} FreshMarkersKeep(clones: map<Guid, seq<Card>>, markers: map<Guid, seq<bool>>, shown: map<Card, Progress>,
                         next: nat, id: Guid, ms: seq<bool>)
    requires Indexes(clones, markers, next) && Renders(clones, markers, shown) && id !in markers
    ensures Indexes(clones, markers[id := ms], next) && Renders(clones, markers[id := ms], shown)
  {
    forall i, x | IsClone(clones, i, x) ensures i in markers[id := ms] && x in shown && shown[x] == ProgressView(markers[id := ms][i]) {
      RegisteredClone(clones, markers, shown, next, i, x);
    }
  }

  class MainWindow {
    /** The four category stacks, the task pool and the seven day panels. */
    var board: Board
    /** taskMarkerStates: the marker list shared by every clone of a task. */
    var markers: map<Guid, seq<bool>>
    /** globalTaskInstances: every clone card created for a task, in creation order. */
    var clones: map<Guid, seq<Card>>
    /** The progress panel each card currently renders. */
    var shown: map<Card, Progress>
    /** _savedTasks. */
    var saved: seq<TaskItem>
    /** The list last handed to TaskDataManager.SaveTasks (or loaded from it). */
    var disk: seq<TaskItem>
    /** The handle the next card created gets. */
    var nextHandle: nat

    ghost predicate Valid()
      reads this`board, this`markers, this`clones, this`shown, this`nextHandle
    {
      board.WellShaped() && Indexes(clones, markers, nextHandle) && Renders(clones, markers, shown) &&
      Tracks(board, clones)
    }

    ghost predicate MarkersBounded()
      reads this`markers
    {
      Bounded(markers)
    }
    /** The window starts with every container empty, loads the saved records and rebuilds
        its cards from them. */
    constructor (loaded: seq<TaskItem>)
      ensures board == PlaceAll(EmptyBoard(), Placements(loaded, 0))
      ensures markers == FirstMarkers(loaded)
      ensures clones == RegisterAll(map[], Placements(loaded, 0))
      ensures saved == loaded && disk == loaded
      ensures Valid()
      ensures (forall k | 0 <= k < |loaded| :: |loaded[k].markerStates| <= MaxMarkers) ==> MarkersBounded()
    {
      board := EmptyBoard();
      markers := map[];
      clones := map[];
      shown := map[];
      saved := loaded;
      disk := loaded;
      nextHandle := 0;
      new;
      assert EmptyBoard().(stacks := EmptyBoard().stacks, pool := []) == EmptyBoard();
      RebuildUIFromSavedTasks();
      if forall k | 0 <= k < |loaded| :: |loaded[k].markerStates| <= MaxMarkers {
        FirstMarkersBounded(loaded, MaxMarkers);
      }
    }

    /** RebuildUIFromSavedTasks: clears the stacks, the pool and both dictionaries (the day
        panels are left as they are), then creates the cards of every saved record in order. */
    method RebuildUIFromSavedTasks()
      requires board.WellShaped()
      modifies this`board, this`markers, this`nextHandle, this`clones, this`shown
      ensures board == PlaceAll(old(board).(stacks := EmptyBoard().stacks, pool := []),
                                Placements(saved, old(nextHandle)))
      ensures nextHandle == old(nextHandle) + |Placements(saved, old(nextHandle))|
      ensures markers == FirstMarkers(saved)
      ensures clones == RegisterAll(map[], Placements(saved, old(nextHandle)))
      ensures Indexes(clones, markers, nextHandle) && Renders(clones, markers, shown)
      ensures old(board).DaysEmpty() ==> Tracks(board, clones)
    {
      board := board.(stacks := EmptyBoard().stacks, pool := []);
      clones := map[];
      markers := map[];
      ghost var start := board;
      ghost var h0 := nextHandle;
      ghost var ps: seq<Placement> := [];
      ghost var daysEmpty := old(board).DaysEmpty();
      assert daysEmpty ==> Tracks(start, map[]) by {
        if daysEmpty {
          forall p, c | OnBoard(start, p, c) ensures false {
          }
        }
      }
      var items := saved;
      for i := 0 to |items|
        invariant saved == items
        invariant board.WellShaped()
        invariant ps == Placements(items[..i], h0)
        invariant board == PlaceAll(start, ps)
        invariant nextHandle == h0 + |ps|
        invariant markers == FirstMarkers(items[..i])
        invariant clones == RegisterAll(map[], ps)
        invariant Indexes(clones, markers, nextHandle) && Renders(clones, markers, shown)
        invariant daysEmpty ==> Tracks(board, clones)
      {
        ps := RebuildNext(items, i, start, h0, ps, daysEmpty);
      }
      assert items[..|items|] == items;
    }

    /** The loop step of the rebuild: after record `i`, the window holds what the first `i + 1`
        records yield. */
    method RebuildNext(items: seq<TaskItem>, i: nat, ghost start: Board, ghost h0: nat,
                       ghost ps: seq<Placement>, ghost tracked: bool) returns (ghost ps1: seq<Placement>)
      requires i < |items| && start.WellShaped() && board.WellShaped()
      requires ps == Placements(items[..i], h0)
      requires board == PlaceAll(start, ps)
      requires nextHandle == h0 + |ps|
      requires markers == FirstMarkers(items[..i])
      requires clones == RegisterAll(map[], ps)
      requires Indexes(clones, markers, nextHandle) && Renders(clones, markers, shown)
      requires tracked ==> Tracks(board, clones)
      modifies this`board, this`markers, this`nextHandle, this`clones, this`shown
      ensures board.WellShaped()
      ensures ps1 == Placements(items[..i + 1], h0)
      ensures board == PlaceAll(start, ps1)
      ensures nextHandle == h0 + |ps1|
      ensures markers == FirstMarkers(items[..i + 1])
      ensures clones == RegisterAll(map[], ps1)
      ensures Indexes(clones, markers, nextHandle) && Renders(clones, markers, shown)
      ensures tracked ==> Tracks(board, clones)
    {
      var item := items[i];
      ghost var b0, h, m0, c0 := board, nextHandle, markers, clones;
      RebuildStep(item);
      ps1 := ps + Step(item, h);
      RebuildAgrees(items, i, start, h0, ps, h, b0, board, m0, markers, c0, clones);
    }

    /** One iteration of the rebuild, stated as the placement list of the record: the cards of
        Step(item, nextHandle) are put in their containers and registered, in that order. */
    method RebuildStep(item: TaskItem)
      requires board.WellShaped() && Indexes(clones, markers, nextHandle) && Renders(clones, markers, shown)
      modifies this`board, this`markers, this`nextHandle, this`clones, this`shown
      ensures board == PlaceAll(old(board), Step(item, old(nextHandle)))
      ensures nextHandle == old(nextHandle) + |Step(item, old(nextHandle))|
      ensures markers == if item.id in old(markers) then old(markers) else old(markers)[item.id := item.markerStates]
      ensures clones == RegisterAll(old(clones), Step(item, old(nextHandle)))
      ensures Indexes(clones, markers, nextHandle) && Renders(clones, markers, shown)
      ensures old(Tracks(board, clones)) ==> Tracks(board, clones)
    {
      ghost var b0, c0, h := board, clones, nextHandle;
      RebuildRecord(item);
      RecordStep(b0, c0, item, h, board, clones);
    }

    /** One iteration of the rebuild: the record's marker list is taken unless its task already
        has one, and its cards are created and placed as Step says. */
    method RebuildRecord(item: TaskItem)
      requires board.WellShaped() && Indexes(clones, markers, nextHandle) && Renders(clones, markers, shown)
      modifies this`board, this`markers, this`nextHandle, this`clones, this`shown
      ensures board == if HasDay(item) then old(board).Put(Slot(item), CardFor(item, old(nextHandle)))
        else old(board).Put(Slot(item), CardFor(item, old(nextHandle))).Put(Pool, CardFor(item, old(nextHandle) + 1))
      ensures nextHandle == old(nextHandle) + if HasDay(item) then 1 else 2
      ensures markers == if item.id in old(markers) then old(markers) else old(markers)[item.id := item.markerStates]
      ensures clones == if HasDay(item) then Register(old(clones), CardFor(item, old(nextHandle)))
        else Register(Register(old(clones), CardFor(item, old(nextHandle))), CardFor(item, old(nextHandle) + 1))
      ensures Indexes(clones, markers, nextHandle) && Renders(clones, markers, shown)
      ensures old(Tracks(board, clones)) ==> Tracks(board, clones)
    {
      if item.id !in markers {
        FreshMarkersKeep(clones, markers, shown, nextHandle, item.id, item.markerStates);
        markers := markers[item.id := item.markerStates];
      }
      ghost var tracked := Tracks(board, clones);
      var card := CreateTaskCard(item.id, item.text, item.originalCategory);
      var target := Slot(item);
      if tracked {
        PutKeeps(board, clones, target, card);
      }
      board := board.Put(target, card);
      if !HasDay(item) {
        var poolCard := CreateTaskCard(item.id, item.text, item.originalCategory);
        if tracked {
          PutKeeps(board, clones, Pool, poolCard);
        }
        board := board.Put(Pool, poolCard);
      }
    }

    /** CreateTaskCard: gives the task a single unticked marker when it has none, creates a new
        card, registers it as a clone of its task and renders its progress panel. The card is
        not yet in any container. */
    method CreateTaskCard(id: Guid, text: string, category: string) returns (c: Card)
      requires board.WellShaped() && Indexes(clones, markers, nextHandle) && Renders(clones, markers, shown)
      modifies this`markers, this`nextHandle, this`clones, this`shown
      ensures c == Card(old(nextHandle), id, text, category)
      ensures nextHandle == old(nextHandle) + 1
      ensures markers == InitMarkers(old(markers), id)
      ensures clones == Register(old(clones), c)
      ensures shown == old(shown)[c := ProgressView(markers[id])]
      ensures Indexes(clones, markers, nextHandle) && Renders(clones, markers, shown)
      ensures old(Tracks(board, clones)) ==> Tracks(board, clones)
      ensures old(MarkersBounded()) ==> MarkersBounded()
    {
      c := Card(nextHandle, id, text, category);
      CreateKeeps(board, clones, markers, shown, nextHandle, c);
      markers := InitMarkers(markers, id);
      nextHandle := nextHandle + 1;
      clones := Register(clones, c);
      SetupProgressPanel(c);
    }

    /** SetupProgressPanel: re-renders one card from its task's current marker list. */
    method SetupProgressPanel(c: Card)
      requires c.id in markers
      modifies this`shown
      ensures shown == old(shown)[c := ProgressView(markers[c.id])]
    {
      var view := BuildProgress(markers[c.id]);
      shown := shown[c := view];
    }

    /** UpdateAllClonesForTask: re-renders every registered clone of task `id`. */
    method UpdateAllClonesForTask(id: Guid)
      requires id in clones ==> id in markers && forall c | c in clones[id] :: c.id == id
      modifies this`shown
      ensures id in clones ==> shown == Refreshed(old(shown), clones[id], ProgressView(markers[id]))
      ensures id !in clones ==> shown == old(shown)
    {
      if id in clones {
        var instances := clones[id];
        for k := 0 to |instances|
          invariant shown == Refreshed(old(shown), instances[..k], ProgressView(markers[id]))
        {
          assert instances[..k + 1][..k] == instances[..k];
          SetupProgressPanel(instances[k]);
        }
        assert instances[..|instances|] == instances;
      }
    }

    /** SaveAllTasksToDisk: rebuilds _savedTasks from the four stacks and then the seven day
        panels, and writes it out. Pool cards are not saved. */
    method SaveAllTasksToDisk()
      requires board.WellShaped()
      modifies this`saved, this`disk
      ensures saved == Snapshot(board, markers) && disk == saved
    {
      saved := [];
      SaveContainer(0);
      SaveContainer(1);
      SaveContainer(2);
      SaveContainer(3);
      SaveContainer(4);
      SaveContainer(5);
      SaveContainer(6);
      SaveContainer(7);
      SaveContainer(8);
      SaveContainer(9);
      SaveContainer(10);
      disk := saved;
    }

    /** One ProcessStackChildren or ProcessDayPanel call of SaveAllTasksToDisk: the records of
        container `SaveOrder[k]`, under its label, appended after those of the containers
        before it. */
    method SaveContainer(k: nat)
      requires board.WellShaped() && k < |SaveOrder|
      requires saved == SavedAfter(k, board, markers)
      modifies this`saved
      ensures saved == SavedAfter(k + 1, board, markers)
    {
      SaveOrderSaved();
      var p := SaveOrder[k];
      var r;
      if p.Stack? {
        r := ProcessStackChildren(board.stacks[p.q], Categories[p.q], markers);
      } else {
        assert p.Day?;
        r := ProcessDayPanel(board.days[p.d], DayNames[p.d], markers);
      }
      RecordsOverPrefix(SaveOrder, k, board, markers);
      assert r == PanelRecords(board.Get(p), p, markers);
      saved := saved + r;
    }

    /** OnClosing: closing the window saves every container's cards. */
    method OnClosing()
      requires board.WellShaped()
      modifies this`saved, this`disk
      ensures saved == Snapshot(board, markers) && disk == saved
    {
      SaveAllTasksToDisk();
    }

    /** ToggleMarker: flips one marker of a task, re-renders all its clones and saves. An
        unknown task or an index past the end changes nothing. */
    method ToggleMarker(id: Guid, index: nat)
      requires Valid()
      modifies this
      ensures board == old(board) && clones == old(clones) && nextHandle == old(nextHandle)
      ensures Valid()
      ensures old(MarkersBounded()) ==> MarkersBounded()
      ensures id in old(markers) && index < |old(markers)[id]| ==>
        markers == old(markers)[id := Toggled(old(markers)[id], index)] &&
        shown == Refreshed(old(shown), ClonesFor(old(clones), id), ProgressView(markers[id])) &&
        saved == Snapshot(board, markers) && disk == saved
      ensures !(id in old(markers) && index < |old(markers)[id]|) ==>
        markers == old(markers) && saved == old(saved) && disk == old(disk) && shown == old(shown)
    {
      if id in markers && index < |markers[id]| {
        RefreshKeeps(clones, markers, shown, nextHandle, id, Toggled(markers[id], index));
        if id in clones {
          CloneIds(clones, markers, nextHandle, id);
        }
        markers := markers[id := Toggled(markers[id], index)];
        UpdateAllClonesForTask(id);
        SaveAllTasksToDisk();
      }
    }

    /** AddMarker: appends an unticked marker to a task with fewer than three, re-renders all
        its clones and saves. Otherwise nothing changes. */
    method AddMarker(id: Guid)
      requires Valid()
      modifies this
      ensures board == old(board) && clones == old(clones) && nextHandle == old(nextHandle)
      ensures Valid()
      ensures old(MarkersBounded()) ==> MarkersBounded()
      ensures id in old(markers) && |old(markers)[id]| < MaxMarkers ==>
        markers == old(markers)[id := WithNewMarker(old(markers)[id])] &&
        shown == Refreshed(old(shown), ClonesFor(old(clones), id), ProgressView(markers[id])) &&
        saved == Snapshot(board, markers) && disk == saved
      ensures !(id in old(markers) && |old(markers)[id]| < MaxMarkers) ==>
        markers == old(markers) && saved == old(saved) && disk == old(disk) && shown == old(shown)
    {
      if id in markers && |markers[id]| < MaxMarkers {
        RefreshKeeps(clones, markers, shown, nextHandle, id, WithNewMarker(markers[id]));
        if id in clones {
          CloneIds(clones, markers, nextHandle, id);
        }
        if MarkersBounded() {
          WithNewMarkerBounded(markers[id]);
        }
        markers := markers[id := WithNewMarker(markers[id])];
        UpdateAllClonesForTask(id);
        SaveAllTasksToDisk();
      }
    }

    /** AddTask_Click for the input box of `category` holding `input`; `id` is the Guid the new
        task gets. A text that trims to nothing or to the placeholder, or a category other than
        the four, adds nothing. Otherwise a card goes to the category's stack, a clone to the
        pool, and a record without a day is appended to the saved list, which is written out
        as it is. */
    method AddTask_Click(category: string, input: string, id: Guid) returns (added: bool)
      requires Valid()
      modifies this
      ensures added <==> category in Categories && Trim(input) != [] && Trim(input) != Placeholder
      ensures Valid()
      ensures old(MarkersBounded()) ==> MarkersBounded()
      ensures !added ==>
        board == old(board) && markers == old(markers) && clones == old(clones) &&
        saved == old(saved) && disk == old(disk) && nextHandle == old(nextHandle) && shown == old(shown)
      ensures added ==> board == old(board).Put(Stack(IndexOf(Categories, category)),
                                                Card(old(nextHandle), id, Trim(input), category))
                                           .Put(Pool, Card(old(nextHandle) + 1, id, Trim(input), category))
      ensures added ==> nextHandle == old(nextHandle) + 2
      ensures added ==> markers == InitMarkers(old(markers), id) && id in markers
      ensures added ==> clones == Register(Register(old(clones), Card(old(nextHandle), id, Trim(input), category)),
                                           Card(old(nextHandle) + 1, id, Trim(input), category))
      ensures added ==> saved == old(saved) + [TaskItem(id, Trim(input), category, "", markers[id])]
      ensures added ==> disk == saved
    {
      var q := IndexOf(Categories, category);
      if q == |Categories| {
        return false;
      }
      var text, accepted := ReadTaskText(input);
      if !accepted {
        return false;
      }
      AddTaskCards(q, id, text, category);
      added := true;
    }

    /** The part of AddTask_Click after the checks: the marker default, a card in stack `q`, a
        clone in the pool, and the new record, written out with the rest of the list. */
    method AddTaskCards(q: nat, id: Guid, text: string, category: string)
      requires Valid() && q < |Categories|
      modifies this
      ensures Valid()
      ensures old(MarkersBounded()) ==> MarkersBounded()
      ensures board == old(board).Put(Stack(q), Card(old(nextHandle), id, text, category))
                                 .Put(Pool, Card(old(nextHandle) + 1, id, text, category))
      ensures nextHandle == old(nextHandle) + 2
      ensures markers == InitMarkers(old(markers), id) && id in markers
      ensures clones == Register(Register(old(clones), Card(old(nextHandle), id, text, category)),
                                 Card(old(nextHandle) + 1, id, text, category))
      ensures saved == old(saved) + [TaskItem(id, text, category, "", markers[id])]
      ensures disk == saved
    {
      ghost var b0, c0, h := board, clones, nextHandle;
      DefaultMarkers(id);
      var taskCard := PlaceClone(Stack(q), id, text, category);
      var poolCard := PlaceClone(Pool, id, text, category);
      assert board == b0.Put(Stack(q), taskCard).Put(Pool, poolCard);
      assert clones == Register(Register(c0, taskCard), poolCard);
      var markerCopy := markers[id];
      var record := DefaultTaskItem().(id := id, text := text, originalCategory := category,
                                       markerStates := markerCopy);
      saved := saved + [record];
      disk := saved;
    }

    /** The marker default of AddTask_Click: a task without a marker list gets one unticked
        marker. */
    method DefaultMarkers(id: Guid)
      requires Valid()
      modifies this`markers
      ensures Valid()
      ensures old(MarkersBounded()) ==> MarkersBounded()
      ensures markers == InitMarkers(old(markers), id)
    {
      if id !in markers {
        FreshMarkersKeep(clones, markers, shown, nextHandle, id, [false]);
        markers := markers[id := [false]];
      }
    }

    /** CreateTaskCard followed by adding the new card to container `p`. */
    method PlaceClone(p: PanelId, id: Guid, text: string, category: string) returns (c: Card)
      requires Valid() && IsPanel(p)
      modifies this`board, this`markers, this`nextHandle, this`clones, this`shown
      ensures Valid()
      ensures old(MarkersBounded()) ==> MarkersBounded()
      ensures c == Card(old(nextHandle), id, text, category)
      ensures board == old(board).Put(p, c)
      ensures nextHandle == old(nextHandle) + 1
      ensures markers == InitMarkers(old(markers), id)
      ensures clones == Register(old(clones), c)
    {
      c := CreateTaskCard(id, text, category);
      PutKeeps(board, clones, p, c);
      board := board.Put(p, c);
    }

    /** DeleteButton_Click on card `c`; `inDayPanel` says whether the card sits under one of
        the day panels. Outside a day panel every clone of the task is removed, with its marker
        list and its records, and the record list is written out; inside a day panel only that
        card is removed and nothing is written. */
    method DeleteButton_Click(c: Card, inDayPanel: bool)
      requires Valid()
      modifies this`board, this`clones, this`markers, this`saved, this`disk
      ensures Valid()
      ensures old(MarkersBounded()) ==> MarkersBounded()
      ensures !inDayPanel ==>
        board == old(board).Without(ClonesFor(old(clones), c.id)) &&
        clones == old(clones) - {c.id} && markers == old(markers) - {c.id} &&
        saved == WithoutTask(old(saved), c.id) && disk == saved &&
        forall p, x | IsPanel(p) && x in board.Get(p) :: x.id != c.id
      ensures inDayPanel ==>
        board == old(board).Without([c]) && markers == old(markers) &&
        (c.id in old(clones) ==> clones == old(clones)[c.id := RemoveFirst(old(clones)[c.id], c)]) &&
        (c.id !in old(clones) ==> clones == old(clones)) &&
        saved == old(saved) && disk == old(disk)
    {
      if !inDayPanel {
        DeleteEverywhere(c.id);
      } else {
        DeleteHere(c);
      }
    }

    /** The branch of DeleteButton_Click outside the day panels: every clone of task `taskId`
        is detached, its clone list and marker list are dropped, its records are removed from
        the record list and the list is written out. */
    method DeleteEverywhere(taskId: Guid)
      requires Valid()
      modifies this`board, this`clones, this`markers, this`saved, this`disk
      ensures Valid()
      ensures old(MarkersBounded()) ==> MarkersBounded()
      ensures board == old(board).Without(ClonesFor(old(clones), taskId))
      ensures clones == old(clones) - {taskId} && markers == old(markers) - {taskId}
      ensures saved == WithoutTask(old(saved), taskId) && disk == saved
      ensures forall p, x | IsPanel(p) && x in board.Get(p) :: x.id != taskId
    {
      DeleteAllKeeps(board, clones, markers, shown, nextHandle, taskId);
      WithoutNothing(board);
      if taskId in clones {
        var instances := clones[taskId];
        ghost var b0 := board;
        for k := 0 to |instances|
          invariant clones == old(clones) && markers == old(markers)
          invariant saved == old(saved) && disk == old(disk)
          invariant board == b0.Without(instances[..k])
        {
          assert instances[..k + 1] == instances[..k] + [instances[k]];
          WithoutWithout(b0, instances[..k], instances[k]);
          RemoveCloneFromParent(instances[k]);
        }
        assert instances[..|instances|] == instances;
        clones := clones - {taskId};
      }
      markers := markers - {taskId};
      saved := WithoutTask(saved, taskId);
      disk := saved;
    }

    /** The branch of DeleteButton_Click inside a day panel: only card `c` is detached and
        dropped from its task's clone list; the marker lists and the record list stay. */
    method DeleteHere(c: Card)
      requires Valid()
      modifies this`board, this`clones
      ensures Valid()
      ensures board == old(board).Without([c])
      ensures c.id in old(clones) ==> clones == old(clones)[c.id := RemoveFirst(old(clones)[c.id], c)]
      ensures c.id !in old(clones) ==> clones == old(clones)
    {
      DetachKeeps(board, clones, c);
      if c.id in clones {
        ForgetKeeps(clones, markers, shown, nextHandle, c);
      }
      RemoveCloneFromParent(c);
      if c.id in clones {
        clones := clones[c.id := RemoveFirst(clones[c.id], c)];
      }
    }

    /** RemoveCloneFromParent: detaches a card from the container holding it. */
    method RemoveCloneFromParent(c: Card)
      requires board.WellShaped()
      modifies this`board
      ensures board == old(board).Without([c])
    {
      board := board.Without([c]);
    }

    /** DayPanel_Drop of a dragged task (`id`, `text`, `category` from the dragged card's tag)
        on day panel `d`. A day panel already holding a clone of the task ignores the drop.
        Otherwise a new clone goes to the panel, the first saved record of the task gets the
        day (or a record is appended), and then everything is saved from the containers. */
    method DayPanel_Drop(d: nat, id: Guid, text: string, category: string)
      requires Valid() && d < |DayNames|
      modifies this
      ensures Valid()
      ensures old(MarkersBounded()) ==> MarkersBounded()
      ensures (exists k | 0 <= k < |old(board).days[d]| :: old(board).days[d][k].id == id) ==>
        board == old(board) && markers == old(markers) && clones == old(clones) &&
        saved == old(saved) && disk == old(disk) && nextHandle == old(nextHandle) && shown == old(shown)
      ensures (forall k | 0 <= k < |old(board).days[d]| :: old(board).days[d][k].id != id) ==>
        board == old(board).Put(Day(d), Card(old(nextHandle), id, text, category)) &&
        nextHandle == old(nextHandle) + 1 &&
        markers == InitMarkers(old(markers), id) &&
        clones == Register(old(clones), Card(old(nextHandle), id, text, category)) &&
        saved == Snapshot(board, markers) && disk == saved &&
        TaskItem(id, text, category, DayNames[d], markers[id]) in saved
    {
      var found := HoldsTask(board.days[d], id);
      if found {
        return;
      }
      PlaceOnDay(d, id, text, category);
    }

    /** The part of DayPanel_Drop after the duplicate check: the new clone in day panel `d`,
        the upsert of the task's record, and the save that follows it. */
    method PlaceOnDay(d: nat, id: Guid, text: string, category: string)
      requires Valid() && d < |DayNames|
      modifies this
      ensures Valid()
      ensures old(MarkersBounded()) ==> MarkersBounded()
      ensures board == old(board).Put(Day(d), Card(old(nextHandle), id, text, category))
      ensures nextHandle == old(nextHandle) + 1
      ensures markers == InitMarkers(old(markers), id)
      ensures clones == Register(old(clones), Card(old(nextHandle), id, text, category))
      ensures saved == Snapshot(board, markers) && disk == saved
      ensures TaskItem(id, text, category, DayNames[d], markers[id]) in saved
    {
      var weeklyCard := PlaceClone(Day(d), id, text, category);
      ghost var b1, m1, c1, h1 := board, markers, clones, nextHandle;
      var dayName := DayNameOf(Day(d));
      var states := if id in markers then markers[id] else [false];
      saved := UpsertDay(saved, id, text, category, dayName, states);
      SaveAllTasksToDisk();
      assert board == b1 && markers == m1 && clones == c1 && nextHandle == h1;
      assert weeklyCard in board.Get(Day(d));
      SnapshotMembers(board, markers, PanelRecord(weeklyCard, Day(d), markers));
    }

    /** TaskPool_Drop of a dragged task on the pool. A pool already holding a clone of the task
        ignores the drop; otherwise a new clone goes to the pool and everything is saved, which
        leaves the records as the containers other than the pool dictate. */
    method TaskPool_Drop(id: Guid, text: string, category: string)
      requires Valid()
      modifies this
      ensures Valid()
      ensures old(MarkersBounded()) ==> MarkersBounded()
      ensures (exists k | 0 <= k < |old(board).pool| :: old(board).pool[k].id == id) ==>
        board == old(board) && markers == old(markers) && clones == old(clones) &&
        saved == old(saved) && disk == old(disk) && nextHandle == old(nextHandle) && shown == old(shown)
      ensures (forall k | 0 <= k < |old(board).pool| :: old(board).pool[k].id != id) ==>
        board == old(board).Put(Pool, Card(old(nextHandle), id, text, category)) &&
        nextHandle == old(nextHandle) + 1 &&
        markers == InitMarkers(old(markers), id) &&
        clones == Register(old(clones), Card(old(nextHandle), id, text, category)) &&
        saved == Snapshot(old(board), markers) && disk == saved
    {
      var found := HoldsTask(board.pool, id);
      if found {
        return;
      }
      var poolCard := PlaceClone(Pool, id, text, category);
      SaveAllTasksToDisk();
      assert board == old(board).(pool := board.pool);
      SnapshotIgnoresPool(old(board), board.pool, markers);
    }
  }
}
