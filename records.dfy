/** The flat record list that the window persists: how SaveAllTasksToDisk turns container
    contents into records, and the in-place edits of `_savedTasks` (Find, Add, RemoveAll). */
module Records {
  import opened Models
  import opened Panels

  /** The marker list saved for a task: the shared entry, or an empty list when there is none. */
  function MarkersOf(markers: map<Guid, seq<bool>>, id: Guid): (r: seq<bool>)
    ensures id in markers ==> r == markers[id]
    ensures id !in markers ==> r == []
  {
    if id in markers then markers[id] else []
  }

  /** The containers whose cards are saved: the category stacks and the day panels. */
  predicate IsSaved(p: PanelId)
  {
    IsPanel(p) && !p.Pool?
  }

  /** The order in which SaveAllTasksToDisk visits containers: the four stacks, then Monday to
      Sunday. */
  const SaveOrder: seq<PanelId> :=
    [Stack(0), Stack(1), Stack(2), Stack(3),
     Day(0), Day(1), Day(2), Day(3), Day(4), Day(5), Day(6)]

  lemma {:induction false} SaveOrderSaved()
    ensures forall i | 0 <= i < |SaveOrder| :: IsSaved(SaveOrder[i])
    ensures forall p | IsSaved(p) :: p in SaveOrder
  {
    forall p | IsSaved(p) ensures p in SaveOrder {
      match p
      case Stack(q) => assert SaveOrder[q] == p;
      case Day(d) => assert SaveOrder[4 + d] == p;
    }
  }

  /** SaveAllTasksToDisk visits each container once. */
  lemma {:induction false} SaveOrderDistinct()
    ensures forall i, j | 0 <= i < j < |SaveOrder| :: SaveOrder[i] != SaveOrder[j]
  {
  }

  /** The record saved for card `c` found in container `p`: a stack card is saved under the
      stack's label with no day; a day card keeps its own category and gets the day's name. */
  function PanelRecord(c: Card, p: PanelId, markers: map<Guid, seq<bool>>): (t: TaskItem)
    requires IsSaved(p)
    ensures t.id == c.id && t.text == c.text && t.markerStates == MarkersOf(markers, c.id)
    ensures p.Stack? ==> t.originalCategory == Categories[p.q] && !HasDay(t)
    ensures p.Day? ==> t.originalCategory == c.category && t.dayAssignment == DayNames[p.d]
  {
    match p
    case Stack(q) => TaskItem(c.id, c.text, Categories[q], "", MarkersOf(markers, c.id))
    case Day(d) => TaskItem(c.id, c.text, c.category, DayNames[d], MarkersOf(markers, c.id))
  }

  /** The records of one container, one per card, in card order. */
  function PanelRecords(cards: seq<Card>, p: PanelId, markers: map<Guid, seq<bool>>): (r: seq<TaskItem>)
    requires IsSaved(p)
    ensures |r| == |cards|
    ensures forall k | 0 <= k < |cards| :: r[k] == PanelRecord(cards[k], p, markers)
  {
    seq(|cards|, k requires 0 <= k < |cards| => PanelRecord(cards[k], p, markers))
  }

  /** The records of the containers `ps`, container after container. */
  function RecordsOver(ps: seq<PanelId>, b: Board, markers: map<Guid, seq<bool>>): seq<TaskItem>
    requires b.WellShaped() && forall i | 0 <= i < |ps| :: IsSaved(ps[i])
    decreases |ps|
  {
    if ps == [] then []
    else
      var last := ps[|ps| - 1];
      assert IsSaved(last);
      RecordsOver(ps[..|ps| - 1], b, markers) + PanelRecords(b.Get(last), last, markers)
  }

  /** What SaveAllTasksToDisk leaves in `_savedTasks` for a board and a marker map. */
  function Snapshot(b: Board, markers: map<Guid, seq<bool>>): seq<TaskItem>
    requires b.WellShaped()
  {
    SaveOrderSaved();
    RecordsOver(SaveOrder, b, markers)
  }

  /** The records SaveAllTasksToDisk has collected once it has visited the first `k` containers:
      none at the start and the whole snapshot at the end. */
  function SavedAfter(k: nat, b: Board, markers: map<Guid, seq<bool>>): (r: seq<TaskItem>)
    requires b.WellShaped() && k <= |SaveOrder|
    ensures k == 0 ==> r == []
    ensures k == |SaveOrder| ==> r == Snapshot(b, markers)
  {
    SaveOrderSaved();
    assert k == |SaveOrder| ==> SaveOrder[..k] == SaveOrder;
    RecordsOver(SaveOrder[..k], b, markers)
  }

  /** A record is saved from the containers `ps` exactly when some card of one of them yields it. */
  lemma {:induction false} RecordsOverMembers(ps: seq<PanelId>, b: Board, markers: map<Guid, seq<bool>>, t: TaskItem)
    requires b.WellShaped() && forall i | 0 <= i < |ps| :: IsSaved(ps[i])
    ensures t in RecordsOver(ps, b, markers) <==>
            exists p, c | p in ps && IsSaved(p) && c in b.Get(p) :: t == PanelRecord(c, p, markers)
  {
    if ps != [] {
      var init, last := ps[..|ps| - 1], ps[|ps| - 1];
      RecordsOverMembers(init, b, markers, t);
      var tail := PanelRecords(b.Get(last), last, markers);
      if t in tail {
        var k :| 0 <= k < |tail| && tail[k] == t;
        assert b.Get(last)[k] in b.Get(last);
      }
      if exists p, c | p in ps && IsSaved(p) && c in b.Get(p) :: t == PanelRecord(c, p, markers) {
        var p, c :| p in ps && IsSaved(p) && c in b.Get(p) && t == PanelRecord(c, p, markers);
        if p == last {
          var k :| 0 <= k < |b.Get(p)| && b.Get(p)[k] == c;
          assert tail[k] == t;
        } else {
          assert p in init by {
            var j :| 0 <= j < |ps| && ps[j] == p;
            assert j < |ps| - 1;
            assert init[j] == p;
          }
        }
      }
    }
  }

  /** Saving yields exactly one record per card of a stack or a day panel: a stack card under the
      stack's label with no day, a day card with its own category and the day's name, each with
      the shared marker list (or none). */
  lemma {:induction false} SnapshotMembers(b: Board, markers: map<Guid, seq<bool>>, t: TaskItem)
    requires b.WellShaped()
    ensures t in Snapshot(b, markers) <==>
            exists p, c | IsSaved(p) && c in b.Get(p) :: t == PanelRecord(c, p, markers)
  {
    SaveOrderSaved();
    RecordsOverMembers(SaveOrder, b, markers, t);
  }

  /** The pool is never saved: its contents do not affect the snapshot. */
  lemma {:induction false} RecordsOverIgnoresPool(ps: seq<PanelId>, b: Board, pool: seq<Card>, markers: map<Guid, seq<bool>>)
    requires b.WellShaped() && forall i | 0 <= i < |ps| :: IsSaved(ps[i])
    ensures RecordsOver(ps, b.(pool := pool), markers) == RecordsOver(ps, b, markers)
    decreases |ps|
  {
    if ps != [] {
      RecordsOverIgnoresPool(ps[..|ps| - 1], b, pool, markers);
      assert b.(pool := pool).Get(ps[|ps| - 1]) == b.Get(ps[|ps| - 1]);
    }
  }

  lemma {:induction false} SnapshotIgnoresPool(b: Board, pool: seq<Card>, markers: map<Guid, seq<bool>>)
    requires b.WellShaped()
    ensures Snapshot(b.(pool := pool), markers) == Snapshot(b, markers)
  {
    SaveOrderSaved();
    RecordsOverIgnoresPool(SaveOrder, b, pool, markers);
  }

  /** When no shared marker list is longer than three, no saved record is either. */
  lemma {:induction false} SnapshotBounded(b: Board, markers: map<Guid, seq<bool>>)
    requires b.WellShaped()
    requires forall id | id in markers :: |markers[id]| <= 3
    ensures forall t | t in Snapshot(b, markers) :: |t.markerStates| <= 3
  {
    forall t | t in Snapshot(b, markers) ensures |t.markerStates| <= 3 {
      SnapshotMembers(b, markers, t);
    }
  }

  /** ProcessStackChildren: one record per card of a category stack, in order, under the stack's
      label, with no day, and with a copy of the shared marker list (empty when missing). */
  method ProcessStackChildren(cards: seq<Card>, category: string, markers: map<Guid, seq<bool>>)
    returns (r: seq<TaskItem>)
    ensures |r| == |cards|
    ensures forall k | 0 <= k < |cards| ::
      r[k] == TaskItem(cards[k].id, cards[k].text, category, "", MarkersOf(markers, cards[k].id))
  {
    r := [];
    for k := 0 to |cards|
      invariant |r| == k
      invariant forall j | 0 <= j < k ::
        r[j] == TaskItem(cards[j].id, cards[j].text, category, "", MarkersOf(markers, cards[j].id))
    {
      var card := cards[k];
      var states := if card.id in markers then markers[card.id] else [];
      r := r + [TaskItem(card.id, card.text, category, "", states)];
    }
  }

  /** ProcessDayPanel: one record per card of a day panel, in order, keeping the card's own
      category, with the day's name, and with a copy of the shared marker list. */
  method ProcessDayPanel(cards: seq<Card>, dayName: string, markers: map<Guid, seq<bool>>)
    returns (r: seq<TaskItem>)
    ensures |r| == |cards|
    ensures forall k | 0 <= k < |cards| ::
      r[k] == TaskItem(cards[k].id, cards[k].text, cards[k].category, dayName, MarkersOf(markers, cards[k].id))
  {
    r := [];
    for k := 0 to |cards|
      invariant |r| == k
      invariant forall j | 0 <= j < k ::
        r[j] == TaskItem(cards[j].id, cards[j].text, cards[j].category, dayName, MarkersOf(markers, cards[j].id))
    {
      var card := cards[k];
      var states := if card.id in markers then markers[card.id] else [];
      r := r + [TaskItem(card.id, card.text, card.category, dayName, states)];
    }
  }

  /** List.Find by id: the position of the first record of task `id`, or `|saved|`. */
  function FindIndex(saved: seq<TaskItem>, id: Guid): (k: nat)
    ensures k <= |saved|
    ensures k < |saved| ==> saved[k].id == id
    ensures forall j | 0 <= j < k :: saved[j].id != id
  {
    if saved == [] then 0
    else if saved[0].id == id then 0
    else 1 + FindIndex(saved[1..], id)
  }

  /** The upsert of DayPanel_Drop: the first record of task `id` gets day `day`, all else as it
      was; when there is no record of the task, a new one is appended. */
  function UpsertDay(saved: seq<TaskItem>, id: Guid, text: string, category: string, day: string,
                     states: seq<bool>): (r: seq<TaskItem>)
    ensures (exists k | 0 <= k < |saved| :: saved[k].id == id) ==>
      |r| == |saved| &&
      var k := FindIndex(saved, id);
      r[k] == saved[k].(dayAssignment := day) &&
      forall j | 0 <= j < |saved| && j != k :: r[j] == saved[j]
    ensures (forall k | 0 <= k < |saved| :: saved[k].id != id) ==>
      r == saved + [TaskItem(id, text, category, day, states)]
  {
    var k := FindIndex(saved, id);
    if k < |saved| then saved[k := saved[k].(dayAssignment := day)]
    else saved + [TaskItem(id, text, category, day, states)]
  }

  /** RemoveAll by id: every record of task `id` dropped, the others kept in order. */
  function WithoutTask(saved: seq<TaskItem>, id: Guid): (r: seq<TaskItem>)
    ensures |r| <= |saved|
    ensures forall t :: t in r <==> t in saved && t.id != id
    ensures (forall k | 0 <= k < |saved| :: saved[k].id != id) ==> r == saved
  {
    if saved == [] then []
    else
      assert saved == [saved[0]] + saved[1..];
      (if saved[0].id == id then [] else [saved[0]]) + WithoutTask(saved[1..], id)
  }

  /** RemoveAll keeps the order of the records it keeps: removing from a concatenation removes
      from each part. */
  lemma {:induction false} WithoutTaskAppend(a: seq<TaskItem>, b: seq<TaskItem>, id: Guid)
    ensures WithoutTask(a + b, id) == WithoutTask(a, id) + WithoutTask(b, id)
  {
    if a != [] {
      assert (a + b)[1..] == a[1..] + b;
      assert (a + b)[0] == a[0];
      WithoutTaskAppend(a[1..], b, id);
    } else {
      assert a + b == b;
    }
  }

  /** A single record is dropped exactly when it belongs to task `id`; together with
      WithoutTaskAppend this fixes every kept record's position and multiplicity. */
  lemma {:induction false} WithoutTaskOne(t: TaskItem, id: Guid)
    ensures WithoutTask([t], id) == if t.id == id then [] else [t]
  {
    assert [t][1..] == [];
  }

  /** Visiting one more container appends that container's records. */
  lemma {:induction false} RecordsOverPrefix(ps: seq<PanelId>, k: nat, b: Board, markers: map<Guid, seq<bool>>)
    requires b.WellShaped() && forall i | 0 <= i < |ps| :: IsSaved(ps[i])
    requires k < |ps|
    ensures RecordsOver(ps[..k + 1], b, markers) ==
      RecordsOver(ps[..k], b, markers) + PanelRecords(b.Get(ps[k]), ps[k], markers)
  {
    assert ps[..k + 1][..k] == ps[..k];
  }
}
