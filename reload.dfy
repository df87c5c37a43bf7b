/** How RebuildUIFromSavedTasks turns the saved record list into cards, containers, clone lists
    and marker lists, and what saving the rebuilt window gives back. */
module Reload {
  import opened Models
  import opened Panels
  import opened Records
  import opened Registry

  /** One card created by the rebuild: the record it was made from, its handle, and whether it
      is the extra pool clone of a record without a day. */
  datatype Placement = Placement(record: TaskItem, handle: nat, poolClone: bool)

  /** The card CreateTaskCard makes for a record, with handle `h`. */
  function CardFor(t: TaskItem, h: nat): Card
  {
    Card(h, t.id, t.text, t.originalCategory)
  }

  /** The card of a placement. */
  function PlacedCard(pl: Placement): Card
  {
    CardFor(pl.record, pl.handle)
  }

  /** The container a placement's card is added to: the record's Slot, or the pool for the
      extra clone; it is always one of the window's containers. */
  function PlacedPanel(pl: Placement): (p: PanelId)
    ensures IsPanel(p)
  {
    if pl.poolClone then Pool else Slot(pl.record)
  }

  /** The cards one record yields, in creation order: its card in the container Slot chooses,
      and, when the record has no day, a second clone in the pool. */
  function Step(t: TaskItem, h: nat): (s: seq<Placement>)
    ensures |s| == if HasDay(t) then 1 else 2
    ensures s[0] == Placement(t, h, false)
    ensures !HasDay(t) ==> s[1] == Placement(t, h + 1, true)
  {
    [Placement(t, h, false)] + (if HasDay(t) then [] else [Placement(t, h + 1, true)])
  }

  /** A record with a day other than the seven day names yields one card, in the pool. */
  lemma {:induction false} StepUnknownDay(t: TaskItem, h: nat)
    requires HasDay(t) && t.dayAssignment !in DayNames
    ensures |Step(t, h)| == 1 && PlacedPanel(Step(t, h)[0]) == Pool
  {
  }

  /** The cards the rebuild creates for `items`, record after record, handles counting up
      from `h`. */
  function Placements(items: seq<TaskItem>, h: nat): seq<Placement>
    decreases |items|
  {
    if items == [] then []
    else
      var p := Placements(items[..|items| - 1], h);
      p + Step(items[|items| - 1], h + |p|)
  }

  /** Handles are consecutive from `h`, so the created cards are pairwise distinct. */
  lemma {:induction false} PlacementsHandles(items: seq<TaskItem>, h: nat)
    ensures forall k | 0 <= k < |Placements(items, h)| :: Placements(items, h)[k].handle == h + k
    decreases |items|
  {
    if items != [] {
      PlacementsHandles(items[..|items| - 1], h);
    }
  }

  /** The cards placed in container `p`, in placement order. */
  function CardsAt(ps: seq<Placement>, p: PanelId): seq<Card>
    decreases |ps|
  {
    if ps == [] then []
    else CardsAt(ps[..|ps| - 1], p) + (if PlacedPanel(ps[|ps| - 1]) == p then [PlacedCard(ps[|ps| - 1])] else [])
  }

  lemma {:induction false} CardsAtAppend(a: seq<Placement>, b: seq<Placement>, p: PanelId)
    ensures CardsAt(a + b, p) == CardsAt(a, p) + CardsAt(b, p)
    decreases |b|
  {
    if b == [] {
      assert a + b == a;
    } else {
      assert (a + b)[..|a + b| - 1] == a + b[..|b| - 1];
      CardsAtAppend(a, b[..|b| - 1], p);
    }
  }

  /** The board after adding the placed cards, one by one, to their containers. */
  function PlaceAll(b: Board, ps: seq<Placement>): (r: Board)
    requires b.WellShaped()
    ensures r.WellShaped()
    decreases |ps|
  {
    if ps == [] then b
    else PlaceAll(b, ps[..|ps| - 1]).Put(PlacedPanel(ps[|ps| - 1]), PlacedCard(ps[|ps| - 1]))
  }

  /** Each container ends up holding what it held before, followed by the cards placed in it. */
  lemma {:induction false} PlaceAllGet(b: Board, ps: seq<Placement>, p: PanelId)
    requires b.WellShaped() && IsPanel(p)
    ensures PlaceAll(b, ps).Get(p) == b.Get(p) + CardsAt(ps, p)
    decreases |ps|
  {
    if ps != [] {
      PlaceAllGet(b, ps[..|ps| - 1], p);
    }
  }

  /** The clone lists after registering the placed cards one by one. */
  function RegisterAll(clones: map<Guid, seq<Card>>, ps: seq<Placement>): map<Guid, seq<Card>>
    decreases |ps|
  {
    if ps == [] then clones
    else Register(RegisterAll(clones, ps[..|ps| - 1]), PlacedCard(ps[|ps| - 1]))
  }

  /** The marker map the rebuild makes: the first record of each id decides its list. */
  function FirstMarkers(items: seq<TaskItem>): map<Guid, seq<bool>>
    decreases |items|
  {
    if items == [] then map[]
    else
      var m := FirstMarkers(items[..|items| - 1]);
      var t := items[|items| - 1];
      if t.id in m then m else m[t.id := t.markerStates]
  }

  /** Every saved id has a marker list after the rebuild, and it is a copy of the list of the
      first record with that id; later duplicates do not override it. An empty saved list stays
      empty (the single-marker default is not applied to loaded records). */
  lemma {:induction false} FirstMarkersFirst(items: seq<TaskItem>, id: Guid)
    ensures id in FirstMarkers(items) <==> exists k | 0 <= k < |items| :: items[k].id == id
    ensures id in FirstMarkers(items) ==>
      FindIndex(items, id) < |items| &&
      FirstMarkers(items)[id] == items[FindIndex(items, id)].markerStates
    decreases |items|
  {
    if items != [] {
      var init := items[..|items| - 1];
      FirstMarkersFirst(init, id);
      FindIndexPrefix(items, id);
    }
  }

  /** The rebuilt marker lists are taken from the records, so a bound on every record's list
      bounds every rebuilt list. */
  lemma {:induction false} FirstMarkersBounded(items: seq<TaskItem>, n: nat)
    requires forall k | 0 <= k < |items| :: |items[k].markerStates| <= n
    ensures forall id | id in FirstMarkers(items) :: |FirstMarkers(items)[id]| <= n
  {
    forall id | id in FirstMarkers(items) ensures |FirstMarkers(items)[id]| <= n {
      FirstMarkersFirst(items, id);
    }
  }

  /** Looking up an id in a list or in the list without its last record agrees whenever the id
      occurs before the last record. */
  lemma {:induction false} FindIndexPrefix(items: seq<TaskItem>, id: Guid)
    requires items != []
    ensures var init := items[..|items| - 1];
      (FindIndex(init, id) < |init| ==> FindIndex(items, id) == FindIndex(init, id)) &&
      (FindIndex(init, id) == |init| ==> FindIndex(items, id) == |init| || FindIndex(items, id) == |items|)
  {
    var init := items[..|items| - 1];
    var k := FindIndex(init, id);
    if k < |init| {
      assert items[k] == init[k];
    }
  }

  /** Only the first record of an id decides; when every record of the id carries the same list,
      that is the list. */
  lemma {:induction false} FirstMarkersUniform(items: seq<TaskItem>, m: map<Guid, seq<bool>>)
    requires forall k | 0 <= k < |items| :: items[k].markerStates == MarkersOf(m, items[k].id)
    ensures forall k | 0 <= k < |items| :: MarkersOf(FirstMarkers(items), items[k].id) == items[k].markerStates
  {
    forall k | 0 <= k < |items|
      ensures MarkersOf(FirstMarkers(items), items[k].id) == items[k].markerStates
    {
      FirstMarkersFirst(items, items[k].id);
    }
  }

  /** The records of `items` that the rebuild would place in container `p`. */
  function RecordsAt(items: seq<TaskItem>, p: PanelId): seq<TaskItem>
    decreases |items|
  {
    if items == [] then []
    else RecordsAt(items[..|items| - 1], p) + (if Slot(items[|items| - 1]) == p then [items[|items| - 1]] else [])
  }

  lemma {:induction false} RecordsAtAppend(a: seq<TaskItem>, b: seq<TaskItem>, p: PanelId)
    ensures RecordsAt(a + b, p) == RecordsAt(a, p) + RecordsAt(b, p)
    decreases |b|
  {
    if b == [] {
      assert a + b == a;
    } else {
      assert (a + b)[..|a + b| - 1] == a + b[..|b| - 1];
      RecordsAtAppend(a, b[..|b| - 1], p);
    }
  }

  /** A saved record is placed back in the container it was saved from. */
  lemma {:induction false} SlotOfPanelRecord(c: Card, p: PanelId, m: map<Guid, seq<bool>>)
    requires IsSaved(p)
    ensures Slot(PanelRecord(c, p, m)) == p
  {
    LabelsDistinct();
  }

  /** The records a single record contributes to container `p`. */
  lemma {:induction false} RecordsAtOne(t: TaskItem, p: PanelId)
    ensures RecordsAt([t], p) == if Slot(t) == p then [t] else []
  {
    assert [t][..0] == [];
  }

  /** The records of one container all go back to that container. */
  lemma {:induction false} RecordsAtPanel(cards: seq<Card>, q: PanelId, p: PanelId, m: map<Guid, seq<bool>>)
    requires IsSaved(q)
    ensures RecordsAt(PanelRecords(cards, q, m), p) == if p == q then PanelRecords(cards, q, m) else []
    decreases |cards|
  {
    if cards != [] {
      var init, last := cards[..|cards| - 1], cards[|cards| - 1];
      var rs, r := PanelRecords(init, q, m), PanelRecord(last, q, m);
      assert PanelRecords(cards, q, m) == rs + [r];
      RecordsAtPanel(init, q, p, m);
      SlotOfPanelRecord(last, q, m);
      RecordsAtAppend(rs, [r], p);
      RecordsAtOne(r, p);
    }
  }

  /** Filtering the saved list by container recovers that container's records. */
  lemma {:induction false} RecordsAtOver(ps: seq<PanelId>, b: Board, m: map<Guid, seq<bool>>, p: PanelId)
    requires b.WellShaped() && forall i | 0 <= i < |ps| :: IsSaved(ps[i])
    requires forall i, j | 0 <= i < j < |ps| :: ps[i] != ps[j]
    requires IsSaved(p)
    ensures RecordsAt(RecordsOver(ps, b, m), p) == if p in ps then PanelRecords(b.Get(p), p, m) else []
    decreases |ps|
  {
    if ps != [] {
      var init, last := ps[..|ps| - 1], ps[|ps| - 1];
      RecordsAtOver(init, b, m, p);
      RecordsAtAppend(RecordsOver(init, b, m), PanelRecords(b.Get(last), last, m), p);
      RecordsAtPanel(b.Get(last), last, p, m);
      if p != last && p in ps {
        var i :| 0 <= i < |ps| && ps[i] == p;
        assert init[i] == p;
      }
    }
  }

  /** A record that the window would save again, unchanged, from the card the rebuild makes
      for it: it goes to a saved container, and that container's record for its card is the
      record itself. */
  predicate Reproduces(t: TaskItem, m: map<Guid, seq<bool>>)
  {
    IsSaved(Slot(t)) && PanelRecord(CardFor(t, 0), Slot(t), m) == t
  }

  /** The saved record of a card does not depend on the card's handle. */
  lemma {:induction false} PanelRecordAnyHandle(t: TaskItem, h: nat, p: PanelId, m: map<Guid, seq<bool>>)
    requires IsSaved(p)
    ensures PanelRecord(CardFor(t, h), p, m) == PanelRecord(CardFor(t, 0), p, m)
  {
  }

  /** Of the cards of one record, only the main card can land in a saved container. */
  lemma {:induction false} CardsAtStep(t: TaskItem, h: nat, p: PanelId)
    requires IsSaved(p)
    ensures CardsAt(Step(t, h), p) == if Slot(t) == p then [CardFor(t, h)] else []
  {
    var st := Step(t, h);
    var first := [st[0]];
    assert CardsAt(first, p) == if Slot(t) == p then [CardFor(t, h)] else [] by {
      assert first[..0] == [];
    }
    if HasDay(t) {
      assert st == first;
    } else {
      assert st[..1] == first;
      assert PlacedPanel(st[1]) == Pool;
    }
  }

  lemma {:induction false} PanelRecordsAppend(a: seq<Card>, b: seq<Card>, p: PanelId, m: map<Guid, seq<bool>>)
    requires IsSaved(p)
    ensures PanelRecords(a + b, p, m) == PanelRecords(a, p, m) + PanelRecords(b, p, m)
  {
  }

  /** The records saved from the cards of one reproducing record: the record itself when it
      went to `p`, nothing otherwise. */
  lemma {:induction false} StepRecords(t: TaskItem, h: nat, p: PanelId, m: map<Guid, seq<bool>>)
    requires IsSaved(p) && Reproduces(t, m)
    ensures PanelRecords(CardsAt(Step(t, h), p), p, m) == if Slot(t) == p then [t] else []
  {
    CardsAtStep(t, h, p);
    if Slot(t) == p {
      PanelRecordAnyHandle(t, h, p, m);
    }
  }

  /** Saving container `p` after the cards of one more reproducing record were added gives the
      records saved before, followed by that record when it went to `p`. */
  lemma {:induction false} PanelRecordsSnoc(pre: seq<Placement>, t: TaskItem, h: nat, p: PanelId, m: map<Guid, seq<bool>>)
    requires IsSaved(p) && Reproduces(t, m)
    ensures PanelRecords(CardsAt(pre + Step(t, h), p), p, m) ==
      PanelRecords(CardsAt(pre, p), p, m) + if Slot(t) == p then [t] else []
  {
    var st := Step(t, h);
    CardsAtAppend(pre, st, p);
    StepRecords(t, h, p, m);
    PanelRecordsAppend(CardsAt(pre, p), CardsAt(st, p), p, m);
  }

  /** Rebuilding a record list whose every record reproduces itself, then saving container
      `p`, gives back the records that went to `p`. */
  lemma {:induction false} PanelRecordsOfPlacements(items: seq<TaskItem>, h: nat, p: PanelId, m: map<Guid, seq<bool>>)
    requires IsSaved(p)
    requires forall k | 0 <= k < |items| :: Reproduces(items[k], m)
    ensures PanelRecords(CardsAt(Placements(items, h), p), p, m) == RecordsAt(items, p)
    decreases |items|
  {
    if items != [] {
      var init, t := items[..|items| - 1], items[|items| - 1];
      assert Reproduces(t, m);
      var pre := Placements(init, h);
      PanelRecordsOfPlacements(init, h, p, m);
      PanelRecordsSnoc(pre, t, h + |pre|, p, m);
      assert RecordsAt(items, p) == RecordsAt(init, p) + (if Slot(t) == p then [t] else []);
    }
  }

  /** Two boards whose saved containers yield the same records give the same saved list. */
  lemma {:induction false} RecordsOverAgree(ps: seq<PanelId>, b1: Board, m1: map<Guid, seq<bool>>,
                                            b2: Board, m2: map<Guid, seq<bool>>)
    requires b1.WellShaped() && b2.WellShaped()
    requires forall i | 0 <= i < |ps| ::
      IsSaved(ps[i]) && PanelRecords(b1.Get(ps[i]), ps[i], m1) == PanelRecords(b2.Get(ps[i]), ps[i], m2)
    ensures RecordsOver(ps, b1, m1) == RecordsOver(ps, b2, m2)
    decreases |ps|
  {
    if ps != [] {
      RecordsOverAgree(ps[..|ps| - 1], b1, m1, b2, m2);
      assert IsSaved(ps[|ps| - 1]);
    }
  }

  /** Every record of a snapshot reproduces itself under the marker map a rebuild derives from
      the snapshot. */
  lemma {:induction false} SnapshotReproduces(b: Board, m: map<Guid, seq<bool>>)
    requires b.WellShaped()
    ensures var s := Snapshot(b, m);
      forall k | 0 <= k < |s| :: Reproduces(s[k], FirstMarkers(s))
  {
    var s := Snapshot(b, m);
    forall k | 0 <= k < |s| ensures s[k].markerStates == MarkersOf(m, s[k].id) {
      SnapshotMembers(b, m, s[k]);
    }
    FirstMarkersUniform(s, m);
    forall k | 0 <= k < |s| ensures Reproduces(s[k], FirstMarkers(s)) {
      SnapshotMembers(b, m, s[k]);
      var p, c :| IsSaved(p) && c in b.Get(p) && s[k] == PanelRecord(c, p, m);
      SlotOfPanelRecord(c, p, m);
    }
  }

  /** The records of a snapshot that go back to container `p` are the records saved from it. */
  lemma {:induction false} SnapshotAt(b: Board, m: map<Guid, seq<bool>>, p: PanelId)
    requires b.WellShaped() && IsSaved(p)
    ensures RecordsAt(Snapshot(b, m), p) == PanelRecords(b.Get(p), p, m)
  {
    SaveOrderSaved();
    SaveOrderDistinct();
    RecordsAtOver(SaveOrder, b, m, p);
  }

  /** Rebuilding reproducing records into empty containers and saving container `p` gives back
      the records that went to `p`. */
  lemma {:induction false} RebuiltAt(items: seq<TaskItem>, h: nat, m: map<Guid, seq<bool>>, p: PanelId)
    requires IsSaved(p)
    requires forall k | 0 <= k < |items| :: Reproduces(items[k], m)
    ensures PanelRecords(PlaceAll(EmptyBoard(), Placements(items, h)).Get(p), p, m) == RecordsAt(items, p)
  {
    PlaceAllGet(EmptyBoard(), Placements(items, h), p);
    assert EmptyBoard().Get(p) == [];
    PanelRecordsOfPlacements(items, h, p, m);
  }

  /** Container by container, the rebuilt window saves what the original window saved. */
  lemma {:induction false} ReloadedPanel(b: Board, m: map<Guid, seq<bool>>, h: nat, p: PanelId)
    requires b.WellShaped() && IsSaved(p)
    ensures var s := Snapshot(b, m);
      PanelRecords(PlaceAll(EmptyBoard(), Placements(s, h)).Get(p), p, FirstMarkers(s))
        == PanelRecords(b.Get(p), p, m)
  {
    SnapshotReproduces(b, m);
    RebuiltAt(Snapshot(b, m), h, FirstMarkers(Snapshot(b, m)), p);
    SnapshotAt(b, m, p);
  }

  /** Save, reload, save: the saved record list is a fixed point. Rebuilding the window from
      what SaveAllTasksToDisk produced, into empty containers, and saving again gives the same
      list, record for record and in the same order. */
  lemma {:induction false} ReloadOfSnapshot(b: Board, m: map<Guid, seq<bool>>, h: nat)
    requires b.WellShaped()
    ensures var s := Snapshot(b, m);
      Snapshot(PlaceAll(EmptyBoard(), Placements(s, h)), FirstMarkers(s)) == s
  {
    var s := Snapshot(b, m);
    SaveOrderSaved();
    var r := PlaceAll(EmptyBoard(), Placements(s, h));
    forall i | 0 <= i < |SaveOrder|
      ensures PanelRecords(r.Get(SaveOrder[i]), SaveOrder[i], FirstMarkers(s))
        == PanelRecords(b.Get(SaveOrder[i]), SaveOrder[i], m)
    {
      ReloadedPanel(b, m, h, SaveOrder[i]);
    }
    RecordsOverAgree(SaveOrder, r, FirstMarkers(s), b, m);
  }

  /** One more record: its cards come after those of the records before it. */
  lemma {:induction false} PlacementsSnoc(items: seq<TaskItem>, t: TaskItem, h: nat)
    ensures Placements(items + [t], h) == Placements(items, h) + Step(t, h + |Placements(items, h)|)
  {
    assert (items + [t])[..|items|] == items;
  }

  /** Placing one more card puts it in its container. */
  lemma {:induction false} PlaceAllSnoc(b: Board, ps: seq<Placement>, x: Placement)
    requires b.WellShaped()
    ensures PlaceAll(b, ps + [x]) == PlaceAll(b, ps).Put(PlacedPanel(x), PlacedCard(x))
  {
    assert (ps + [x])[..|ps|] == ps;
  }

  /** Registering one more card appends it to its clone list. */
  lemma {:induction false} RegisterAllSnoc(clones: map<Guid, seq<Card>>, ps: seq<Placement>, x: Placement)
    ensures RegisterAll(clones, ps + [x]) == Register(RegisterAll(clones, ps), PlacedCard(x))
  {
    assert (ps + [x])[..|ps|] == ps;
  }

  /** One more record sets its id's marker list unless an earlier record already did. */
  lemma {:induction false} FirstMarkersSnoc(items: seq<TaskItem>, t: TaskItem)
    ensures FirstMarkers(items + [t]) ==
      if t.id in FirstMarkers(items) then FirstMarkers(items) else FirstMarkers(items)[t.id := t.markerStates]
  {
    assert (items + [t])[..|items|] == items;
  }

  /** Placing two runs of cards is placing the second on the board the first leaves. */
  lemma {:induction false} PlaceAllAppend(b: Board, ps: seq<Placement>, qs: seq<Placement>)
    requires b.WellShaped()
    ensures PlaceAll(b, ps + qs) == PlaceAll(PlaceAll(b, ps), qs)
    decreases |qs|
  {
    if qs == [] {
      assert ps + qs == ps;
    } else {
      var init, x := qs[..|qs| - 1], qs[|qs| - 1];
      assert ps + qs == (ps + init) + [x];
      PlaceAllSnoc(b, ps + init, x);
      PlaceAllAppend(b, ps, init);
    }
  }

  /** Registering two runs of cards is registering the second after the first. */
  lemma {:induction false} RegisterAllAppend(clones: map<Guid, seq<Card>>, ps: seq<Placement>, qs: seq<Placement>)
    ensures RegisterAll(clones, ps + qs) == RegisterAll(RegisterAll(clones, ps), qs)
    decreases |qs|
  {
    if qs == [] {
      assert ps + qs == ps;
    } else {
      var init, x := qs[..|qs| - 1], qs[|qs| - 1];
      assert ps + qs == (ps + init) + [x];
      RegisterAllSnoc(clones, ps + init, x);
      RegisterAllAppend(clones, ps, init);
    }
  }

  /** The board after placing the cards of one record. */
  lemma {:induction false} PlaceStep(b: Board, t: TaskItem, h: nat)
    requires b.WellShaped()
    ensures PlaceAll(b, Step(t, h)) ==
      if HasDay(t) then b.Put(Slot(t), CardFor(t, h))
      else b.Put(Slot(t), CardFor(t, h)).Put(Pool, CardFor(t, h + 1))
  {
    var st := Step(t, h);
    assert [st[0]][..0] == [];
    if !HasDay(t) {
      assert st == [st[0]] + [st[1]];
      PlaceAllSnoc(b, [st[0]], st[1]);
    } else {
      assert st == [st[0]];
    }
  }

  /** The clone lists after registering the cards of one record. */
  lemma {:induction false} RegisterStep(clones: map<Guid, seq<Card>>, t: TaskItem, h: nat)
    ensures RegisterAll(clones, Step(t, h)) ==
      if HasDay(t) then Register(clones, CardFor(t, h))
      else Register(Register(clones, CardFor(t, h)), CardFor(t, h + 1))
  {
    var st := Step(t, h);
    assert [st[0]][..0] == [];
    if !HasDay(t) {
      assert st == [st[0]] + [st[1]];
      RegisterAllSnoc(clones, [st[0]], st[1]);
    } else {
      assert st == [st[0]];
    }
  }

  /** What RebuildRecord does to the board and the clone registry is placing and registering
      the cards of Step(t, h). */
  lemma {:induction false} RecordStep(b0: Board, c0: map<Guid, seq<Card>>, t: TaskItem, h: nat,
                                      b1: Board, c1: map<Guid, seq<Card>>)
    requires b0.WellShaped()
    requires b1 == if HasDay(t) then b0.Put(Slot(t), CardFor(t, h))
      else b0.Put(Slot(t), CardFor(t, h)).Put(Pool, CardFor(t, h + 1))
    requires c1 == if HasDay(t) then Register(c0, CardFor(t, h))
      else Register(Register(c0, CardFor(t, h)), CardFor(t, h + 1))
    ensures b1 == PlaceAll(b0, Step(t, h))
    ensures c1 == RegisterAll(c0, Step(t, h))
  {
    PlaceStep(b0, t, h);
    RegisterStep(c0, t, h);
  }

  /** The placements of the first `i + 1` records are those of the first `i` followed by the
      cards of record `i`, numbered on from the handles already used. */
  lemma {:induction false} PlacementsNext(items: seq<TaskItem>, i: nat, h0: nat, ps: seq<Placement>, h: nat)
    requires i < |items| && ps == Placements(items[..i], h0) && h == h0 + |ps|
    ensures ps + Step(items[i], h) == Placements(items[..i + 1], h0)
  {
    assert items[..i + 1] == items[..i] + [items[i]];
    PlacementsSnoc(items[..i], items[i], h0);
  }

  /** The marker map of the first `i + 1` records adds record `i`'s list unless its id already
      has one. */
  lemma {:induction false} FirstMarkersNext(items: seq<TaskItem>, i: nat, m0: map<Guid, seq<bool>>, m1: map<Guid, seq<bool>>)
    requires i < |items| && m0 == FirstMarkers(items[..i])
    requires m1 == if items[i].id in m0 then m0 else m0[items[i].id := items[i].markerStates]
    ensures m1 == FirstMarkers(items[..i + 1])
  {
    assert items[..i + 1] == items[..i] + [items[i]];
    FirstMarkersSnoc(items[..i], items[i]);
  }

  /** One record more: what RebuildRecord does to the board, the marker map and the clone
      registry, applied to the state the first `i` records yield, gives the state the first
      `i + 1` records yield. */
  lemma {:induction false} RebuildAgrees(items: seq<TaskItem>, i: nat, start: Board, h0: nat, ps: seq<Placement>, h: nat,
                      b0: Board, b1: Board, m0: map<Guid, seq<bool>>, m1: map<Guid, seq<bool>>,
                      c0: map<Guid, seq<Card>>, c1: map<Guid, seq<Card>>)
    requires i < |items| && start.WellShaped()
    requires ps == Placements(items[..i], h0) && h == h0 + |ps|
    requires b0 == PlaceAll(start, ps)
    requires m0 == FirstMarkers(items[..i])
    requires c0 == RegisterAll(map[], ps)
    requires b1 == PlaceAll(b0, Step(items[i], h))
    requires m1 == if items[i].id in m0 then m0 else m0[items[i].id := items[i].markerStates]
    requires c1 == RegisterAll(c0, Step(items[i], h))
    ensures ps + Step(items[i], h) == Placements(items[..i + 1], h0)
    ensures b1 == PlaceAll(start, ps + Step(items[i], h))
    ensures m1 == FirstMarkers(items[..i + 1])
    ensures c1 == RegisterAll(map[], ps + Step(items[i], h))
  {
    PlacementsNext(items, i, h0, ps, h);
    FirstMarkersNext(items, i, m0, m1);
    PlaceAllAppend(start, ps, Step(items[i], h));
    RegisterAllAppend(map[], ps, Step(items[i], h));
  }
}
