/** The two shared dictionaries: task id to marker list (taskMarkerStates) and task id to the
    list of its clones (globalTaskInstances), and the updates CreateTaskCard makes to them. */
module Registry {
  import opened Models
  import opened Panels

  /** The clones registered for `id`, or none. */
  function ClonesFor(clones: map<Guid, seq<Card>>, id: Guid): seq<Card>
  {
    if id in clones then clones[id] else []
  }

  /** The marker default of CreateTaskCard and AddTask_Click: a task with no entry gets a single
      unticked marker; an existing list is left as it is. */
  function InitMarkers(markers: map<Guid, seq<bool>>, id: Guid): (r: map<Guid, seq<bool>>)
    ensures r.Keys == markers.Keys + {id}
    ensures id in markers ==> r == markers
    ensures id !in markers ==> r[id] == [false]
    ensures forall x | x in markers :: r[x] == markers[x]
  {
    if id in markers then markers else markers[id := [false]]
  }

  /** Registering a clone: the card is appended to its task's clone list, which is created
      empty when missing; every other task's list is unchanged. */
  function Register(clones: map<Guid, seq<Card>>, c: Card): (r: map<Guid, seq<Card>>)
    ensures r.Keys == clones.Keys + {c.id}
    ensures r[c.id] == ClonesFor(clones, c.id) + [c]
    ensures forall x | x in clones && x != c.id :: r[x] == clones[x]
  {
    clones[c.id := ClonesFor(clones, c.id) + [c]]
  }

  /** Registration never forgets a clone. */
  lemma {:induction false} RegisterKeeps(clones: map<Guid, seq<Card>>, c: Card, x: Guid, d: Card)
    requires x in clones && d in clones[x]
    ensures x in Register(clones, c) && d in Register(clones, c)[x]
  {
  }

  /** Initialising twice is initialising once (AddTask_Click makes the default before
      CreateTaskCard makes it again). */
  lemma {:induction false} InitMarkersIdempotent(markers: map<Guid, seq<bool>>, id: Guid)
    ensures InitMarkers(InitMarkers(markers, id), id) == InitMarkers(markers, id)
  {
  }
}
