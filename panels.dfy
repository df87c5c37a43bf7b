/** The card containers of the window: the four category stacks, the unfiled task pool and the
    seven day panels, each an ordered list of cards (MainWindow.xaml.cs). */
module Panels {
  import opened Models

  /** The four quadrant labels, in the order the window lists and saves them. */
  const Categories: seq<string> :=
    ["MostImportantUrgent", "ImportantNotUrgent", "UrgentNotImportant", "NotImportantNotUrgent"]

  /** The seven day labels, Monday first, in the order the window saves them. */
  const DayNames: seq<string> :=
    ["Monday", "Tuesday", "Wednesday", "Thursday", "Friday", "Saturday", "Sunday"]

  /** A card: the handle of one visual clone and the tag data it carries (task id, text and
      category). Two clones of one task differ in their handle. */
  datatype Card = Card(handle: nat, id: Guid, text: string, category: string)

  /** A container: category stack `q`, the pool, or day panel `d`. */
  datatype PanelId = Stack(q: nat) | Pool | Day(d: nat)

  /** The twelve containers of the window. */
  predicate IsPanel(p: PanelId)
  {
    match p
    case Stack(q) => q < |Categories|
    case Pool => true
    case Day(d) => d < |DayNames|
  }

  /** The first position of `x` in `names`, or `|names|` when it is absent. */
  function IndexOf(names: seq<string>, x: string): (k: nat)
    ensures k <= |names|
    ensures k < |names| ==> names[k] == x
    ensures forall j | 0 <= j < k :: names[j] != x
    ensures k == |names| <==> x !in names
  {
    if names == [] then 0
    else if names[0] == x then 0
    else 1 + IndexOf(names[1..], x)
  }

  /** The labels are distinct, so a label's position is its index. */
  lemma {:induction false} LabelsDistinct()
    ensures forall q | 0 <= q < |Categories| :: IndexOf(Categories, Categories[q]) == q
    ensures forall d | 0 <= d < |DayNames| :: IndexOf(DayNames, DayNames[d]) == d
    ensures "" !in DayNames
  {
    CategoriesDistinct();
    DayNamesDistinct();
    DayNamesNonEmpty();
  }

  /** The four quadrant labels start with four different letters. */
  lemma {:induction false} CategoriesDistinct()
    ensures forall q | 0 <= q < |Categories| :: IndexOf(Categories, Categories[q]) == q
  {
    var c := Categories;
    assert c[0][0] == 'M' && c[1][0] == 'I' && c[2][0] == 'U' && c[3][0] == 'N';
    forall q | 0 <= q < |c| ensures IndexOf(c, c[q]) == q {
      forall j | 0 <= j < q ensures c[j] != c[q] {
        assert c[j][0] != c[q][0];
      }
    }
  }

  /** The seven day labels differ in their first two letters. */
  lemma {:induction false} DayNamesDistinct()
    ensures forall d | 0 <= d < |DayNames| :: IndexOf(DayNames, DayNames[d]) == d
  {
    var n := DayNames;
    assert n[0][0] == 'M' && n[1][0] == 'T' && n[2][0] == 'W' && n[3][0] == 'T';
    assert n[4][0] == 'F' && n[5][0] == 'S' && n[6][0] == 'S';
    assert n[1][1] == 'u' && n[3][1] == 'h' && n[5][1] == 'a' && n[6][1] == 'u';
    forall d | 0 <= d < |n| ensures IndexOf(n, n[d]) == d {
      forall j | 0 <= j < d ensures n[j] != n[d] {
        assert n[j][0] != n[d][0] || n[j][1] != n[d][1];
      }
    }
  }

  /** No day label is empty. */
  lemma {:induction false} DayNamesNonEmpty()
    ensures "" !in DayNames
  {
    forall d | 0 <= d < |DayNames| ensures DayNames[d] != "" {
      assert |DayNames[d]| >= 6;
    }
  }

  /** Where RebuildUIFromSavedTasks puts a record's card: the day panel of a recognised day,
      the pool for any other non-empty day, the category stack of a known category when there
      is no day, and the pool for an unknown category. */
  function Slot(t: TaskItem): (p: PanelId)
    ensures IsPanel(p)
    ensures p.Day? <==> t.dayAssignment != "" && t.dayAssignment in DayNames
    ensures p.Day? ==> DayNames[p.d] == t.dayAssignment
    ensures p.Stack? <==> t.dayAssignment == "" && t.originalCategory in Categories
    ensures p.Stack? ==> Categories[p.q] == t.originalCategory
  {
    if t.dayAssignment != "" then
      var d := IndexOf(DayNames, t.dayAssignment);
      if d < |DayNames| then Day(d) else Pool
    else
      var q := IndexOf(Categories, t.originalCategory);
      if q < |Categories| then Stack(q) else Pool
  }

  /** The cards of `s` that are not in `gone`, in their order. */
  function Keep(s: seq<Card>, gone: seq<Card>): (r: seq<Card>)
    ensures |r| <= |s|
    ensures forall c :: c in r <==> c in s && c !in gone
  {
    if s == [] then []
    else (if s[0] in gone then [] else [s[0]]) + Keep(s[1..], gone)
  }

  /** Removing two groups one after the other removes their union. */
  lemma {:induction false} KeepKeep(s: seq<Card>, a: seq<Card>, b: seq<Card>)
    ensures Keep(Keep(s, a), b) == Keep(s, a + b)
  {
    if s != [] {
      KeepKeep(s[1..], a, b);
      var head := if s[0] in a then [] else [s[0]];
      assert Keep(s, a) == head + Keep(s[1..], a);
      KeepAppend(head, Keep(s[1..], a), b);
    }
  }

  /** Keep distributes over concatenation. */
  lemma {:induction false} KeepAppend(s: seq<Card>, t: seq<Card>, gone: seq<Card>)
    ensures Keep(s + t, gone) == Keep(s, gone) + Keep(t, gone)
  {
    if s != [] {
      assert (s + t)[1..] == s[1..] + t;
      KeepAppend(s[1..], t, gone);
    } else {
      assert s + t == t;
    }
  }

  /** Detaching nothing keeps every card. */
  lemma {:induction false} KeepNothing(s: seq<Card>)
    ensures Keep(s, []) == s
  {
    if s != [] {
      KeepNothing(s[1..]);
      assert s == [s[0]] + s[1..];
    }
  }

  /** List.Remove: the first occurrence of `x` taken out, everything else kept in order
      (the order is stated by `RemoveFirstAt`). */
  function RemoveFirst(s: seq<Card>, x: Card): (r: seq<Card>)
    ensures x !in s ==> r == s
    ensures x in s ==> |r| == |s| - 1
    ensures multiset(r) == multiset(s) - multiset{x}
    ensures forall c | c != x :: c in r <==> c in s
    ensures forall c | c in r :: c in s
  {
    if s == [] then []
    else
      assert s == [s[0]] + s[1..];
      if s[0] == x then s[1..]
      else [s[0]] + RemoveFirst(s[1..], x)
  }

  /** List.Remove takes out the first occurrence of `x`, at position `k`, and keeps everything
      else in order. */
  lemma {:induction false} RemoveFirstAt(s: seq<Card>, x: Card, k: nat)
    requires k < |s| && s[k] == x && x !in s[..k]
    ensures RemoveFirst(s, x) == s[..k] + s[k + 1..]
  {
    if k > 0 {
      TailSlices(s, k);
      RemoveFirstAt(s[1..], x, k - 1);
    }
  }

  /** Slicing after dropping the head. */
  lemma TailSlices(s: seq<Card>, k: nat)
    requires 0 < k < |s|
    ensures s[..k] == [s[0]] + s[1..][..k - 1]
    ensures s[k + 1..] == s[1..][k..]
    ensures s[..k] + s[k + 1..] == [s[0]] + (s[1..][..k - 1] + s[1..][k..])
  {
  }

  /** The twelve containers of the window. */
  datatype Board = Board(stacks: seq<seq<Card>>, pool: seq<Card>, days: seq<seq<Card>>)
  {
    /** One stack per category and one panel per day. */
    predicate WellShaped()
    {
      |stacks| == |Categories| && |days| == |DayNames|
    }

    /** No day panel holds a card. */
    predicate DaysEmpty()
    {
      forall d | 0 <= d < |days| :: days[d] == []
    }

    /** The cards of one container, in order. */
    function Get(p: PanelId): seq<Card>
      requires WellShaped() && IsPanel(p)
    {
      match p
      case Stack(q) => stacks[q]
      case Pool => pool
      case Day(d) => days[d]
    }

    /** The board with `c` appended to container `p` (Children.Add, Items.Add). */
    function Put(p: PanelId, c: Card): (b: Board)
      requires WellShaped() && IsPanel(p)
      ensures b.WellShaped()
    {
      match p
      case Stack(q) => this.(stacks := stacks[q := stacks[q] + [c]])
      case Pool => this.(pool := pool + [c])
      case Day(d) => this.(days := days[d := days[d] + [c]])
    }

    /** The board with every card of `gone` detached from whichever container holds it. */
    function Without(gone: seq<Card>): (b: Board)
      requires WellShaped()
      ensures b.WellShaped()
      ensures forall p | IsPanel(p) :: b.Get(p) == Keep(Get(p), gone)
    {
      Board(seq(|stacks|, q requires 0 <= q < |stacks| => Keep(stacks[q], gone)),
            Keep(pool, gone),
            seq(|days|, d requires 0 <= d < |days| => Keep(days[d], gone)))
    }
  }

  /** Appending a card to one container adds it at the end of that container and leaves every
      other container as it was. */
  lemma {:induction false} PutGet(b: Board, p: PanelId, c: Card)
    requires b.WellShaped() && IsPanel(p)
    ensures forall p' | IsPanel(p') :: b.Put(p, c).Get(p') == if p' == p then b.Get(p) + [c] else b.Get(p')
  {
  }

  /** The window as InitializeComponent leaves it: every container empty. */
  function EmptyBoard(): (b: Board)
    ensures b.WellShaped()
    ensures forall p | IsPanel(p) :: b.Get(p) == []
    ensures b.DaysEmpty()
  {
    Board([[], [], [], []], [], [[], [], [], [], [], [], []])
  }

  /** Detaching no card leaves the board as it is. */
  lemma {:induction false} WithoutNothing(b: Board)
    requires b.WellShaped()
    ensures b.Without([]) == b
  {
    var r := b.Without([]);
    forall q | 0 <= q < |Categories| ensures r.stacks[q] == b.stacks[q] {
      assert r.Get(Stack(q)) == Keep(b.Get(Stack(q)), []);
      KeepNothing(b.stacks[q]);
    }
    forall d | 0 <= d < |DayNames| ensures r.days[d] == b.days[d] {
      assert r.Get(Day(d)) == Keep(b.Get(Day(d)), []);
      KeepNothing(b.days[d]);
    }
    KeepNothing(b.pool);
  }

  /** Detaching one card after a group detaches the group extended by that card. */
  lemma {:induction false} WithoutWithout(b: Board, a: seq<Card>, x: Card)
    requires b.WellShaped()
    ensures b.Without(a).Without([x]) == b.Without(a + [x])
  {
    var l := b.Without(a).Without([x]);
    var r := b.Without(a + [x]);
    forall q | 0 <= q < |Categories| ensures l.stacks[q] == r.stacks[q] {
      assert l.Get(Stack(q)) == Keep(Keep(b.Get(Stack(q)), a), [x]);
      KeepKeep(b.stacks[q], a, [x]);
    }
    forall d | 0 <= d < |DayNames| ensures l.days[d] == r.days[d] {
      assert l.Get(Day(d)) == Keep(Keep(b.Get(Day(d)), a), [x]);
      KeepKeep(b.days[d], a, [x]);
    }
    KeepKeep(b.pool, a, [x]);
  }

  /** The duplicate check of DayPanel_Drop and TaskPool_Drop: does the container already hold a
      clone of task `id`? */
  method HoldsTask(cards: seq<Card>, id: Guid) returns (found: bool)
    ensures found <==> exists k | 0 <= k < |cards| :: cards[k].id == id
  {
    found := false;
    var k := 0;
    while k < |cards|
      invariant 0 <= k <= |cards|
      invariant !found && forall j | 0 <= j < k :: cards[j].id != id
    {
      if cards[k].id == id {
        found := true;
        return;
      }
      k := k + 1;
    }
  }
}
