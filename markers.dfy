/** The per-task marker list and the progress panel every clone of a task renders from it
    (MainWindow.xaml.cs: SetupProgressPanel, ToggleMarker, AddMarker). */
module Markers {

  /** The "+" button is offered, and AddMarker appends, only below this many markers. */
  const MaxMarkers: nat := 3

  /** The glyph of a marker button: a filled circle when ticked, an empty one otherwise. */
  function Glyph(ticked: bool): string
  {
    if ticked then "\U{25CF}" else "\U{25CB}"
  }

  /** One marker button: its glyph and the slot index a click toggles. */
  datatype MarkerButton = MarkerButton(content: string, index: nat)

  /** What a card's progress panel shows: its marker buttons in slot order, whether the "+"
      button is present, and whether the task text is struck through. */
  datatype Progress = Progress(buttons: seq<MarkerButton>, plusButton: bool, strikethrough: bool)

  /** The strike-through rule: at least one marker, and every marker ticked. */
  predicate AllTicked(m: seq<bool>)
  {
    |m| > 0 && forall i | 0 <= i < |m| :: m[i]
  }

  /** The progress panel that a marker list renders to. */
  function ProgressView(m: seq<bool>): Progress
  {
    Progress(seq(|m|, i requires 0 <= i < |m| => MarkerButton(Glyph(m[i]), i)),
             |m| < MaxMarkers, AllTicked(m))
  }

  /** The panel-building loop of SetupProgressPanel: one button per marker, in order, then the
      "+" button when there is room, then the strike-through decision. */
  method BuildProgress(m: seq<bool>) returns (p: Progress)
    ensures |p.buttons| == |m|
    ensures forall i | 0 <= i < |m| :: p.buttons[i].index == i && p.buttons[i].content == Glyph(m[i])
    ensures p.plusButton <==> |m| < MaxMarkers
    ensures p.strikethrough <==> m != [] && false !in m
    ensures p == ProgressView(m)
  {
    var buttons: seq<MarkerButton> := [];
    var i := 0;
    while i < |m|
      invariant 0 <= i <= |m|
      invariant |buttons| == i
      invariant forall k | 0 <= k < i :: buttons[k] == MarkerButton(Glyph(m[k]), k)
    {
      buttons := buttons + [MarkerButton(Glyph(m[i]), i)];
      i := i + 1;
    }
    var plus := |m| < MaxMarkers;
    var allTicked := |m| > 0 && forall k | 0 <= k < |m| :: m[k];
    p := Progress(buttons, plus, allTicked);
    assert allTicked <==> m != [] && false !in m by {
      if false in m {
        var k :| 0 <= k < |m| && m[k] == false;
      }
    }
  }

  /** A marker list with slot `i` flipped; an index past the end changes nothing. */
  function Toggled(m: seq<bool>, i: nat): (r: seq<bool>)
    ensures |r| == |m|
    ensures forall k | 0 <= k < |m| :: r[k] == (if k == i then !m[k] else m[k])
  {
    if i < |m| then m[i := !m[i]] else m
  }

  /** Toggling the same slot twice restores the list. */
  lemma {:induction false} ToggledTwice(m: seq<bool>, i: nat)
    ensures Toggled(Toggled(m, i), i) == m
  {
    var r := Toggled(Toggled(m, i), i);
    assert |r| == |m|;
    forall k | 0 <= k < |m| ensures r[k] == m[k] {
    }
  }

  /** The AddMarker rule: one unticked marker is appended while there are fewer than three. */
  function WithNewMarker(m: seq<bool>): (r: seq<bool>)
    ensures |m| < MaxMarkers ==> r == m + [false]
    ensures |m| >= MaxMarkers ==> r == m
  {
    if |m| < MaxMarkers then m + [false] else m
  }

  /** Starting from at most three markers, adding one never exceeds three, and the new marker
      clears the strike-through. */
  lemma {:induction false} WithNewMarkerBounded(m: seq<bool>)
    requires |m| <= MaxMarkers
    ensures |WithNewMarker(m)| <= MaxMarkers
    ensures |m| < MaxMarkers ==> !AllTicked(WithNewMarker(m))
  {
    if |m| < MaxMarkers {
      assert WithNewMarker(m)[|m|] == false;
    }
  }

  /** Ticking the only unticked slot of a list strikes the task through; unticking any slot
      of a struck-through list removes the strike-through. */
  lemma {:induction false} ToggledStrike(m: seq<bool>, i: nat)
    requires i < |m|
    ensures (!m[i] && forall k | 0 <= k < |m| && k != i :: m[k]) ==> AllTicked(Toggled(m, i))
    ensures AllTicked(m) ==> !AllTicked(Toggled(m, i))
  {
    assert Toggled(m, i)[i] == !m[i];
  }

  /** Rendering: one button per marker, "+" exactly below three, and the strike-through exactly
      when the list is non-empty and holds no unticked marker. */
  lemma {:induction false} ProgressViewShape(m: seq<bool>)
    ensures |ProgressView(m).buttons| == |m|
    ensures ProgressView(m).plusButton <==> |m| < MaxMarkers
    ensures ProgressView(m).strikethrough <==> m != [] && false !in m
  {
    if false in m {
      var k :| 0 <= k < |m| && m[k] == false;
      assert !AllTicked(m);
    }
  }
}
