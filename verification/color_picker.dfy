/**
 * The colour toggle of src/components/RichTextEditor/ColorPickerButton.tsx:
 * a button bound to one formatting command owns the currently selected colour
 * and, on each swatch click, either clears it or selects the clicked colour,
 * telling the command sink `onFormat` which.
 */
module ColorPicker {
  import opened Options

  /** One call of the sink: the command and the colour to apply, or None (`undefined`) to remove it. */
  datatype Binding = Binding(command: string, value: Option<string>)

  /**
   * The selection after one click: clicking the selected colour clears the
   * selection; clicking any other colour, also when none is selected,
   * selects it.
   */
  function Toggle(selected: Option<string>, color: string): (next: Option<string>)
    ensures next.None? <==> selected == Some(color)
    ensures next.Some? ==> next.value == color
  {
    if selected == Some(color) then None else Some(color)
  }

  /** The selection after a sequence of clicks, starting from `start`. */
  function Replay(start: Option<string>, clicks: seq<string>): (s: Option<string>)
    decreases |clicks|
  {
    if clicks == [] then start else Replay(Toggle(start, clicks[0]), clicks[1..])
  }

  /**
   * What the sink receives for a sequence of clicks: one binding per click,
   * always for the bound command.
   */
  function Emissions(command: string, start: Option<string>, clicks: seq<string>): (r: seq<Binding>)
    ensures |r| == |clicks|
    ensures forall i :: 0 <= i < |r| ==> r[i].command == command
    decreases |clicks|
  {
    if clicks == [] then []
    else
      var next := Toggle(start, clicks[0]);
      [Binding(command, next)] + Emissions(command, next, clicks[1..])
  }

  /** One more click acts on the selection the earlier clicks left. */
  lemma {:induction false} ReplayAppend(start: Option<string>, clicks: seq<string>, color: string)
    ensures Replay(start, clicks + [color]) == Toggle(Replay(start, clicks), color)
    decreases |clicks|
  {
    if clicks != [] {
      assert (clicks + [color])[1..] == clicks[1..] + [color];
      ReplayAppend(Toggle(start, clicks[0]), clicks[1..], color);
    }
  }

  /** One more click adds exactly one emission, carrying the new selection. */
  lemma {:induction false} EmissionsAppend(command: string, start: Option<string>, clicks: seq<string>, color: string)
    ensures Emissions(command, start, clicks + [color])
            == Emissions(command, start, clicks) + [Binding(command, Replay(start, clicks + [color]))]
    decreases |clicks|
  {
    if clicks == [] {
      assert [color][1..] == [];
    } else {
      assert (clicks + [color])[1..] == clicks[1..] + [color];
      EmissionsAppend(command, Toggle(start, clicks[0]), clicks[1..], color);
    }
  }

  /**
   * The value emitted for the i-th click is the selection right after that
   * click: it is present exactly when a colour is then selected, and is that colour.
   */
  lemma {:induction false} EmittedValueIsSelection(command: string, start: Option<string>, clicks: seq<string>, i: nat)
    requires i < |clicks|
    ensures Emissions(command, start, clicks)[i] == Binding(command, Replay(start, clicks[..i + 1]))
    decreases |clicks|
  {
    if i > 0 {
      EmittedValueIsSelection(command, Toggle(start, clicks[0]), clicks[1..], i - 1);
      assert clicks[1..][..i] == clicks[..i + 1][1..];
    }
  }

  /** The selection is the starting one, nothing, or the colour of some click. */
  lemma {:induction false} SelectionFromClicks(start: Option<string>, clicks: seq<string>)
    ensures var s := Replay(start, clicks);
            s == start || s.None? || s.value in clicks
    decreases |clicks|
  {
    if clicks != [] {
      SelectionFromClicks(Toggle(start, clicks[0]), clicks[1..]);
    }
  }

  /** When every click comes from the palette, the selection is nothing or a palette colour. */
  lemma SelectionInPalette(colors: seq<string>, clicks: seq<string>)
    requires forall c :: c in clicks ==> c in colors
    ensures Replay(None, clicks).None? || Replay(None, clicks).value in colors
  {
    SelectionFromClicks(None, clicks);
  }

  /**
   * Clicking a colour twice, from any selection other than that colour,
   * emits the colour and then `undefined`, and leaves nothing selected.
   */
  lemma ClickTwice(command: string, start: Option<string>, color: string)
    requires start != Some(color)
    ensures Replay(start, [color, color]) == None
    ensures Emissions(command, start, [color, color]) == [Binding(command, Some(color)), Binding(command, None)]
  {
    assert [color, color][1..] == [color];
    assert Replay(Some(color), [color]) == Replay(None, []);
  }

  /** From the initial state a double click is a round trip: applied, then removed. */
  lemma RoundTrip(command: string, color: string)
    ensures Replay(None, [color, color]) == None
    ensures Emissions(command, None, [color, color]) == [Binding(command, Some(color)), Binding(command, None)]
  {
    ClickTwice(command, None, color);
  }

  /** A red click, a second red click and a green click on the "foreColor" button. */
  lemma ForeColorScenario()
    ensures Emissions("foreColor", None, ["#ff0000", "#ff0000", "#00ff00"])
            == [Binding("foreColor", Some("#ff0000")), Binding("foreColor", None), Binding("foreColor", Some("#00ff00"))]
    ensures Replay(None, ["#ff0000", "#ff0000", "#00ff00"]) == Some("#00ff00")
  {
  }

  /** One mounted button. */
  class Picker {
    /** The formatting command the button is bound to. */
    const command: string
    /** The palette offered in the popover. */
    const colors: seq<string>
    /** The active colour, or None. */
    var selected: Option<string>
    /** The colours clicked so far, in order. */
    ghost var clicks: seq<string>
    /** The calls made to the sink so far, in order. */
    ghost var emitted: seq<Binding>

    /** The state is what the clicks so far produce, and every click came from the palette. */
    ghost predicate Valid()
      reads this
    {
      selected == Replay(None, clicks) &&
      emitted == Emissions(command, None, clicks) &&
      (forall c :: c in clicks ==> c in colors)
    }

    /** On mount nothing is selected and nothing has been emitted. */
    constructor (command: string, colors: seq<string>)
      ensures Valid()
      ensures this.command == command && this.colors == colors
      ensures selected == None && clicks == [] && emitted == []
    {
      this.command := command;
      this.colors := colors;
      selected := None;
      clicks := [];
      emitted := [];
    }

    /** handleColorClick: toggle the clicked palette colour and emit exactly one binding. */
    method Click(color: string)
      requires Valid()
      requires color in colors
      modifies this
      ensures Valid()
      ensures clicks == old(clicks) + [color]
      ensures old(selected) == Some(color) ==> selected == None && emitted == old(emitted) + [Binding(command, None)]
      ensures old(selected) != Some(color) ==> selected == Some(color) && emitted == old(emitted) + [Binding(command, Some(color))]
      ensures selected.None? || selected.value in colors
    {
      ReplayAppend(None, clicks, color);
      EmissionsAppend(command, None, clicks, color);
      if selected == Some(color) {
        selected := None;
        emitted := emitted + [Binding(command, None)];
      } else {
        selected := Some(color);
        emitted := emitted + [Binding(command, Some(color))];
      }
      clicks := clicks + [color];
      SelectionInPalette(colors, clicks);
    }
  }
}
