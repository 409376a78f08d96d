/**
 * The colour picker of the panel editor: the current colour, a history of
 * committed colours and a cursor into that history, with undo and redo.
 * Committing a new colour drops every entry after the cursor.
 */
module ColorPicker {

  /** The three state fields of the picker: `color`, `colorHistory`, `historyIndex`. */
  datatype PickerState = PickerState(color: string, history: seq<string>, index: nat)

  /** The cursor always points into the history. */
  predicate ValidState(s: PickerState) {
    s.index < |s.history|
  }

  function Last(s: PickerState): string
    requires ValidState(s)
  {
    s.history[|s.history| - 1]
  }

  function Initial(initialColor: string): (s: PickerState)
    ensures ValidState(s) && s.color == initialColor
    ensures s.history == [initialColor] && s.index == 0
  {
    PickerState(initialColor, [initialColor], 0)
  }

  /**
   * `handleColorChangeComplete`: a colour that differs from the last entry
   * is recorded right after the cursor, dropping the redo branch, and the
   * cursor moves onto it; a colour equal to the last entry changes nothing.
   */
  function Committed(s: PickerState, hex: string): (r: PickerState)
    requires ValidState(s)
    ensures ValidState(r) && r.color == s.color
    ensures Last(s) == hex ==> r == s
    ensures Last(s) != hex ==>
      && r.index == s.index + 1 == |r.history| - 1
      && r.history[..r.index] == s.history[..s.index + 1]
      && r.history[r.index] == hex
  {
    if Last(s) != hex then
      var newHistory := s.history[..s.index + 1] + [hex];
      s.(history := newHistory, index := |newHistory| - 1)
    else s
  }

  /** `handleUndo`: one step back, showing that entry; nothing happens at the first entry. */
  function Undone(s: PickerState): (r: PickerState)
    requires ValidState(s)
    ensures ValidState(r) && r.history == s.history
    ensures s.index == 0 ==> r == s
    ensures s.index > 0 ==> r.index == s.index - 1 && r.color == s.history[r.index]
  {
    if s.index > 0 then s.(index := s.index - 1, color := s.history[s.index - 1]) else s
  }

  /** `handleRedo`: one step forward, showing that entry; nothing happens at the last entry. */
  function Redone(s: PickerState): (r: PickerState)
    requires ValidState(s)
    ensures ValidState(r) && r.history == s.history
    ensures s.index == |s.history| - 1 ==> r == s
    ensures s.index < |s.history| - 1 ==> r.index == s.index + 1 && r.color == s.history[r.index]
  {
    if s.index < |s.history| - 1 then s.(index := s.index + 1, color := s.history[s.index + 1]) else s
  }

  /** A preset swatch: show the preset, then commit it. */
  function PresetClicked(s: PickerState, preset: string): (r: PickerState)
    requires ValidState(s)
    ensures ValidState(r) && r.color == preset
    ensures Last(s) == preset ==> r.history == s.history && r.index == s.index
    ensures Last(s) != preset ==> r.index == |r.history| - 1 && r.history[r.index] == preset
  {
    Committed(s.(color := preset), preset)
  }

  /** Undo then redo returns to the same entry and shows it. */
  lemma UndoThenRedo(s: PickerState)
    requires ValidState(s) && s.index > 0
    ensures Redone(Undone(s)) == s.(color := s.history[s.index])
  {
  }

  /** Redo then undo returns to the same entry and shows it. */
  lemma RedoThenUndo(s: PickerState)
    requires ValidState(s) && s.index < |s.history| - 1
    ensures Undone(Redone(s)) == s.(color := s.history[s.index])
  {
  }

  /** After a commit of a new colour there is nothing to redo. */
  lemma CommitClearsRedo(s: PickerState, hex: string)
    requires ValidState(s) && Last(s) != hex
    ensures Redone(Committed(s, hex)) == Committed(s, hex)
  {
  }

  /** Undo after committing a new colour returns to the entry that was current before. */
  lemma CommitThenUndo(s: PickerState, hex: string)
    requires ValidState(s) && Last(s) != hex
    ensures var r := Undone(Committed(s, hex));
      r.index == s.index && r.history[r.index] == s.history[s.index] && r.color == s.history[s.index]
  {
  }

  /**
   * The commit compares with the last entry, not the current one: after an
   * undo, picking the colour that was undone is not recorded, so the shown
   * colour and the history entry under the cursor disagree.
   */
  lemma RepickAfterUndoNotRecorded(s: PickerState)
    requires ValidState(s) && s.index == |s.history| - 1 && s.index > 0
    requires s.history[s.index - 1] != s.history[s.index]
    ensures var r := PresetClicked(Undone(s), s.history[s.index]);
      r.index == s.index - 1 && r.history == s.history && r.color != r.history[r.index]
  {
  }

  class Picker {
    var color: string
    var colorHistory: seq<string>
    var historyIndex: nat
    /** Every colour handed to `onChange`, oldest first. */
    var notified: seq<string>

    ghost predicate Valid()
      reads this
    {
      ValidState(State())
    }

    function State(): PickerState
      reads this
    {
      PickerState(color, colorHistory, historyIndex)
    }

    constructor(initialColor: string)
      ensures Valid() && State() == Initial(initialColor) && notified == []
    {
      color := initialColor;
      colorHistory := [initialColor];
      historyIndex := 0;
      notified := [];
    }

    /** A live change from the picker: the colour is shown and reported, the history is untouched. */
    method HandleColorChange(hex: string)
      requires Valid()
      modifies this
      ensures Valid() && State() == old(State()).(color := hex)
      ensures notified == old(notified) + [hex]
    {
      color := hex;
      notified := notified + [hex];
    }

    /** Typing into the text field: the same as a live change. */
    method HandleTextInput(value: string)
      requires Valid()
      modifies this
      ensures Valid() && State() == old(State()).(color := value)
      ensures notified == old(notified) + [value]
    {
      color := value;
      notified := notified + [value];
    }

    method HandleColorChangeComplete(hex: string)
      requires Valid()
      modifies this
      ensures Valid() && State() == Committed(old(State()), hex)
      ensures notified == old(notified)
    {
      if colorHistory[|colorHistory| - 1] != hex {
        var newHistory := colorHistory[..historyIndex + 1] + [hex];
        colorHistory := newHistory;
        historyIndex := |newHistory| - 1;
      }
    }

    method HandleUndo()
      requires Valid()
      modifies this
      ensures Valid() && State() == Undone(old(State()))
      ensures notified == if old(historyIndex) > 0 then old(notified) + [color] else old(notified)
    {
      if historyIndex > 0 {
        var newIndex := historyIndex - 1;
        historyIndex := newIndex;
        color := colorHistory[newIndex];
        notified := notified + [colorHistory[newIndex]];
      }
    }

    method HandleRedo()
      requires Valid()
      modifies this
      ensures Valid() && State() == Redone(old(State()))
      ensures notified == if old(historyIndex) < |old(colorHistory)| - 1 then old(notified) + [color]
                          else old(notified)
    {
      if historyIndex < |colorHistory| - 1 {
        var newIndex := historyIndex + 1;
        historyIndex := newIndex;
        color := colorHistory[newIndex];
        notified := notified + [colorHistory[newIndex]];
      }
    }

    method HandlePresetClick(preset: string)
      requires Valid()
      modifies this
      ensures Valid() && State() == PresetClicked(old(State()), preset)
      ensures notified == old(notified) + [preset]
    {
      color := preset;
      notified := notified + [preset];
      HandleColorChangeComplete(preset);
    }
  }
}
