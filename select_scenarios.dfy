/**
 * Clients of the widget that replay key sequences and check, from the
 * method contracts alone, where the pointer, the window and the selection
 * end up.
 */
module SelectScenarios {
  import opened SelectData
  import opened SelectView
  import opened SelectSteps
  import opened SelectWidget

  /** A fresh widget with a window of three, single-select. */
  method PagedConfig() returns (w: Select)
    ensures fresh(w) && w.Valid() && w.Consistent()
    ensures w.config == DEFAULTS.(optionsLimit := 3, multiSelect := false)
    ensures w.config.optionsLimit == 3 && !w.config.multiSelect && NonBlank(w.config.pointer)
    ensures w.options == [] && w.pointerPosition == 0 && w.minPosition == 0 && w.optionsSelected == []
    ensures !w.listed && !w.closed
  {
    w := new Select([OptionsLimit(3), MultiSelect(false)]);
    assert w.config.pointer == "> " && NonBlank(w.config.pointer);
  }

  /** Appends the options A to F, each of which takes its text as its value. */
  method AddSix(w: Select)
    requires w.Valid() && w.Consistent() && w.options == []
    requires w.pointerPosition == 0 && w.minPosition == 0 && w.optionsSelected == []
    modifies w
    ensures w.Valid() && w.Consistent() && w.config == old(w.config)
    ensures w.options == [Entry("A", "A"), Entry("B", "B"), Entry("C", "C"), Entry("D", "D"), Entry("E", "E"), Entry("F", "F")]
    ensures |w.options| == 6 && w.options[4] == Entry("E", "E")
    ensures w.pointerPosition == 0 && w.minPosition == 0 && w.optionsSelected == []
    ensures w.listed == old(w.listed) && w.closed == old(w.closed)
  {
    w.Option("A", None);
    w.Option("B", None);
    w.Option("C", None);
    w.Option("D", None);
    w.Option("E", None);
    w.Option("F", None);
  }

  /** Six options A to F, a window of three, single-select. */
  method PagedOptions() returns (w: Select)
    ensures fresh(w) && w.Valid() && w.Consistent()
    ensures w.config.optionsLimit == 3 && !w.config.multiSelect && NonBlank(w.config.pointer)
    ensures |w.options| == 6 && w.options[4] == Entry("E", "E")
    ensures w.pointerPosition == 0 && w.minPosition == 0 && w.optionsSelected == []
    ensures !w.listed && !w.closed
  {
    w := PagedConfig();
    AddSix(w);
  }

  /** The same widget, listed. */
  method PagedSetup() returns (w: Select)
    ensures fresh(w) && w.Valid() && w.Consistent() && w.Synced()
    ensures w.config.optionsLimit == 3 && !w.config.multiSelect && NonBlank(w.config.pointer)
    ensures |w.options| == 6 && w.options[4] == Entry("E", "E")
    ensures w.pointerPosition == 0 && w.minPosition == 0 && w.optionsSelected == []
    ensures w.listed && !w.closed
  {
    w := PagedOptions();
    var screen := w.List();
  }

  /** Four downs scroll the window twice; the pointer's option is checked and committed. */
  method PagedSingleSelect() {
    var w := PagedSetup();
    var o := w.Keypress(Down);
    o := w.Keypress(Down);
    o := w.Keypress(Down);
    assert w.pointerPosition == 3 && w.minPosition == 1;
    o := w.Keypress(Down);
    assert w.pointerPosition == 4 && w.minPosition == 2;
    o := w.Keypress(Right);
    assert w.optionsSelected == [At(4)];
    o := w.Keypress(Return);
    assert o == Selected([At(4)]) && w.closed;
    o := w.Keypress(Up);
    assert o == Ignored && w.pointerPosition == 4;
  }

  /** Two options, multi-select, listed. */
  method PairSetup() returns (w: Select)
    ensures fresh(w) && w.Valid() && w.Consistent() && w.Synced()
    ensures w.config.multiSelect && NonBlank(w.config.pointer) && w.config.msgCancel == "No selected options!"
    ensures |w.options| == 2
    ensures w.pointerPosition == 0 && w.optionsSelected == []
    ensures w.listed && !w.closed
  {
    w := new Select([]);
    assert w.config.pointer == "> " && NonBlank(w.config.pointer);
    w.Option("A", Some("a"));
    w.Option("B", Some("b"));
    var screen := w.List();
  }

  /** Both options checked in order, then cancelled with the pointer left where it was. */
  method MultiSelectCancel() {
    var w := PairSetup();
    var o := w.Keypress(Right);
    assert w.optionsSelected == [At(0)];
    o := w.Keypress(Down);
    o := w.Keypress(Right);
    assert w.optionsSelected == [At(0), At(1)];
    o := w.Keypress(Down);
    assert w.pointerPosition == 1;
    o := w.Keypress(Escape);
    assert o == Cancelled([At(0), At(1)], Some("No selected options!"));
    assert w.pointerPosition == 1 && w.closed;
  }

  /** An empty list commits an empty selection. */
  method EmptyListCommit() {
    var w := new Select([]);
    var screen := w.List();
    var o := w.Keypress(Down);
    assert w.pointerPosition == 0;
    o := w.Keypress(Return);
    assert o == Selected([]);
  }

  /** Checking on an empty list records `undefined`, once. */
  method EmptyListCheck() {
    var w := new Select([]);
    var screen := w.List();
    var o := w.Keypress(Right);
    o := w.Keypress(Right);
    o := w.Keypress(Return);
    assert o == Selected([Undefined]);
  }

  /** With a blank pointer glyph the current option is never recorded, and checking twice duplicates. */
  method BlankPointerDuplicates() {
    var w := new Select([Pointer("")]);
    assert !NonBlank(w.config.pointer);
    w.Option("A", None);
    var screen := w.List();
    var o := w.Keypress(Right);
    o := w.Keypress(Right);
    assert w.optionsSelected == [At(0), At(0)];
    assert w.optionsSelected[0] == w.optionsSelected[1];
    assert !NoDuplicates(w.optionsSelected);
  }

  /** Pressing return before `list` installed a callback closes the widget and fails. */
  method ReturnBeforeList() {
    var w := new Select([]);
    w.Option("A", None);
    var o := w.Keypress(Return);
    assert o == SelectFailed && w.closed;
  }
}
