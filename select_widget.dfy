/**
 * The `Select` widget of index.js as an object whose methods update its
 * fields in place: option registration, rendering, pointer movement,
 * checking and unchecking, and the two ways of finishing, dispatched by
 * `Keypress`. Every method states its new state through the functions of
 * SelectSteps and SelectView.
 */
module SelectWidget {
  import opened SelectData
  import opened SelectView
  import opened SelectSteps

  /**
   * The `name` of a decoded key; a missing key object has no name and is
   * `OtherKey`. The six names the widget handles are always given by their
   * own constructors, never as `OtherKey`: see `Decoded`.
   */
  datatype Key = Up | Down | Right | Left | Return | Escape | OtherKey(name: string)

  /** A key as the decoding produces it: `OtherKey` never carries a name the widget dispatches on. */
  predicate Decoded(key: Key) {
    key.OtherKey? ==> key.name !in {"up", "down", "right", "left", "return", "escape"}
  }

  /** What handling one key leads to, beyond the new state. */
  datatype Outcome =
    | Ignored                                    // nothing changed and nothing was drawn
    | Redrawn(screen: seq<string>)                // the state changed and the list was drawn again
    | Selected(selection: seq<Ref>)               // the `select` callback and the `select` event, both given the whole array
    | SelectFailed                               // `list` never installed a callback: calling it throws
    | Cancelled(selection: seq<Ref>, message: Maybe<string>)  // the `cancel` event, and the message printed if any

  class Select {
    var config: Config
    var options: seq<Entry>
    var optionsLength: int
    var minPosition: int
    var pointerPosition: int
    var optionsSelected: seq<Ref>
    var currentoption: Ref
    /** `list` has installed the `select` callback. */
    var listed: bool
    /** `close` has removed the keypress listener: no further key reaches the widget. */
    var closed: bool

    /** What every method keeps, whatever keys arrive and in whatever order. */
    ghost predicate Valid()
      reads this
    {
      && optionsLength == |options|
      && 0 <= pointerPosition && (pointerPosition < optionsLength || pointerPosition == 0)
      && 0 <= minPosition
      && (config.optionsLimit > 0 ==> minPosition <= pointerPosition < minPosition + config.optionsLimit)
      && (config.optionsLimit > 0 ==> minPosition <= Max(0, optionsLength - config.optionsLimit))
      && (!config.multiSelect ==> |optionsSelected| <= 1)
      && (currentoption.At? ==> currentoption.index < |options|)
      && (forall r :: r in optionsSelected && r.At? ==> r.index < |options|)
    }

    /** The current option is the record under the pointer, as every render with a non-blank pointer glyph leaves it. */
    ghost predicate Synced()
      reads this
    {
      currentoption == OptionAt(options, pointerPosition)
    }

    /**
     * The selection holds no option twice, and checking cannot add a second
     * copy: when the current option is not selected, neither is the one
     * under the pointer, which is what `checkoption` appends.
     */
    ghost predicate Consistent()
      reads this
    {
      && NoDuplicates(optionsSelected)
      && (currentoption !in optionsSelected ==> OptionAt(options, pointerPosition) !in optionsSelected)
    }

    function Position(): Cursor
      reads this
    {
      Cursor(pointerPosition, minPosition)
    }

    /** `new Select(conf)`: the defaults overlaid with conf, key by key (index.js:33-66). */
    constructor (conf: seq<Setting>)
      requires forall s :: s in conf ==> WellFormed(s)
      ensures Valid() && Consistent()
      ensures config == Overlay(DEFAULTS, conf)
      ensures options == [] && optionsLength == 0
      ensures minPosition == 0 && pointerPosition == 0
      ensures optionsSelected == [] && currentoption == Undefined
      ensures !listed && !closed
    {
      var cfg := DEFAULTS;
      var i := 0;
      while i < |conf|
        invariant 0 <= i <= |conf|
        invariant cfg == Overlay(DEFAULTS, conf[..i])
      {
        assert conf[..i + 1][..i] == conf[..i];
        cfg := Apply(cfg, conf[i]);
        i := i + 1;
      }
      assert conf[..|conf|] == conf;
      config := cfg;
      options := [];
      optionsLength := 0;
      minPosition := 0;
      pointerPosition := 0;
      optionsSelected := [];
      currentoption := Undefined;
      listed := false;
      closed := false;
    }

    /** `option(text, value)`: appends a record, the value defaulting to the text (index.js:210-216). */
    method Option(text: string, value: Maybe<string>)
      requires Valid()
      modifies this`options, this`optionsLength
      ensures Valid()
      ensures options == old(options) + [Entry(text, if value.Some? then value.value else text)]
      ensures optionsLength == |options|
      ensures old(Consistent()) ==> Consistent()
      ensures old(|options|) > 0 && old(Synced()) ==> Synced()
    {
      var v := if value.Some? then value.value else text;
      options := options + [Entry(text, v)];
      optionsLength := |options|;
    }

    /** `render`: the lines printed, and the current option left by its loop (index.js:90-124). */
    method Render() returns (screen: seq<string>)
      requires Valid()
      modifies this`currentoption
      ensures Valid()
      ensures screen == Screen(config, options, optionsSelected, minPosition, pointerPosition, optionsLength)
      ensures currentoption == RenderedCurrent(config.pointer, pointerPosition, |options|, old(currentoption))
      ensures NonBlank(config.pointer) ==> Synced()
      ensures old(Consistent()) ==> Consistent()
    {
      var maxPosition := minPosition + config.optionsLimit;
      var header := HeaderLine(config, minPosition);
      var rows: seq<string> := [];
      var position := 0;
      while position < |options|
        invariant 0 <= position <= |options|
        invariant rows == RowsFor(config, options, optionsSelected, pointerPosition, VisiblePositions(config.optionsLimit, minPosition, position))
        invariant currentoption == RenderedCurrent(config.pointer, pointerPosition, position, old(currentoption))
      {
        var prefix := Prefix(config.pointer, position, pointerPosition);
        currentoption := if NonBlank(prefix) then At(position) else currentoption;
        RowsStep(config, options, optionsSelected, pointerPosition, minPosition, position);
        if config.optionsLimit == 0 || (position >= minPosition && position < maxPosition) {
          rows := rows + [RowLine(config, options, optionsSelected, pointerPosition, position)];
        }
        position := position + 1;
      }
      screen := [header] + rows + [FooterLine(config, minPosition, optionsLength)];
    }

    /** `list`: draws the list and installs the `select` callback (index.js:224-228). */
    method List() returns (screen: seq<string>)
      requires Valid()
      modifies this`currentoption, this`listed
      ensures Valid() && listed
      ensures screen == Screen(config, options, optionsSelected, minPosition, pointerPosition, optionsLength)
      ensures currentoption == RenderedCurrent(config.pointer, pointerPosition, |options|, old(currentoption))
      ensures NonBlank(config.pointer) ==> Synced()
      ensures old(Consistent()) ==> Consistent()
    {
      screen := Render();
      listed := true;
    }

    /** `next`, followed by a redraw (index.js:154-159). */
    method Next() returns (screen: seq<string>)
      requires Valid()
      modifies this`pointerPosition, this`minPosition, this`currentoption
      ensures Valid()
      ensures Position() == NextCursor(old(Position()), optionsLength, config.optionsLimit)
      ensures currentoption == RenderedCurrent(config.pointer, pointerPosition, |options|, old(currentoption))
      ensures screen == Screen(config, options, optionsSelected, minPosition, pointerPosition, optionsLength)
      ensures old(Consistent()) && NonBlank(config.pointer) ==> Consistent()
      ensures old(Synced()) && NonBlank(config.pointer) ==> Synced()
    {
      var maxPosition := minPosition + config.optionsLimit;
      pointerPosition := pointerPosition + (if pointerPosition < optionsLength - 1 then 1 else 0);
      if pointerPosition >= maxPosition {
        minPosition := minPosition + 1;
      }
      screen := Render();
    }

    /** `prev`, followed by a redraw (index.js:166-170). */
    method Prev() returns (screen: seq<string>)
      requires Valid()
      modifies this`pointerPosition, this`minPosition, this`currentoption
      ensures Valid()
      ensures Position() == PrevCursor(old(Position()))
      ensures currentoption == RenderedCurrent(config.pointer, pointerPosition, |options|, old(currentoption))
      ensures screen == Screen(config, options, optionsSelected, minPosition, pointerPosition, optionsLength)
      ensures old(Consistent()) && NonBlank(config.pointer) ==> Consistent()
      ensures old(Synced()) && NonBlank(config.pointer) ==> Synced()
    {
      if config.optionsLimit > 0 {
        PrevKeepsWindow(Position(), optionsLength, config.optionsLimit);
      }
      pointerPosition := pointerPosition - (if pointerPosition > 0 then 1 else 0);
      if pointerPosition < minPosition {
        minPosition := minPosition - 1;
      }
      screen := Render();
    }

    /** `checkoption`: redraws only when the current option was not yet selected (index.js:177-188). */
    method CheckOption() returns (screen: Maybe<seq<string>>)
      requires Valid()
      modifies this`optionsSelected, this`currentoption
      ensures Valid()
      ensures optionsSelected
        == CheckedSelection(old(optionsSelected), old(currentoption), OptionAt(options, pointerPosition), config.multiSelect)
      ensures old(currentoption) in old(optionsSelected) ==> currentoption == old(currentoption) && screen == None
      ensures old(currentoption) !in old(optionsSelected) ==>
        && currentoption == RenderedCurrent(config.pointer, pointerPosition, |options|, old(currentoption))
        && screen == Some(Screen(config, options, optionsSelected, minPosition, pointerPosition, optionsLength))
      ensures old(Consistent()) && NonBlank(config.pointer) ==> Consistent()
      ensures old(Synced()) && NonBlank(config.pointer) ==> Synced()
    {
      var optionPosition := IndexOf(optionsSelected, currentoption);
      if optionPosition == -1 {
        var option := OptionAt(options, pointerPosition);
        if config.multiSelect {
          optionsSelected := optionsSelected + [option];
        } else {
          optionsSelected := [option] + (if |optionsSelected| > 0 then optionsSelected[1..] else []);
        }
        var lines := Render();
        screen := Some(lines);
      } else {
        screen := None;
      }
    }

    /** `uncheckoption`: redraws only when the current option was selected (index.js:195-202). */
    method UncheckOption() returns (screen: Maybe<seq<string>>)
      requires Valid()
      modifies this`optionsSelected, this`currentoption
      ensures Valid()
      ensures optionsSelected == UncheckedSelection(old(optionsSelected), old(currentoption))
      ensures old(currentoption) !in old(optionsSelected) ==> currentoption == old(currentoption) && screen == None
      ensures old(currentoption) in old(optionsSelected) ==>
        && currentoption == RenderedCurrent(config.pointer, pointerPosition, |options|, old(currentoption))
        && screen == Some(Screen(config, options, optionsSelected, minPosition, pointerPosition, optionsLength))
      ensures old(Consistent()) && NonBlank(config.pointer) ==> Consistent()
      ensures old(Synced()) && NonBlank(config.pointer) ==> Synced()
    {
      var optionPosition := IndexOf(optionsSelected, currentoption);
      if optionPosition != -1 {
        optionsSelected := optionsSelected[..optionPosition] + optionsSelected[optionPosition + 1..];
        var lines := Render();
        screen := Some(lines);
      } else {
        screen := None;
      }
    }

    /** `close`: the keypress listener is removed (index.js:235-238). */
    method Close()
      modifies this`closed
      ensures closed
    {
      closed := true;
    }

    /**
     * `selectoption`: in single-select mode the option under the pointer is
     * checked first; then the widget closes and hands the whole selection to
     * the callback and the `select` event (index.js:245-255).
     */
    method SelectOption() returns (outcome: Outcome)
      requires Valid()
      modifies this`optionsSelected, this`currentoption, this`closed
      ensures Valid() && closed
      ensures config.multiSelect ==> optionsSelected == old(optionsSelected) && currentoption == old(currentoption)
      ensures !config.multiSelect ==>
        optionsSelected == CheckedSelection(old(optionsSelected), old(currentoption), OptionAt(options, pointerPosition), false)
      ensures !config.multiSelect && old(currentoption) in old(optionsSelected) ==> currentoption == old(currentoption)
      ensures !config.multiSelect && old(currentoption) !in old(optionsSelected) ==>
        currentoption == RenderedCurrent(config.pointer, pointerPosition, |options|, old(currentoption))
      ensures !config.multiSelect && old(Synced()) ==> optionsSelected == [OptionAt(options, pointerPosition)]
      ensures outcome == if listed then Selected(optionsSelected) else SelectFailed
      ensures old(Consistent()) && NonBlank(config.pointer) ==> Consistent()
      ensures old(Synced()) && NonBlank(config.pointer) ==> Synced()
    {
      if !config.multiSelect {
        var _ := CheckOption();
      }
      var r := optionsSelected;
      Close();
      outcome := if listed then Selected(r) else SelectFailed;
    }

    /** `cancel`: closes and hands the whole selection to the `cancel` event (index.js:257-264). */
    method Cancel() returns (outcome: Outcome)
      modifies this`closed
      ensures closed
      ensures outcome == Cancelled(optionsSelected, CancelMessage(config))
    {
      Close();
      outcome := Cancelled(optionsSelected, CancelMessage(config));
    }

    /**
     * `keypress`: one key delivered by the input stream (index.js:271-295).
     * Once closed, the listener is gone and a key changes nothing.
     */
    method Keypress(key: Key) returns (outcome: Outcome)
      requires Valid() && Decoded(key)
      modifies this
      ensures Valid()
      ensures config == old(config) && options == old(options) && optionsLength == old(optionsLength) && listed == old(listed)
      ensures closed == (old(closed) || key.Return? || key.Escape?)
      ensures old(closed) || key.OtherKey? ==> outcome == Ignored && unchanged(this)
      ensures !old(closed) && key.Down? ==>
        && Position() == NextCursor(old(Position()), optionsLength, config.optionsLimit)
        && optionsSelected == old(optionsSelected)
        && currentoption == RenderedCurrent(config.pointer, pointerPosition, |options|, old(currentoption))
        && outcome == Redrawn(Screen(config, options, optionsSelected, minPosition, pointerPosition, optionsLength))
      ensures !old(closed) && key.Up? ==>
        && Position() == PrevCursor(old(Position()))
        && optionsSelected == old(optionsSelected)
        && currentoption == RenderedCurrent(config.pointer, pointerPosition, |options|, old(currentoption))
        && outcome == Redrawn(Screen(config, options, optionsSelected, minPosition, pointerPosition, optionsLength))
      ensures !old(closed) && key.Right? ==>
        && Position() == old(Position())
        && optionsSelected
           == CheckedSelection(old(optionsSelected), old(currentoption), OptionAt(options, pointerPosition), config.multiSelect)
        && (old(currentoption) in old(optionsSelected) ==> currentoption == old(currentoption) && outcome == Ignored)
        && (old(currentoption) !in old(optionsSelected) ==>
             && currentoption == RenderedCurrent(config.pointer, pointerPosition, |options|, old(currentoption))
             && outcome == Redrawn(Screen(config, options, optionsSelected, minPosition, pointerPosition, optionsLength)))
      ensures !old(closed) && key.Left? ==>
        && Position() == old(Position())
        && optionsSelected == UncheckedSelection(old(optionsSelected), old(currentoption))
        && (old(currentoption) !in old(optionsSelected) ==> currentoption == old(currentoption) && outcome == Ignored)
        && (old(currentoption) in old(optionsSelected) ==>
             && currentoption == RenderedCurrent(config.pointer, pointerPosition, |options|, old(currentoption))
             && outcome == Redrawn(Screen(config, options, optionsSelected, minPosition, pointerPosition, optionsLength)))
      ensures !old(closed) && key.Return? ==>
        && Position() == old(Position())
        && (config.multiSelect ==> optionsSelected == old(optionsSelected))
        && (!config.multiSelect ==>
              optionsSelected
              == CheckedSelection(old(optionsSelected), old(currentoption), OptionAt(options, pointerPosition), false))
        && (config.multiSelect ==> currentoption == old(currentoption))
        && (!config.multiSelect && old(currentoption) in old(optionsSelected) ==> currentoption == old(currentoption))
        && (!config.multiSelect && old(currentoption) !in old(optionsSelected) ==>
              currentoption == RenderedCurrent(config.pointer, pointerPosition, |options|, old(currentoption)))
        && (!config.multiSelect && old(Synced()) ==> optionsSelected == [OptionAt(options, pointerPosition)])
        && outcome == (if listed then Selected(optionsSelected) else SelectFailed)
      ensures !old(closed) && key.Escape? ==>
        && Position() == old(Position())
        && optionsSelected == old(optionsSelected) && currentoption == old(currentoption)
        && outcome == Cancelled(old(optionsSelected), CancelMessage(config))
      ensures old(Consistent()) && NonBlank(config.pointer) ==> Consistent()
      ensures old(Synced()) && NonBlank(config.pointer) ==> Synced()
    {
      if closed {
        return Ignored;
      }
      match key
      case Up =>
        var screen := Prev();
        outcome := Redrawn(screen);
      case Down =>
        var screen := Next();
        outcome := Redrawn(screen);
      case Right =>
        var screen := CheckOption();
        outcome := if screen.Some? then Redrawn(screen.value) else Ignored;
      case Left =>
        var screen := UncheckOption();
        outcome := if screen.Some? then Redrawn(screen.value) else Ignored;
      case Return =>
        outcome := SelectOption();
      case Escape =>
        outcome := Cancel();
      case OtherKey(_) =>
        outcome := Ignored;
    }
  }
}
