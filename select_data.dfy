/**
 * The values the select widget works on: option records, references to
 * them, and the configuration record together with the overlay that the
 * widget's constructor applies to the defaults (index.js:33-63).
 */
module SelectData {

  datatype Maybe<T> = None | Some(value: T)

  /** One entry of the option list, the record `{ text, value }` that `option` appends. */
  datatype Entry = Entry(text: string, value: string)

  /**
   * A JavaScript reference to an option record, as held in the selection
   * and in the current option. Every call of `option` builds a fresh record,
   * so the record at index i is identified by i alone; `Undefined` is the
   * value `undefined`, which indexing the option list outside its bounds
   * yields.
   */
  datatype Ref = Undefined | At(index: nat)

  /** Indexing the option list at p: the record there, or `undefined`. */
  function OptionAt(options: seq<Entry>, p: int): Ref {
    if 0 <= p < |options| then At(p) else Undefined
  }

  function Max(a: int, b: int): int { if a < b then b else a }

  /**
   * The configuration record. Colour names are kept but never applied:
   * styling a string is the identity in this model.
   * `extra` holds the keys the widget does not recognise.
   */
  datatype Config = Config(
    pointer: string, pointerColor: string,
    checked: string, unchecked: string, checkedColor: string,
    msgCancel: string, msgCancelColor: string,
    upArrow: string, downArrow: string, arrowColor: string,
    multiSelect: bool, inverse: bool, prepend: bool,
    clearBeforeSelect: bool, clearBeforeCancel: bool,
    optionsLimit: int,
    extra: map<string, string>)

  /** The defaults the constructor starts from (index.js:34-51). */
  const DEFAULTS: Config := Config(
    "> ", "white",
    " \U{2713}", "", "green",
    "No selected options!", "red",
    "\U{25B3}", "\U{25BD}", "yellow",
    true, false, false,
    true, true,
    5,
    map[])

  /** The names of the configuration keys the widget reads. */
  const KNOWN_KEYS: set<string> := {
    "pointer", "pointerColor", "checked", "unchecked", "checkedColor",
    "msgCancel", "msgCancelColor", "upArrow", "downArrow", "arrowColor",
    "multiSelect", "inverse", "prepend", "clearBeforeSelect",
    "clearBeforeCancel", "optionsLimit"}

  /** One key/value pair of the object handed to the constructor. */
  datatype Setting =
    | Pointer(s: string) | PointerColor(s: string)
    | Checked(s: string) | Unchecked(s: string) | CheckedColor(s: string)
    | MsgCancel(s: string) | MsgCancelColor(s: string)
    | UpArrow(s: string) | DownArrow(s: string) | ArrowColor(s: string)
    | MultiSelect(b: bool) | Inverse(b: bool) | Prepend(b: bool)
    | ClearBeforeSelect(b: bool) | ClearBeforeCancel(b: bool)
    | OptionsLimit(n: int)
    | Unknown(key: string, v: string)

  /** A recognised key is always given by its own constructor, never as `Unknown`. */
  predicate WellFormed(s: Setting) {
    s.Unknown? ==> s.key !in KNOWN_KEYS
  }

  /** The slot of the configuration record a setting writes. */
  datatype Field =
    | PointerField | PointerColorField
    | CheckedField | UncheckedField | CheckedColorField
    | MsgCancelField | MsgCancelColorField
    | UpArrowField | DownArrowField | ArrowColorField
    | MultiSelectField | InverseField | PrependField
    | ClearBeforeSelectField | ClearBeforeCancelField
    | OptionsLimitField
    | ExtraField(name: string)

  function FieldOf(s: Setting): Field {
    match s
    case Pointer(_) => PointerField
    case PointerColor(_) => PointerColorField
    case Checked(_) => CheckedField
    case Unchecked(_) => UncheckedField
    case CheckedColor(_) => CheckedColorField
    case MsgCancel(_) => MsgCancelField
    case MsgCancelColor(_) => MsgCancelColorField
    case UpArrow(_) => UpArrowField
    case DownArrow(_) => DownArrowField
    case ArrowColor(_) => ArrowColorField
    case MultiSelect(_) => MultiSelectField
    case Inverse(_) => InverseField
    case Prepend(_) => PrependField
    case ClearBeforeSelect(_) => ClearBeforeSelectField
    case ClearBeforeCancel(_) => ClearBeforeCancelField
    case OptionsLimit(_) => OptionsLimitField
    case Unknown(k, _) => ExtraField(k)
  }

  /** The setting that reproduces what slot f of c holds, if the slot is present. */
  function Read(c: Config, f: Field): Maybe<Setting> {
    match f
    case PointerField => Some(Pointer(c.pointer))
    case PointerColorField => Some(PointerColor(c.pointerColor))
    case CheckedField => Some(Checked(c.checked))
    case UncheckedField => Some(Unchecked(c.unchecked))
    case CheckedColorField => Some(CheckedColor(c.checkedColor))
    case MsgCancelField => Some(MsgCancel(c.msgCancel))
    case MsgCancelColorField => Some(MsgCancelColor(c.msgCancelColor))
    case UpArrowField => Some(UpArrow(c.upArrow))
    case DownArrowField => Some(DownArrow(c.downArrow))
    case ArrowColorField => Some(ArrowColor(c.arrowColor))
    case MultiSelectField => Some(MultiSelect(c.multiSelect))
    case InverseField => Some(Inverse(c.inverse))
    case PrependField => Some(Prepend(c.prepend))
    case ClearBeforeSelectField => Some(ClearBeforeSelect(c.clearBeforeSelect))
    case ClearBeforeCancelField => Some(ClearBeforeCancel(c.clearBeforeCancel))
    case OptionsLimitField => Some(OptionsLimit(c.optionsLimit))
    case ExtraField(k) => if k in c.extra then Some(Unknown(k, c.extra[k])) else None
  }

  /** One assignment `config[key] = value` of the constructor's loop. */
  function Apply(c: Config, s: Setting): Config {
    match s
    case Pointer(v) => c.(pointer := v)
    case PointerColor(v) => c.(pointerColor := v)
    case Checked(v) => c.(checked := v)
    case Unchecked(v) => c.(unchecked := v)
    case CheckedColor(v) => c.(checkedColor := v)
    case MsgCancel(v) => c.(msgCancel := v)
    case MsgCancelColor(v) => c.(msgCancelColor := v)
    case UpArrow(v) => c.(upArrow := v)
    case DownArrow(v) => c.(downArrow := v)
    case ArrowColor(v) => c.(arrowColor := v)
    case MultiSelect(v) => c.(multiSelect := v)
    case Inverse(v) => c.(inverse := v)
    case Prepend(v) => c.(prepend := v)
    case ClearBeforeSelect(v) => c.(clearBeforeSelect := v)
    case ClearBeforeCancel(v) => c.(clearBeforeCancel := v)
    case OptionsLimit(v) => c.(optionsLimit := v)
    case Unknown(k, v) => c.(extra := c.extra[k := v])
  }

  /** The whole overlay: every setting of conf assigned in order. */
  function Overlay(base: Config, conf: seq<Setting>): Config
    decreases |conf|
  {
    if conf == [] then base
    else Apply(Overlay(base, conf[..|conf| - 1]), conf[|conf| - 1])
  }

  /** The last setting in conf that writes slot f. */
  function LastFor(conf: seq<Setting>, f: Field): (r: Maybe<Setting>)
    ensures r.Some? ==> r.value in conf && FieldOf(r.value) == f
    ensures r.None? ==> forall s :: s in conf ==> FieldOf(s) != f
    decreases |conf|
  {
    if conf == [] then None
    else if FieldOf(conf[|conf| - 1]) == f then Some(conf[|conf| - 1])
    else LastFor(conf[..|conf| - 1], f)
  }

  /** An assignment makes the slot it names hold its value. */
  lemma ApplyReadSame(c: Config, s: Setting)
    ensures Read(Apply(c, s), FieldOf(s)) == Some(s)
  {
  }

  /** An assignment leaves every other slot as it was. */
  lemma ApplyReadOther(c: Config, s: Setting, f: Field)
    requires FieldOf(s) != f
    ensures Read(Apply(c, s), f) == Read(c, f)
  {
    if s.Unknown? && f.ExtraField? {
      assert (f.name in Apply(c, s).extra) == (f.name in c.extra);
    }
  }

  /**
   * After the overlay, every slot holds the value of the last setting
   * naming it, and a slot no setting names keeps its value from base.
   */
  lemma {:induction false} OverlayLastWins(base: Config, conf: seq<Setting>, f: Field)
    ensures Read(Overlay(base, conf), f) == if LastFor(conf, f).Some? then LastFor(conf, f) else Read(base, f)
    decreases |conf|
  {
    if conf != [] {
      var init, last := conf[..|conf| - 1], conf[|conf| - 1];
      OverlayLastWins(base, init, f);
      if FieldOf(last) == f {
        ApplyReadSame(Overlay(base, init), last);
      } else {
        ApplyReadOther(Overlay(base, init), last, f);
      }
    }
  }
}
