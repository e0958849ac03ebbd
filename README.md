# select-shell: the `Select` widget

This is a model of the `Select` widget in `index.js` of select-shell, a
terminal list picker for Node.js. A `Select` is built from a configuration
object merged over fixed defaults. Options are registered with `option`,
and `list` draws them and installs a callback. Keypresses do the rest:
- up and down move a pointer, and the visible window scrolls along;
- right checks the option under the pointer, left unchecks it;
- return commits the selection to the callback and the `select` event;
- escape cancels, emitting the selection with the `cancel` event.

The project has five modules, one file each:

- `SelectData` (`select_data.dfy`): option records, references to them, the
  configuration record and its defaults, and the key-by-key overlay the
  constructor applies.
- `SelectView` (`select_view.dfy`): what `render` computes, as functions.
  This is the up-arrow line, one line per visible option with its pointer
  prefix and check mark, the down-arrow line, and the option the render loop
  leaves as the current one.
- `SelectSteps` (`select_steps.dfy`): the pointer and window movement of
  `next` and `prev`, and the selection updates of `checkoption` and
  `uncheckoption`, as functions with their properties.
- `SelectWidget` (`select_widget.dfy`): the class `Select`, whose fields are
  the object's fields. Each method updates them in place and states the new
  state through the functions above. `Keypress` dispatches one key.
- `SelectScenarios` (`select_scenarios.dfy`): client methods that replay key
  sequences against the class contracts. They cover paging through a window
  of three, multi-select and cancel, an empty list, and a blank pointer
  glyph. They also cover return before `list`.

Modelling choices:

- Option identity. Every `option` call builds a fresh record, so a record is
  identified by its index. A reference is `At(i)` or `Undefined`.
  `Undefined` is what indexing the option list out of bounds yields in
  JavaScript.
- The predicate `Valid()` holds after every method:
  - the pointer is in range;
  - the window is non-negative;
  - when the limit is positive, the pointer is inside the window and the
    window inside the list;
  - in single-select mode at most one reference is held;
  - every reference is in range.
- Two further invariants depend on the pointer glyph not being blank.
  - `Synced()` says the current option is the record under the pointer.
    Every render establishes it, and every method keeps it, with one
    exception: `option` on an empty list adds a record under the pointer
    while the current option stays `undefined`, until the next render.
  - `Consistent()` says no option is selected twice, and every method keeps
    it.
- Output is modelled as the list of lines `console.log` would receive.
  Colour and inverse styling are taken as the identity.

## Model

| member | source | states |
|---|---|---|
| SelectData.LastFor | index.js:61-63 | the setting found is in the configuration and writes the requested slot; when none is found, no setting writes it |
| SelectData.ApplyReadSame | index.js:62 | one assignment `config[key] = value` makes that key hold the value |
| SelectData.ApplyReadOther | index.js:62 | one assignment leaves every other key as it was, including unknown keys |
| SelectData.OverlayLastWins | index.js:34-63 | after the constructor's loop, every key holds the value of the last setting naming it, and a key no setting names keeps its default |
| SelectView.NonBlankIff | index.js:109 | the pointer prefix is truthy after `trim` exactly when one of its characters is not ECMAScript white space |
| SelectView.Blank | index.js:102 | the glyph of a row off the pointer is as long as the pointer glyph, is all spaces, and trims to empty |
| SelectView.Prefix | index.js:101-102 | the prefix is the pointer glyph on the pointer's row and spaces of the same length elsewhere; it is non-blank exactly on the pointer's row when the glyph is non-blank |
| SelectView.RowLineLayout | index.js:104-115 | a row is the prefix, then the mark and the text (prepend) or the text and the mark; its length is the sum of the three; in single-select mode a row is prefix plus text |
| SelectView.VisiblePositions | index.js:100-111 | printed positions are below the option count and strictly increasing, as `forEach` visits them |
| SelectView.RowsStep | index.js:100-118 | visiting one more position appends its row exactly when it is in the window or windowing is off |
| SelectView.VisibleIff | index.js:111 | a position is printed exactly when it is in range and either the limit is 0 or it lies in `[min, min+limit)` |
| SelectView.PointerVisible | index.js:111 | for a non-negative limit, with the window invariant kept by `next` and `prev`, the pointer's row is always printed; a negative limit prints no row at all |
| SelectView.VisibleWindow | index.js:111 | the printed positions are all of them when the limit is 0, and otherwise the run from min to the end of the window or of the list |
| SelectView.ScreenLayout | index.js:94-124 | a screen has two more lines than printed rows; the first line is the up arrow exactly when the limit is positive and min is above 0, and empty otherwise; the last line is the down arrow exactly when rows remain below the window, and empty otherwise; the rows sit between them in order |
| SelectSteps.NextCursor | index.js:154-157 | down moves the pointer by one unless it is on the last row, and scrolls the window by one exactly when the pointer reaches its end; it keeps the pointer in the list, and the pointer in the window and the window in the list when the limit is positive; with a limit of 0, a down increments min exactly when min is not above the new pointer |
| SelectSteps.PrevCursor | index.js:166-168 | up moves the pointer by one unless it is on the first row, and scrolls the window back by one exactly when the pointer leaves its top; pointer and window stay non-negative |
| SelectSteps.PrevKeepsWindow | index.js:166-168 | with a positive limit, up keeps the pointer inside the window and the window inside the list |
| SelectSteps.DownsReachEnd | index.js:154-157 | k downs put the pointer k rows lower, stopping at the last row, and keep the window invariant |
| SelectSteps.UpsReachTop | index.js:166-168 | k ups put the pointer k rows higher, stopping at the first row, and keep the window invariant |
| SelectSteps.NextPrevPointer | index.js:154-168 | up after a down on any row but the last brings the pointer back, and the whole cursor back when the window did not scroll |
| SelectSteps.IndexOf | index.js:178 | `indexOf` yields -1 exactly when the reference is absent, and otherwise the first position holding it |
| SelectSteps.CheckedSelection | index.js:177-185 | checking changes nothing when the current option is selected; otherwise multi-select appends the pointer's record and single-select replaces the first entry with it; single-select never holds more than one; no duplicate is introduced while the current option agrees with the pointer's |
| SelectSteps.UncheckedSelection | index.js:195-199 | unchecking splices out the first occurrence of the current option, and changes nothing when it is absent; the length drops by exactly one when it was present; duplicate-freedom is kept and the option is then gone |
| SelectSteps.CheckUncheckRoundTrip | index.js:177-202 | in multi-select mode, checking an unselected current option and then unchecking it restores the selection |
| SelectSteps.CheckTwice | index.js:177-188 | checking the current option twice is the same as checking it once |
| SelectSteps.UncheckTwice | index.js:195-202 | unchecking twice is the same as unchecking once when no option occurs twice |
| SelectWidget.Select.constructor | index.js:33-66 | the configuration is the defaults overlaid with the given settings in order; the option list and selection are empty, the pointer and window at 0, the current option `undefined`; no callback yet |
| SelectWidget.Select.Option | index.js:210-216 | appends `{text, value}`, the value defaulting to the text; the length field follows; the invariants are kept |
| SelectWidget.Select.Render | index.js:90-124 | the lines printed are the screen function of the state; the current option becomes the pointer's record when the glyph is non-blank and the pointer in range, and is unchanged otherwise |
| SelectWidget.Select.List | index.js:224-228 | draws the screen as render does and installs the callback |
| SelectWidget.Select.Next | index.js:154-159 | the new cursor is `NextCursor` of the old one, followed by a redraw; the invariants are kept |
| SelectWidget.Select.Prev | index.js:166-170 | the new cursor is `PrevCursor` of the old one, followed by a redraw; the invariants are kept |
| SelectWidget.Select.CheckOption | index.js:177-188 | the new selection is `CheckedSelection` of the old one; it redraws exactly when the current option was not selected |
| SelectWidget.Select.UncheckOption | index.js:195-202 | the new selection is `UncheckedSelection` of the old one; it redraws exactly when the current option was selected |
| SelectWidget.Select.Close | index.js:235-238 | the keypress listener is removed |
| SelectWidget.Select.SelectOption | index.js:245-255 | single-select checks first, so a synced widget commits exactly the pointer's record; then it closes and hands over the whole selection, or fails when `list` installed no callback |
| SelectWidget.Select.Cancel | index.js:257-264 | closes; the `cancel` event carries the whole selection, and the message is printed when it is not empty |
| SelectWidget.Select.Keypress | index.js:271-295 | each decoded key (`OtherKey` never carries one of the six handled names) does what its handler does, including the new current option, and nothing else changes; unknown keys and keys after closing change nothing; the invariants are kept whatever keys arrive |
| SelectScenarios.PagedConfig | index.js:33-66 | the configuration of a widget built with a limit of 3 in single-select mode is the defaults with those two keys replaced, so the pointer glyph is non-blank |
| SelectScenarios.AddSix | index.js:210-216 | six `option` calls give exactly the records A to F in order, each taking its text as value |

## Left out

- Terminal output is left out: the cursor moves and screen clearing of
  `clearList` (index.js:143-147), the cursor show and hide escapes, and the
  `readline` interface. The flags `clearBeforeSelect` and `clearBeforeCancel`
  are kept in the configuration but have no effect.
- Colours and the `inverse` style are left out. Styling a string with the
  `colors` package is taken as the identity.
- The `EventEmitter` machinery is left out. The `select` callback and the
  `select` and `cancel` events are reported as an `Outcome`, not dispatched.
- Registering the keypress listener is modelled as the flag `closed`. While
  it is false, keys reach the widget.
- Method chaining is left out: `option` and `list` return `this`.
- The value in `cancel` that is computed and never used (index.js:258) is
  left out.
- An option's text and value are any JavaScript values in the source. Here
  both are strings, and value absence is `None` in place of `undefined`.
  Indexing a non-string text with `'inverse'` (index.js:114) is not
  modelled.
- Configuration values are typed per key: `optionsLimit` is an integer even
  though JavaScript would accept any value.
- SelectView.Blank: replaces one character per Dafny `char`. The source's
  regular expression replaces one UTF-16 code unit, so glyphs outside the
  Basic Multilingual Plane would come out one space longer there.
- SelectWidget.Select.SelectOption: when single-select checking redraws
  before the commit, the redrawn screen is not returned.

## Behaviour worth noting

The code behaves as follows in these cases. The model follows the code, and
a scenario shows each case.

- A commit always hands over the whole selection array, even in single-select
  mode. The doc comment at index.js:73-82 announces a single option there.
  `SelectScenarios.PagedSingleSelect` commits `[At(4)]`.
- Checking on an empty list records `undefined` (`options[0]`).
  `SelectScenarios.EmptyListCheck` commits `[Undefined]`.
- With a blank pointer glyph the current option is never recorded, so
  checking twice records the same option twice.
  `SelectScenarios.BlankPointerDuplicates` shows this for `Pointer("")`.
- Return before `list` closes the widget and then calls an undefined
  callback, which throws. This is modelled as `SelectFailed` and shown by
  `SelectScenarios.ReturnBeforeList`.
- With a limit of 0 no window exists, yet a down increments `min` whenever
  `min` is not above the new pointer, and an up decrements it again once the
  pointer drops below it (`SelectSteps.NextCursor`, `SelectSteps.PrevCursor`).
