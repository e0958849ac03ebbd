/**
 * What `render` computes, as functions of the widget's state
 * (index.js:90-124): the line above the list with the up arrow, one line
 * per visible option, the line below with the down arrow, and the option
 * the loop records as the current one. Printing is left to the caller;
 * the lines are what `console.log` would receive, styling taken as the
 * identity.
 */
module SelectView {
  import opened SelectData

  /** The characters `String.prototype.trim` removes: ECMAScript white space and line terminators. */
  predicate IsJsSpace(ch: char) {
    || ch == '\t' || ch == '\n' || ch == '\U{000B}' || ch == '\U{000C}'
    || ch == '\r' || ch == ' ' || ch == '\U{00A0}' || ch == '\U{1680}'
    || ('\U{2000}' <= ch <= '\U{200A}')
    || ch == '\U{2028}' || ch == '\U{2029}' || ch == '\U{202F}'
    || ch == '\U{205F}' || ch == '\U{3000}' || ch == '\U{FEFF}'
  }

  /** s is truthy once trimmed: some character of s is not white space. */
  predicate NonBlank(s: string) {
    s != [] && (!IsJsSpace(s[0]) || NonBlank(s[1..]))
  }

  /** NonBlank says that some character survives trimming. */
  lemma {:induction false} NonBlankIff(s: string)
    ensures NonBlank(s) <==> exists i :: 0 <= i < |s| && !IsJsSpace(s[i])
  {
    if s != [] {
      NonBlankIff(s[1..]);
      if !IsJsSpace(s[0]) {
        assert !IsJsSpace(s[0]);
      } else if exists i :: 0 <= i < |s| && !IsJsSpace(s[i]) {
        var i :| 0 <= i < |s| && !IsJsSpace(s[i]);
        assert s[1..][i - 1] == s[i];
      }
    }
  }

  /** The glyph with every character replaced by a space, the prefix of the rows the pointer is not on. */
  function Blank(s: string): (r: string)
    ensures |r| == |s|
    ensures forall i :: 0 <= i < |r| ==> r[i] == ' '
    ensures !NonBlank(r)
  {
    if s == [] then [] else [' '] + Blank(s[1..])
  }

  /** The prefix of the row at position (index.js:101-102). */
  function Prefix(glyph: string, position: int, pointer: int): (r: string)
    ensures position == pointer ==> r == glyph
    ensures position != pointer ==> |r| == |glyph| && forall i :: 0 <= i < |r| ==> r[i] == ' '
    ensures NonBlank(r) <==> position == pointer && NonBlank(glyph)
  {
    if position == pointer then glyph else Blank(glyph)
  }

  /** The mark of the row at position: only in multi-select mode (index.js:104-107). */
  function Checkmark(c: Config, selected: seq<Ref>, position: nat): string {
    if !c.multiSelect then ""
    else if At(position) in selected then c.checked
    else c.unchecked
  }

  /** The printed row of the option at position (index.js:112-115). */
  function RowLine(c: Config, options: seq<Entry>, selected: seq<Ref>, pointer: int, position: nat): string
    requires position < |options|
  {
    var pre, mark := Prefix(c.pointer, position, pointer), Checkmark(c, selected, position);
    pre + (if c.prepend then mark else "") + options[position].text + (if c.prepend then "" else mark)
  }

  /**
   * A row starts with its prefix, as long as the pointer glyph; the mark
   * follows the prefix when prepending and ends the row otherwise; in
   * single-select mode there is no mark.
   */
  lemma RowLineLayout(c: Config, options: seq<Entry>, selected: seq<Ref>, pointer: int, position: nat)
    requires position < |options|
    ensures var r := RowLine(c, options, selected, pointer, position);
      var pre, mark, text := Prefix(c.pointer, position, pointer), Checkmark(c, selected, position), options[position].text;
      && |pre| == |c.pointer|
      && |r| == |c.pointer| + |mark| + |text|
      && r[..|pre|] == pre
      && (c.prepend ==> r[|pre|..|pre| + |mark|] == mark && r[|pre| + |mark|..] == text)
      && (!c.prepend ==> r[|pre|..|pre| + |text|] == text && r[|pre| + |text|..] == mark)
      && (!c.multiSelect ==> r == pre + text)
  {
    var pre, mark, text := Prefix(c.pointer, position, pointer), Checkmark(c, selected, position), options[position].text;
    if c.prepend {
      assert RowLine(c, options, selected, pointer, position) == pre + mark + text;
    } else {
      assert RowLine(c, options, selected, pointer, position) == pre + text + mark;
    }
  }

  /** Whether the row at position is printed (index.js:111). */
  predicate Visible(limit: int, min: int, position: int) {
    limit == 0 || (min <= position && position < min + limit)
  }

  /** The positions below n whose rows are printed, in increasing order. */
  function VisiblePositions(limit: int, min: int, n: nat): (ps: seq<nat>)
    ensures forall k :: 0 <= k < |ps| ==> ps[k] < n
    ensures forall j, k :: 0 <= j < k < |ps| ==> ps[j] < ps[k]
  {
    if n == 0 then []
    else VisiblePositions(limit, min, n - 1) + (if Visible(limit, min, n - 1) then [n - 1] else [])
  }

  /** The printed rows for the given positions, in order. */
  function RowsFor(c: Config, options: seq<Entry>, selected: seq<Ref>, pointer: int, ps: seq<nat>): seq<string>
    requires forall k :: 0 <= k < |ps| ==> ps[k] < |options|
  {
    seq(|ps|, k requires 0 <= k < |ps| => RowLine(c, options, selected, pointer, ps[k]))
  }

  /** Passing one more position adds its row exactly when it is visible. */
  lemma RowsStep(c: Config, options: seq<Entry>, selected: seq<Ref>, pointer: int, min: int, position: nat)
    requires position < |options|
    ensures RowsFor(c, options, selected, pointer, VisiblePositions(c.optionsLimit, min, position + 1))
      == RowsFor(c, options, selected, pointer, VisiblePositions(c.optionsLimit, min, position))
         + (if Visible(c.optionsLimit, min, position) then [RowLine(c, options, selected, pointer, position)] else [])
  {
    var ps := VisiblePositions(c.optionsLimit, min, position);
    if Visible(c.optionsLimit, min, position) {
      assert VisiblePositions(c.optionsLimit, min, position + 1) == ps + [position];
    } else {
      assert VisiblePositions(c.optionsLimit, min, position + 1) == ps;
    }
  }

  /** The line printed above the rows (index.js:94-98). */
  function HeaderLine(c: Config, min: int): string {
    if c.optionsLimit > 0 && min > 0 then "    " + c.upArrow else ""
  }

  /** The line printed below the rows (index.js:120-124). */
  function FooterLine(c: Config, min: int, length: int): string {
    if c.optionsLimit > 0 && min + c.optionsLimit < length then "    " + c.downArrow else ""
  }

  /** Everything one `render` prints. */
  function Screen(c: Config, options: seq<Entry>, selected: seq<Ref>, min: int, pointer: int, length: int): seq<string> {
    [HeaderLine(c, min)]
      + RowsFor(c, options, selected, pointer, VisiblePositions(c.optionsLimit, min, |options|))
      + [FooterLine(c, min, length)]
  }

  /** The current option once the loop of `render` has passed every row (index.js:109). */
  function RenderedCurrent(glyph: string, pointer: int, n: nat, current: Ref): Ref {
    if NonBlank(glyph) && 0 <= pointer < n then At(pointer) else current
  }

  /** A position is printed iff windowing is off or it lies in the window. */
  lemma {:induction false} VisibleIff(limit: int, min: int, n: nat, p: nat)
    ensures p in VisiblePositions(limit, min, n) <==> p < n && Visible(limit, min, p)
  {
    if n > 0 {
      VisibleIff(limit, min, n - 1, p);
    }
  }

  /** Under the window invariant the widget keeps, the pointer's row is always printed. */
  lemma PointerVisible(limit: int, min: int, n: nat, pointer: nat)
    requires pointer < n
    requires limit > 0 ==> min <= pointer < min + limit
    requires limit >= 0
    ensures pointer in VisiblePositions(limit, min, n)
  {
    VisibleIff(limit, min, n, pointer);
  }

  /**
   * The printed positions exactly: all of them when the limit is 0,
   * otherwise the run from min up to the end of the window or of the list.
   */
  lemma {:induction false} VisibleWindow(limit: int, min: nat, n: nat)
    ensures var ps := VisiblePositions(limit, min, n);
      && (limit == 0 ==> |ps| == n && forall k :: 0 <= k < n ==> ps[k] == k)
      && (limit != 0 ==> |ps| == Max(0, (if min + limit < n then min + limit else n) - min))
      && (limit != 0 ==> forall k :: 0 <= k < |ps| ==> ps[k] == min + k)
  {
    if n > 0 {
      VisibleWindow(limit, min, n - 1);
    }
  }

  /** The shape of a printed screen: the arrow line, one line per visible row, the arrow line. */
  lemma ScreenLayout(c: Config, options: seq<Entry>, selected: seq<Ref>, min: int, pointer: int)
    ensures var lines, ps := Screen(c, options, selected, min, pointer, |options|), VisiblePositions(c.optionsLimit, min, |options|);
      && |lines| == |ps| + 2
      && (lines[0] == "    " + c.upArrow <==> c.optionsLimit > 0 && min > 0)
      && (lines[0] != "    " + c.upArrow ==> lines[0] == "")
      && (lines[|lines| - 1] == "    " + c.downArrow <==> c.optionsLimit > 0 && min + c.optionsLimit < |options|)
      && (lines[|lines| - 1] != "    " + c.downArrow ==> lines[|lines| - 1] == "")
      && forall k :: 0 <= k < |ps| ==> lines[k + 1] == RowLine(c, options, selected, pointer, ps[k])
  {
    assert |"    " + c.upArrow| > 0 && |"    " + c.downArrow| > 0;
  }
}
