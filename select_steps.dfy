/**
 * The state changes of the widget as functions: moving the pointer with
 * its one-step scrolling of the window (index.js:154-170) and maintaining
 * the ordered selection (index.js:177-202).
 */
module SelectSteps {
  import opened SelectData

  /** The pointer position and the top of the visible window. */
  datatype Cursor = Cursor(pointer: int, min: int)

  /** `next`: one row down unless on the last row; the window follows once the pointer reaches its end. */
  function NextCursor(c: Cursor, length: int, limit: int): (r: Cursor)
    ensures r.pointer == c.pointer + 1 <==> c.pointer < length - 1
    ensures r.pointer == c.pointer <==> c.pointer >= length - 1
    ensures r.min == c.min + 1 <==> r.pointer >= c.min + limit
    ensures r.min == c.min || r.min == c.min + 1
    ensures length > 0 && 0 <= c.pointer < length ==> 0 <= r.pointer < length
    ensures length <= 0 && c.pointer == 0 ==> r.pointer == 0
    ensures c.min >= 0 ==> r.min >= 0
    ensures limit > 0 && c.min <= c.pointer < c.min + limit ==> r.min <= r.pointer < r.min + limit
    ensures (limit > 0 && c.pointer < Max(length, 1) && c.min <= c.pointer < c.min + limit
             && c.min <= Max(0, length - limit)) ==> r.min <= Max(0, length - limit)
    ensures limit == 0 && c.min <= c.pointer ==> r.min == c.min + 1
  {
    var maxPosition := c.min + limit;
    var p := c.pointer + (if c.pointer < length - 1 then 1 else 0);
    Cursor(p, if p >= maxPosition then c.min + 1 else c.min)
  }

  /** `prev`: one row up unless on the first row; the window follows once the pointer leaves its top. */
  function PrevCursor(c: Cursor): (r: Cursor)
    ensures r.pointer == c.pointer - 1 <==> c.pointer > 0
    ensures r.pointer == c.pointer <==> c.pointer <= 0
    ensures r.min == c.min - 1 <==> r.pointer < c.min
    ensures r.min == c.min || r.min == c.min - 1
    ensures 0 <= c.pointer ==> 0 <= r.pointer <= c.pointer
    ensures 0 <= c.pointer && 0 <= c.min ==> 0 <= r.min
  {
    var p := c.pointer - (if c.pointer > 0 then 1 else 0);
    Cursor(p, if p < c.min then c.min - 1 else c.min)
  }

  /** With a positive limit, `prev` keeps the pointer inside the window and the window inside the list. */
  lemma PrevKeepsWindow(c: Cursor, length: int, limit: int)
    requires limit > 0 && 0 <= c.pointer && c.min <= c.pointer < c.min + limit
    ensures var r := PrevCursor(c); r.min <= r.pointer < r.min + limit
    ensures c.min <= Max(0, length - limit) ==> PrevCursor(c).min <= Max(0, length - limit)
  {
  }

  /** The cursor after k presses of down. */
  function Downs(c: Cursor, length: int, limit: int, k: nat): Cursor {
    if k == 0 then c else NextCursor(Downs(c, length, limit, k - 1), length, limit)
  }

  /** The cursor after k presses of up. */
  function Ups(c: Cursor, k: nat): Cursor {
    if k == 0 then c else PrevCursor(Ups(c, k - 1))
  }

  /**
   * Repeated downs walk the pointer to the last row and stop there, and with
   * a positive limit the pointer never leaves the window nor the window the list.
   */
  lemma {:induction false} DownsReachEnd(c: Cursor, length: int, limit: int, k: nat)
    requires 0 <= c.pointer < Max(length, 1)
    ensures Downs(c, length, limit, k).pointer == if c.pointer + k < length then c.pointer + k else Max(length - 1, c.pointer)
    ensures (limit > 0 && c.min <= c.pointer < c.min + limit && c.min <= Max(0, length - limit)) ==>
      var r := Downs(c, length, limit, k);
      r.min <= r.pointer < r.min + limit && r.min <= Max(0, length - limit)
  {
    if k > 0 {
      DownsReachEnd(c, length, limit, k - 1);
    }
  }

  /** Repeated ups walk the pointer to the first row and stop there, the window following it. */
  lemma {:induction false} UpsReachTop(c: Cursor, length: int, limit: int, k: nat)
    requires 0 <= c.pointer
    ensures Ups(c, k).pointer == Max(0, c.pointer - k)
    ensures (limit > 0 && c.min <= c.pointer < c.min + limit && c.min <= Max(0, length - limit)) ==>
      var r := Ups(c, k);
      r.min <= r.pointer < r.min + limit && r.min <= Max(0, length - limit)
  {
    if k > 0 {
      UpsReachTop(c, length, limit, k - 1);
      if limit > 0 && c.min <= c.pointer < c.min + limit && c.min <= Max(0, length - limit) {
        PrevKeepsWindow(Ups(c, k - 1), length, limit);
      }
    }
  }

  /** Up undoes a down on any row but the last: the pointer returns, and the window too unless it scrolled. */
  lemma NextPrevPointer(c: Cursor, length: int, limit: int)
    requires 0 <= c.pointer < length - 1 && c.min <= c.pointer
    ensures PrevCursor(NextCursor(c, length, limit)).pointer == c.pointer
    ensures c.pointer + 1 < c.min + limit ==> PrevCursor(NextCursor(c, length, limit)) == c
  {
  }

  /** `Array.prototype.indexOf` on references: the first position holding x, or -1. */
  function IndexOf(s: seq<Ref>, x: Ref): (i: int)
    ensures -1 <= i < |s|
    ensures i == -1 <==> x !in s
    ensures 0 <= i ==> s[i] == x && x !in s[..i]
  {
    if s == [] then -1
    else if s[0] == x then 0
    else
      var j := IndexOf(s[1..], x);
      if j == -1 then -1
      else
        assert s[..j + 1] == [s[0]] + s[1..][..j];
        j + 1
  }

  /** No option record occurs twice. */
  predicate NoDuplicates(s: seq<Ref>) {
    forall i, j :: 0 <= i < j < |s| ==> s[i] != s[j]
  }

  /**
   * `checkoption`: the selection after checking, given the option recorded
   * as current and the option under the pointer (index.js:177-188).
   */
  function CheckedSelection(selected: seq<Ref>, current: Ref, target: Ref, multi: bool): (r: seq<Ref>)
    ensures current in selected ==> r == selected
    ensures current !in selected && multi ==> r == selected + [target]
    ensures current !in selected && !multi ==>
      |r| == Max(1, |selected|) && r[0] == target && forall k :: 1 <= k < |r| ==> r[k] == selected[k]
    ensures !multi && |selected| <= 1 ==> |r| <= 1
    ensures forall x :: x in r ==> x in selected || x == target
    ensures NoDuplicates(selected) && (current !in selected ==> target !in selected) ==> NoDuplicates(r)
  {
    if IndexOf(selected, current) != -1 then selected
    else if multi then selected + [target]
    else [target] + (if |selected| > 0 then selected[1..] else [])
  }

  /**
   * `uncheckoption`: the selection with the first occurrence of the
   * current option spliced out (index.js:195-202).
   */
  function UncheckedSelection(selected: seq<Ref>, current: Ref): (r: seq<Ref>)
    ensures current !in selected ==> r == selected
    ensures current in selected ==>
      exists i :: 0 <= i < |selected| && selected[i] == current && current !in selected[..i]
        && r == selected[..i] + selected[i + 1..]
    ensures |r| == |selected| - (if current in selected then 1 else 0)
    ensures forall x :: x in r ==> x in selected
    ensures NoDuplicates(selected) ==> NoDuplicates(r) && current !in r
  {
    var i := IndexOf(selected, current);
    if i == -1 then selected
    else
      var r := selected[..i] + selected[i + 1..];
      assert NoDuplicates(selected) ==> NoDuplicates(r) by {
        if NoDuplicates(selected) {
          forall a, b | 0 <= a < b < |r| ensures r[a] != r[b] {
            var a', b' := if a < i then a else a + 1, if b < i then b else b + 1;
            assert r[a] == selected[a'] && r[b] == selected[b'];
          }
        }
      }
      r
  }

  /** Checking the option under the pointer while it is current, then unchecking it, restores a multi-select selection. */
  lemma CheckUncheckRoundTrip(selected: seq<Ref>, target: Ref)
    requires target !in selected
    ensures UncheckedSelection(CheckedSelection(selected, target, target, true), target) == selected
  {
    var checked := CheckedSelection(selected, target, target, true);
    assert checked == selected + [target];
    var i := IndexOf(checked, target);
    assert checked[..|selected|] == selected;
    assert i == |selected|;
  }

  /** Checking the current option a second time changes nothing. */
  lemma CheckTwice(selected: seq<Ref>, target: Ref, multi: bool)
    ensures var once := CheckedSelection(selected, target, target, multi);
      CheckedSelection(once, target, target, multi) == once
  {
    var once := CheckedSelection(selected, target, target, multi);
    if target !in selected && !multi {
      assert once[0] == target;
    }
  }

  /** Unchecking a second time changes nothing once no option occurs twice. */
  lemma UncheckTwice(selected: seq<Ref>, current: Ref)
    requires NoDuplicates(selected)
    ensures var once := UncheckedSelection(selected, current);
      UncheckedSelection(once, current) == once
  {
  }

  /** The message `cancel` prints: the configured text when it is not empty (index.js:262). */
  function CancelMessage(c: Config): Maybe<string> {
    if c.msgCancel != "" then Some(c.msgCancel) else None
  }
}
