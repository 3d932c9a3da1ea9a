/** The editing engine as functions on a value: the text as UTF-16 units,
    the cursor and the selection length, both counted in units. The
    keyboard's methods are proved to change their fields exactly as these
    functions say. */
module TextEditing {
  import opened Utf16
  import opened Platform
  import LanguageKeys

  /** The part of the editor state that keys change: `text`,
      `cursorUTF16Pos` and `selectionLengthUTF16`. */
  datatype Buffer = Buffer(text: seq<Unit>, cursor: int, selection: int)

  /** `min(max(0, x), hi)` */
  function Clamp(x: int, hi: int): (r: int)
    requires 0 <= hi
    ensures 0 <= r <= hi
    ensures 0 <= x <= hi ==> r == x
    ensures x < 0 ==> r == 0
    ensures x > hi ==> r == hi
  {
    Min(Max(0, x), hi)
  }

  /** The selection clamped to the text, as `insertAtCursor` and
      `deleteGrapheme` compute it. */
  function ClampedSelection(b: Buffer): (r: Range)
    ensures 0 <= r.location <= r.End() <= |b.text| && 0 <= r.length
    ensures r.location == |b.text| ==> r.length == 0
  {
    var loc := Clamp(b.cursor, |b.text|);
    Range(loc, Clamp(b.selection, |b.text| - loc))
  }

  /** A cursor inside the text is kept, and so is a selection that fits
      after it. */
  lemma ClampedSelectionKeeps(b: Buffer)
    ensures 0 <= b.cursor <= |b.text| ==> ClampedSelection(b).location == b.cursor
    ensures 0 <= b.selection <= |b.text| - ClampedSelection(b).location ==>
      ClampedSelection(b).length == b.selection
  {
  }

  /** The clamp `updateUIView` applies before showing the selection, with the
      operands of `min` and `max` in the other order. */
  function ViewSelection(maxLen: nat, location: int, length: int): (r: Range)
    ensures 0 <= r.location <= r.End() <= maxLen
  {
    var loc := Max(0, Min(location, maxLen));
    Range(loc, Max(0, Min(length, maxLen - loc)))
  }

  /** The text view shows exactly the selection the editing operations use. */
  lemma ViewClampAgrees(b: Buffer)
    ensures ViewSelection(|b.text|, b.cursor, b.selection) == ClampedSelection(b)
  {
    var n := |b.text|;
    var loc := Clamp(b.cursor, n);
    assert Max(0, Min(b.cursor, n)) == loc;
    assert Max(0, Min(b.selection, n - loc)) == Clamp(b.selection, n - loc);
  }

  /** `replacingCharacters(in:with:)` on the units of the text. */
  function Replaced(t: seq<Unit>, r: Range, s: seq<Unit>): (t': seq<Unit>)
    requires 0 <= r.location <= r.End() <= |t|
  {
    t[..r.location] + s + t[r.End()..]
  }

  /** `insertAtCursor` for replacement units `r`: the clamped selection is
      replaced by `r`, the cursor lands after `r`, nothing stays selected. */
  function Inserted(b: Buffer, r: seq<Unit>): (b': Buffer)
    ensures b'.selection == 0 && 0 <= b'.cursor <= |b'.text|
  {
    var rg := ClampedSelection(b);
    Buffer(Replaced(b.text, rg, r), rg.location + |r|, 0)
  }

  /** The three parts of a spliced sequence. */
  lemma SpliceParts<T>(a: seq<T>, m: seq<T>, c: seq<T>)
    ensures (a + m + c)[..|a|] == a
    ensures (a + m + c)[|a|..|a| + |m|] == m
    ensures (a + m + c)[..|a| + |m|] == a + m
    ensures (a + m + c)[|a| + |m|..] == c
  {
  }

  /** Splicing `m` into `a + l + c` after `l` is splicing `l + m` into
      `a + c`. */
  lemma SpliceTwice<T>(a: seq<T>, l: seq<T>, m: seq<T>, c: seq<T>)
    ensures (a + l + c)[..|a| + |l|] + m + (a + l + c)[|a| + |l|..] == a + (l + m) + c
  {
    SpliceParts(a, l, c);
  }

  /** What insertion keeps and what it adds: the units before the clamped
      selection, then `r` ending at the cursor, then the units after it. */
  lemma InsertedParts(b: Buffer, r: seq<Unit>)
    ensures Inserted(b, r).cursor == ClampedSelection(b).location + |r|
    ensures |Inserted(b, r).text| == |b.text| - ClampedSelection(b).length + |r|
    ensures Inserted(b, r).text[..ClampedSelection(b).location] == b.text[..ClampedSelection(b).location]
    ensures Inserted(b, r).text[ClampedSelection(b).location..Inserted(b, r).cursor] == r
    ensures Inserted(b, r).text[Inserted(b, r).cursor..] == b.text[ClampedSelection(b).End()..]
  {
    var rg := ClampedSelection(b);
    var a, c := b.text[..rg.location], b.text[rg.End()..];
    var t' := Inserted(b, r).text;
    assert t' == a + r + c;
    assert |a| == rg.location && Inserted(b, r).cursor == |a| + |r|;
    SpliceParts(a, r, c);
    assert t'[|a|..|a| + |r|] == r && t'[|a| + |r|..] == c;
  }

  /** Insertion with an empty selection at an offset inside the text. */
  lemma InsertedAt(t: seq<Unit>, k: int, r: seq<Unit>)
    requires 0 <= k <= |t|
    ensures Inserted(Buffer(t, k, 0), r) == Buffer(t[..k] + r + t[k..], k + |r|, 0)
  {
    assert ClampedSelection(Buffer(t, k, 0)) == Range(k, 0);
  }

  /** Insertion splices `r` in place of the clamped selection. */
  lemma InsertedSplits(b: Buffer, r: seq<Unit>)
    ensures var rg := ClampedSelection(b);
      Inserted(b, r) == Buffer(b.text[..rg.location] + r + b.text[rg.End()..], rg.location + |r|, 0)
  {
  }

  /** Two keys typed one after the other insert what one key carrying both
      texts would. */
  lemma InsertTwice(b: Buffer, r1: seq<Unit>, r2: seq<Unit>)
    ensures Inserted(Inserted(b, r1), r2) == Inserted(b, r1 + r2)
  {
    var rg := ClampedSelection(b);
    var a, c := b.text[..rg.location], b.text[rg.End()..];
    InsertedSplits(b, r1);
    InsertedSplits(b, r1 + r2);
    InsertedAt(a + r1 + c, |a| + |r1|, r2);
    SpliceTwice(a, r1, r2, c);
    assert |a| == rg.location;
    var lhs, rhs := Inserted(Inserted(b, r1), r2), Inserted(b, r1 + r2);
    assert lhs.text == rhs.text;
    assert lhs.cursor == rhs.cursor;
  }

  /** Deleting a selection: the clamped selection is removed and the cursor
      stays at its start. */
  function SelectionDeleted(b: Buffer): (b': Buffer)
    ensures b'.selection == 0 && 0 <= b'.cursor <= |b'.text| <= |b.text|
    ensures var rg := ClampedSelection(b);
      && b'.cursor == rg.location
      && b'.text[..rg.location] == b.text[..rg.location]
      && b'.text[rg.location..] == b.text[rg.End()..]
  {
    var rg := ClampedSelection(b);
    Buffer(Replaced(b.text, rg, []), rg.location, 0)
  }

  /** Typing over a selection is deleting it and typing at the cursor. */
  lemma TypeOverSelection(b: Buffer, r: seq<Unit>)
    ensures SelectionDeleted(b) == Inserted(b, [])
    ensures Inserted(SelectionDeleted(b), r) == Inserted(b, r)
  {
    var rg := ClampedSelection(b);
    var d := SelectionDeleted(b);
    var t := b.text;
    assert d.text == t[..rg.location] + t[rg.End()..];
    assert d.cursor == rg.location && d.selection == 0;
    var rd := ClampedSelection(d);
    assert rd == Range(rg.location, 0);
    assert d.text[..rg.location] == t[..rg.location];
    assert d.text[rg.location..] == t[rg.End()..];
    calc {
      Inserted(d, r).text;
      d.text[..rg.location] + r + d.text[rg.location..];
      t[..rg.location] + r + t[rg.End()..];
      Inserted(b, r).text;
    }
  }

  /** A deletion without a selection acts only when the cursor is past the
      start of a non-empty text. */
  predicate CanDeleteBack(b: Buffer)
  {
    b.cursor > 0 && |b.text| > 0
  }

  /** The composed character sequence holding the unit before the cursor:
      `rangeOfComposedCharacterSequence(at: safeCursor - 1)`. */
  function ClusterBefore(f: Foundation, b: Buffer): (r: Range)
    requires f.Valid() && CanDeleteBack(b)
    ensures 0 <= r.location < Clamp(b.cursor, |b.text|) <= r.End() <= |b.text|
  {
    f.composedRange(b.text, Clamp(b.cursor, |b.text|) - 1)
  }

  /** `deleteWholeCharacter` */
  function WholeCharDeleted(f: Foundation, b: Buffer): (b': Buffer)
    requires f.Valid()
    ensures !CanDeleteBack(b) ==> b' == b
    ensures CanDeleteBack(b) ==>
      && b'.selection == 0
      && 0 <= b'.cursor < Clamp(b.cursor, |b.text|)
      && b'.cursor <= |b'.text| < |b.text|
      && b'.text[..b'.cursor] == b.text[..b'.cursor]
    ensures CanDeleteBack(b) ==>
      && b'.cursor == ClusterBefore(f, b).location
      && b'.text[b'.cursor..] == b.text[ClusterBefore(f, b).End()..]
  {
    if CanDeleteBack(b) then
      var rg := ClusterBefore(f, b);
      Buffer(Replaced(b.text, rg, []), rg.location, 0)
    else b
  }

  /** The Devanagari signs and vowel signs smart deletion strips one at a
      time: U+0901..U+0903, U+093C and U+093E..U+094D. */
  const DevanagariMarks: set<char> := {
    '\U{0901}', '\U{0902}', '\U{0903}', '\U{093C}',
    '\U{093E}', '\U{093F}', '\U{0940}', '\U{0941}', '\U{0942}', '\U{0943}',
    '\U{0944}', '\U{0945}', '\U{0946}', '\U{0947}', '\U{0948}', '\U{0949}',
    '\U{094A}', '\U{094B}', '\U{094C}', '\U{094D}'}

  /** The last scalar of a Devanagari mark is one UTF-16 unit. */
  lemma MarkIsOneUnit(c: char)
    requires c in DevanagariMarks
    ensures c as int < 0x1_0000
  {
  }

  /** The units of a cluster without its last scalar are fewer than the
      cluster's units. */
  lemma ShortenedIsShorter(u: seq<Unit>)
    requires |Decode(u)| > 0
    ensures |Units(Decode(u)[..|Decode(u)| - 1])| < |u|
  {
    var c := Decode(u);
    var n := |c|;
    assert c == c[..n - 1] + [c[n - 1]];
    UnitsAppend(c[..n - 1], [c[n - 1]]);
    DecodeKeepsLength(u);
  }

  /** The cluster `u` with its last scalar removed, when that scalar is a
      mark and not the only scalar; nothing otherwise. For a cluster with no
      lone surrogate the result drops exactly the last unit. */
  function StrippedCluster(u: seq<Unit>): (r: Option<seq<Unit>>)
    ensures r.Some? <==> |Decode(u)| > 1 && Decode(u)[|Decode(u)| - 1] in DevanagariMarks
    ensures r.Some? ==> |r.value| < |u|
    ensures r.Some? && WellFormed(u) ==> r.value == u[..|u| - 1]
  {
    var scalars := Decode(u);
    if |scalars| > 1 && scalars[|scalars| - 1] in DevanagariMarks then
      var shortened := Units(scalars[..|scalars| - 1]);
      assert |shortened| < |u| by { ShortenedIsShorter(u); }
      assert WellFormed(u) ==> shortened == u[..|u| - 1] by {
        if WellFormed(u) {
          MarkIsOneUnit(scalars[|scalars| - 1]);
          DropLastBmp(u);
        }
      }
      Some(shortened)
    else None
  }

  /** Smart deletion strips a mark from the cluster before the cursor. */
  predicate StripsMark(f: Foundation, b: Buffer)
    requires f.Valid()
  {
    CanDeleteBack(b) &&
    var rg := ClusterBefore(f, b);
    StrippedCluster(b.text[rg.location..rg.End()]).Some?
  }

  /** `smartDeleteDevanagariCluster` */
  function SmartDeleted(f: Foundation, b: Buffer): (b': Buffer)
    requires f.Valid()
    ensures !CanDeleteBack(b) ==> b' == b
    ensures CanDeleteBack(b) ==>
      && b'.selection == 0
      && 0 <= b'.cursor <= |b'.text| < |b.text|
  {
    if CanDeleteBack(b) then
      var rg := ClusterBefore(f, b);
      match StrippedCluster(b.text[rg.location..rg.End()])
      case Some(shortened) =>
        Buffer(b.text[..rg.location] + shortened + b.text[rg.End()..], rg.location + |shortened|, 0)
      case None =>
        Buffer(Replaced(b.text, rg, []), rg.location, 0)
    else b
  }

  /** Smart deletion replaces the cluster before the cursor and nothing
      else, and leaves the cursor inside the cluster's old span. */
  lemma SmartDeleteKeepsSurroundings(f: Foundation, b: Buffer)
    requires f.Valid() && CanDeleteBack(b)
    ensures var rg := ClusterBefore(f, b); var b' := SmartDeleted(f, b);
      && rg.location <= b'.cursor < rg.End()
      && b'.text[..rg.location] == b.text[..rg.location]
      && b'.text[b'.cursor..] == b.text[rg.End()..]
  {
    var rg := ClusterBefore(f, b);
    var b' := SmartDeleted(f, b);
    match StrippedCluster(b.text[rg.location..rg.End()])
    case Some(shortened) =>
      assert b'.text == b.text[..rg.location] + shortened + b.text[rg.End()..];
      assert b'.cursor == rg.location + |shortened|;
    case None =>
      assert b'.text == b.text[..rg.location] + b.text[rg.End()..];
      assert b'.cursor == rg.location;
  }

  /** Without a trailing mark to strip, smart deletion deletes the whole
      cluster, as on any other language; in particular a cluster that is one
      lone mark is deleted whole. */
  lemma SmartDeleteFallsBack(f: Foundation, b: Buffer)
    requires f.Valid() && !StripsMark(f, b)
    ensures SmartDeleted(f, b) == WholeCharDeleted(f, b)
  {
  }

  lemma SpliceWithoutLast(t: seq<Unit>, lo: int, hi: int)
    requires 0 <= lo < hi <= |t|
    ensures t[..lo] + t[lo..hi][..hi - lo - 1] + t[hi..] == t[..hi - 1] + t[hi..]
  {
    assert t[..lo] + t[lo..hi][..hi - lo - 1] == t[..hi - 1];
  }

  /** Stripping a mark removes exactly one unit, the last of the cluster,
      and leaves the cursor where that unit was. */
  lemma StripsExactlyOneUnit(f: Foundation, b: Buffer)
    requires f.Valid() && StripsMark(f, b)
    requires var rg := ClusterBefore(f, b); WellFormed(b.text[rg.location..rg.End()])
    ensures var rg := ClusterBefore(f, b); var b' := SmartDeleted(f, b);
      && b'.text == b.text[..rg.End() - 1] + b.text[rg.End()..]
      && b'.cursor == rg.End() - 1
  {
    var rg := ClusterBefore(f, b);
    SpliceWithoutLast(b.text, rg.location, rg.End());
  }

  /** Every vowel sign on the Devanagari long-press popups is one scalar
      that smart deletion strips. */
  lemma MatrasAreMarks()
    ensures forall m :: m in LanguageKeys.DevanagariMatras ==> |m| == 1 && m[0] in DevanagariMarks
  {
  }

  /** The language codes that use smart deletion, compared exactly. */
  predicate UsesSmartDelete(langCode: string)
  {
    langCode == "hi" || langCode == "mr" || langCode == "sa"
  }

  /** `deleteGrapheme`: a selection is deleted whatever the language;
      otherwise nothing happens at the start or on an empty text; otherwise
      Hindi, Marathi and Sanskrit use smart deletion and every other code
      deletes the whole character before the cursor. */
  function Deleted(f: Foundation, langCode: string, b: Buffer): (b': Buffer)
    requires f.Valid()
    ensures b' == b <==> b.selection <= 0 && !CanDeleteBack(b)
    ensures b' != b ==> b'.selection == 0 && 0 <= b'.cursor <= |b'.text| <= |b.text|
  {
    if b.selection > 0 then SelectionDeleted(b)
    else if !CanDeleteBack(b) then b
    else if UsesSmartDelete(langCode) then SmartDeleted(f, b)
    else WholeCharDeleted(f, b)
  }

  /** With a selection, the delete key removes exactly the clamped selection,
      whatever the language. */
  lemma SelectionDeleteIgnoresLanguage(f: Foundation, lang1: string, lang2: string, b: Buffer)
    requires f.Valid() && b.selection > 0
    ensures Deleted(f, lang1, b) == Deleted(f, lang2, b)
    ensures var rg := ClampedSelection(b); var b' := Deleted(f, lang1, b);
      && b'.cursor == rg.location && b'.selection == 0
      && b'.text == b.text[..rg.location] + b.text[rg.End()..]
  {
    var rg := ClampedSelection(b);
    var b' := SelectionDeleted(b);
    assert b'.text == b'.text[..rg.location] + b'.text[rg.location..];
  }

  /** Smart deletion is only chosen for languages written in Devanagari; the
      check is exact, so "HI" deletes whole characters although its layout
      and script are Hindi's. */
  lemma SmartDeleteOnlyForDevanagari(f: Foundation, langCode: string)
    requires f.Valid()
    ensures UsesSmartDelete(langCode) ==> LanguageKeys.ScriptTypeFor(f, langCode) == LanguageKeys.Devanagari
    ensures !UsesSmartDelete("HI") && LanguageKeys.ScriptTypeFor(f, "HI") == LanguageKeys.Devanagari
  {
    if UsesSmartDelete(langCode) {
      LanguageKeys.LowerOfLowercase(f, langCode);
    }
    assert IsAscii("HI");
    assert AsciiLower("HI") == "hi";
  }

  /** Holding delete at the end of the text, as the auto-repeat does: each
      press shortens the text and keeps the cursor at its end, so the presses
      go on until the text is empty. */
  lemma DeleteAtEnd(f: Foundation, langCode: string, b: Buffer)
    requires f.Valid() && b.cursor >= |b.text| > 0 && b.selection <= 0
    ensures var b' := Deleted(f, langCode, b);
      b'.cursor == |b'.text| < |b.text| && b'.selection == 0
  {
    var rg := ClusterBefore(f, b);
    assert rg.End() == |b.text|;
    var b' := Deleted(f, langCode, b);
    if UsesSmartDelete(langCode) {
      SmartDeleteKeepsSurroundings(f, b);
      assert b'.text[b'.cursor..] == [];
    }
  }
}
