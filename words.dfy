/** Locating the word at the cursor: the run of non-whitespace units around
    a UTF-16 offset, as `currentWordAndRange` and the scan inside
    `updateSuggestions` find it, and the query sent for suggestions. */
module Words {
  import opened Utf16
  import opened Platform
  import TextEditing

  /** Where the run of non-whitespace units ending at `i` starts. */
  function RunStart(t: seq<Unit>, ws: Unit -> bool, i: int): (s: int)
    requires 0 <= i <= |t|
    ensures 0 <= s <= i
    ensures forall k :: s <= k < i ==> !ws(t[k])
    ensures s == 0 || ws(t[s - 1])
    decreases i
  {
    if i > 0 && !ws(t[i - 1]) then RunStart(t, ws, i - 1) else i
  }

  /** Where the run of non-whitespace units starting at `i` ends. */
  function RunEnd(t: seq<Unit>, ws: Unit -> bool, i: int): (e: int)
    requires 0 <= i <= |t|
    ensures i <= e <= |t|
    ensures forall k :: i <= k < e ==> !ws(t[k])
    ensures e == |t| || ws(t[e])
    decreases |t| - i
  {
    if i < |t| && !ws(t[i]) then RunEnd(t, ws, i + 1) else i
  }

  /** The run start is the only offset with its two properties. */
  lemma RunStartUnique(t: seq<Unit>, ws: Unit -> bool, i: int, s: int)
    requires 0 <= s <= i <= |t|
    requires forall k :: s <= k < i ==> !ws(t[k])
    requires s == 0 || ws(t[s - 1])
    ensures RunStart(t, ws, i) == s
  {
  }

  /** The run end is the only offset with its two properties. */
  lemma RunEndUnique(t: seq<Unit>, ws: Unit -> bool, i: int, e: int)
    requires 0 <= i <= e <= |t|
    requires forall k :: i <= k < e ==> !ws(t[k])
    requires e == |t| || ws(t[e])
    ensures RunEnd(t, ws, i) == e
  {
  }

  /** The range `currentWordAndRange` returns: none when the cursor lies
      past the text or both units beside it are whitespace (or absent);
      otherwise the largest run of non-whitespace units that touches it. */
  function WordRange(t: seq<Unit>, ws: Unit -> bool, cursor: int): (r: Option<Range>)
    requires 0 <= cursor
    ensures r.None? <==>
      cursor > |t| || ((cursor == 0 || ws(t[cursor - 1])) && (cursor == |t| || ws(t[cursor])))
    ensures r.Some? ==>
      && 0 <= r.value.location <= cursor <= r.value.End() <= |t|
      && r.value.length > 0
      && (forall k :: r.value.location <= k < r.value.End() ==> !ws(t[k]))
      && (r.value.location == 0 || ws(t[r.value.location - 1]))
      && (r.value.End() == |t| || ws(t[r.value.End()]))
  {
    if cursor > |t| then None
    else
      var start := RunStart(t, ws, cursor);
      var end := RunEnd(t, ws, cursor);
      if end > start then Some(Range(start, end - start)) else None
  }

  /** The two `while` loops of `currentWordAndRange`, stepping `start` left
      and `end` right over non-whitespace units. */
  method ScanWord(t: seq<Unit>, ws: Unit -> bool, cursor: int) returns (r: Option<Range>)
    requires 0 <= cursor
    ensures r == WordRange(t, ws, cursor)
  {
    if cursor > |t| {
      return None;
    }
    var start := cursor;
    while start > 0 && !ws(t[start - 1])
      invariant 0 <= start <= cursor
      invariant RunStart(t, ws, start) == RunStart(t, ws, cursor)
    {
      start := start - 1;
    }
    var end := cursor;
    while end < |t| && !ws(t[end])
      invariant cursor <= end <= |t|
      invariant RunEnd(t, ws, end) == RunEnd(t, ws, cursor)
    {
      end := end + 1;
    }
    if end <= start {
      return None;
    }
    r := Some(Range(start, end - start));
  }

  /** The units `substring(with:)` reads, as a Swift string. */
  function WordText(t: seq<Unit>, r: Range): string
    requires 0 <= r.location <= r.End() <= |t|
  {
    Decode(t[r.location..r.End()])
  }

  /** The word the suggestion scan finds: the same scan from the cursor
      clamped into the text, kept only when it has at least two characters. */
  function SuggestionQuery(f: Foundation, t: seq<Unit>, cursor: int): (q: Option<string>)
    ensures q.Some? ==> f.characterCount(q.value) >= 2
    ensures q.Some? ==> WordRange(t, f.isWhitespace, TextEditing.Clamp(cursor, |t|)).Some?
  {
    var c := TextEditing.Clamp(cursor, |t|);
    var start := RunStart(t, f.isWhitespace, c);
    var end := RunEnd(t, f.isWhitespace, c);
    if end <= start then None
    else
      var word := Decode(t[start..end]);
      if f.characterCount(word) >= 2 then Some(word) else None
  }

  /** The scan of `updateSuggestions`: the loops of `ScanWord` run from the
      clamped cursor, then the two-character guard. */
  method QueryWord(f: Foundation, t: seq<Unit>, cursor: int) returns (q: Option<string>)
    ensures q == SuggestionQuery(f, t, cursor)
  {
    var safeCursor := TextEditing.Clamp(cursor, |t|);
    var range := ScanWord(t, f.isWhitespace, safeCursor);
    if range.None? {
      return None;
    }
    var r := range.value;
    var cleaned := Decode(t[r.location..r.location + r.length]);
    if f.characterCount(cleaned) < 2 {
      return None;
    }
    q := Some(cleaned);
  }

  /** For a cursor inside the text, the suggestion scan and the word
      locator agree; past the end the suggestion scan looks at the last
      word while the locator finds none. */
  lemma ScansAgree(f: Foundation, t: seq<Unit>, cursor: int)
    requires 0 <= cursor
    ensures cursor <= |t| ==> (match WordRange(t, f.isWhitespace, cursor)
      case None => SuggestionQuery(f, t, cursor).None?
      case Some(r) =>
        SuggestionQuery(f, t, cursor) == (if f.characterCount(WordText(t, r)) >= 2 then Some(WordText(t, r)) else None))
    ensures cursor > |t| ==>
      (WordRange(t, f.isWhitespace, cursor).None? && SuggestionQuery(f, t, cursor) == SuggestionQuery(f, t, |t|))
  {
  }

  /** The suggester keeps the first eight results, or all of them when
      there are fewer. */
  function TopSuggestions(results: seq<string>): (r: seq<string>)
    ensures |r| == Min(8, |results|) && r == results[..|r|]
    ensures |results| <= 8 ==> r == results
  {
    results[..Min(8, |results|)]
  }

  /** A non-empty run of non-whitespace units bounded by whitespace or the
      ends of the text is the word found from its end. */
  lemma WordRangeOfRun(t: seq<Unit>, ws: Unit -> bool, lo: int, hi: int)
    requires 0 <= lo < hi <= |t|
    requires forall k :: lo <= k < hi ==> !ws(t[k])
    requires lo == 0 || ws(t[lo - 1])
    requires hi == |t| || ws(t[hi])
    ensures WordRange(t, ws, hi) == Some(Range(lo, hi - lo))
  {
    RunStartUnique(t, ws, hi, lo);
    RunEndUnique(t, ws, hi, hi);
  }

  /** Splicing a non-empty whitespace-free `w` between whitespace (or the
      ends of the text) makes `w` the word found from its end. */
  lemma SplicedRun(t: seq<Unit>, ws: Unit -> bool, lo: int, hi: int, w: seq<Unit>)
    requires 0 <= lo <= hi <= |t|
    requires lo == 0 || ws(t[lo - 1])
    requires hi == |t| || ws(t[hi])
    requires |w| > 0 && forall k :: 0 <= k < |w| ==> !ws(w[k])
    ensures WordRange(t[..lo] + w + t[hi..], ws, lo + |w|) == Some(Range(lo, |w|))
  {
    var a, c := t[..lo], t[hi..];
    var t' := a + w + c;
    forall k | lo <= k < lo + |w|
      ensures !ws(t'[k])
    {
      assert t'[k] == w[k - lo];
    }
    assert lo > 0 ==> t'[lo - 1] == t[lo - 1];
    assert lo + |w| < |t'| ==> t'[lo + |w|] == t[hi];
    WordRangeOfRun(t', ws, lo, lo + |w|);
  }

  /** Replacing the word at the cursor by a word `w` without whitespace
      makes `w` the word at the new cursor. */
  lemma ReplacedWordIsCurrent(t: seq<Unit>, ws: Unit -> bool, cursor: int, w: seq<Unit>)
    requires 0 <= cursor && WordRange(t, ws, cursor).Some?
    requires |w| > 0 && forall k :: 0 <= k < |w| ==> !ws(w[k])
    ensures var r := WordRange(t, ws, cursor).value;
      WordRange(TextEditing.Replaced(t, r, w), ws, r.location + |w|) == Some(Range(r.location, |w|))
  {
    var r := WordRange(t, ws, cursor).value;
    SplicedRun(t, ws, r.location, r.End(), w);
  }
}
