/** The letter keyboard: the flattened glyph list of a language, its paging
    into blocks of key slots, the block arrows, and the long-press popups. */
module Layout {
  import opened Platform
  import opened LanguageKeys

  const Row1Count := 10
  const Row2Count := 9
  const Row3EnglishCount := 7
  const Row3LocalCount := 5

  /** `slotsPerBlock`: letter keys on one page, 26 for English and 24 otherwise. */
  function SlotsPerBlock(langCode: string): (n: nat)
    ensures n == if langCode == "en" then 26 else 24
  {
    if langCode == "en" then Row1Count + Row2Count + Row3EnglishCount
    else Row1Count + Row2Count + Row3LocalCount
  }

  /** The fixed English letter order. */
  const EnglishLetters: seq<string> := [
    "q", "w", "e", "r", "t", "y", "u", "i", "o", "p",
    "a", "s", "d", "f", "g", "h", "j", "k", "l",
    "z", "x", "c", "v", "b", "n", "m"]

  /** The glyphs of one row. */
  function RowMains(row: seq<KeyModel>): (r: seq<string>)
    ensures |r| == |row| && forall j :: 0 <= j < |row| ==> r[j] == row[j].main
  {
    seq(|row|, j requires 0 <= j < |row| => row[j].main)
  }

  /** The glyphs of all rows, row after row. */
  function Mains(rows: seq<seq<KeyModel>>): seq<string>
  {
    if rows == [] then [] else RowMains(rows[0]) + Mains(rows[1..])
  }

  /** What `flattenLanguageKeys` returns. */
  function FlatLayout(f: Foundation, langCode: string): seq<string>
  {
    if langCode == "en" then EnglishLetters else Mains(KeysForLang(f, langCode))
  }

  lemma {:induction false} MainsAppend(a: seq<seq<KeyModel>>, b: seq<seq<KeyModel>>)
    ensures Mains(a + b) == Mains(a) + Mains(b)
  {
    if a == [] {
      assert a + b == b;
    } else {
      assert (a + b)[1..] == a[1..] + b;
      MainsAppend(a[1..], b);
    }
  }

  /** `flattenLanguageKeys`: the fixed English letters for "en", otherwise the
      `main` of every key of the language's table, row by row. */
  method FlattenLanguageKeys(f: Foundation, langCode: string) returns (r: seq<string>)
    ensures r == FlatLayout(f, langCode)
  {
    if langCode == "en" {
      return EnglishLetters;
    }
    r := AppendMains(KeysForLang(f, langCode));
  }

  /** The nested loop of `flattenLanguageKeys`: every key's `main`, row by row. */
  method AppendMains(rows: seq<seq<KeyModel>>) returns (r: seq<string>)
    ensures r == Mains(rows)
  {
    r := [];
    for i := 0 to |rows|
      invariant r == Mains(rows[..i])
    {
      var row := rows[i];
      ghost var before := r;
      for j := 0 to |row|
        invariant r == before + RowMains(row[..j])
      {
        assert RowMains(row[..j + 1]) == RowMains(row[..j]) + [row[j].main];
        r := r + [row[j].main];
      }
      assert row[..|row|] == row;
      assert rows[..i + 1] == rows[..i] + [row];
      MainsAppend(rows[..i], [row]);
      assert Mains([row]) == RowMains(row) + Mains([]);
    }
    assert rows[..|rows|] == rows;
  }

  /** Consecutive slices of `xs` of `n` glyphs each; the last may be shorter. */
  function Chunks(xs: seq<string>, n: nat): seq<seq<string>>
    requires n > 0
    decreases |xs|
  {
    if xs == [] then [] else [xs[..Min(n, |xs|)]] + Chunks(xs[Min(n, |xs|)..], n)
  }

  function Concat(bs: seq<seq<string>>): seq<string>
  {
    if bs == [] then [] else bs[0] + Concat(bs[1..])
  }

  function CeilDiv(a: nat, b: nat): nat
    requires b > 0
  {
    (a + b - 1) / b
  }

  /** Euclidean division is determined by quotient and remainder. */
  lemma DivModUnique(a: int, n: int, q: int, r: int)
    requires n > 0 && 0 <= r < n && a == q * n + r
    ensures a / n == q && a % n == r
  {
    var d := a / n - q;
    assert d * n == r - a % n;
    MulAwayFromZero(d, n);
  }

  lemma MulAwayFromZero(d: int, n: int)
    requires n > 0
    ensures d == 0 || d * n >= n || d * n <= -n
  {
    if d > 0 {
      MulAtLeast(d, n);
    } else if d < 0 {
      MulAtLeast(-d, n);
      assert d * n == -((-d) * n);
    }
  }

  lemma {:induction false} MulAtLeast(d: int, n: int)
    requires d >= 1 && n > 0
    ensures d * n >= n
    decreases d
  {
    if d > 1 {
      MulAtLeast(d - 1, n);
      assert d * n == (d - 1) * n + n;
    }
  }

  lemma CeilDivStep(a: nat, n: nat)
    requires 0 < n
    ensures a <= n && a > 0 ==> CeilDiv(a, n) == 1
    ensures a > n ==> CeilDiv(a, n) == CeilDiv(a - n, n) + 1
  {
    if 0 < a <= n {
      DivModUnique(a + n - 1, n, 1, a - 1);
    }
    if a > n {
      var x := a - n + n - 1;
      DivModUnique(x, n, x / n, x % n);
      DivModUnique(x + n, n, x / n + 1, x % n);
    }
  }

  /** `totalBlocks` in `moveBlock`: at least one, else the rounded-up quotient. */
  function TotalBlocks(count: nat, slots: nat): (t: nat)
    requires slots > 0
    ensures t >= 1
  {
    Max(1, CeilDiv(count, slots))
  }

  /** Slicing loses and reorders nothing. */
  lemma {:induction false} ChunksConcat(xs: seq<string>, n: nat)
    requires n > 0
    ensures Concat(Chunks(xs, n)) == xs
    decreases |xs|
  {
    if xs != [] {
      var k := Min(n, |xs|);
      ChunksConcat(xs[k..], n);
      assert Chunks(xs, n)[1..] == Chunks(xs[k..], n);
      assert xs == xs[..k] + xs[k..];
    }
  }

  /** There are ceil(|xs| / n) slices; each is non-empty and holds at most `n`
      glyphs, and all but the last hold exactly `n`. */
  lemma {:induction false} ChunksShape(xs: seq<string>, n: nat)
    requires n > 0
    ensures |Chunks(xs, n)| == CeilDiv(|xs|, n)
    ensures forall b :: 0 <= b < |Chunks(xs, n)| ==> 0 < |Chunks(xs, n)[b]| <= n
    ensures forall b :: 0 <= b < |Chunks(xs, n)| - 1 ==> |Chunks(xs, n)[b]| == n
    decreases |xs|
  {
    if xs != [] {
      var k := Min(n, |xs|);
      var rest := Chunks(xs[k..], n);
      ChunksShape(xs[k..], n);
      assert Chunks(xs, n) == [xs[..k]] + rest;
      CeilDivStep(|xs|, n);
      if |xs| <= n {
        assert xs[k..] == [];
      }
    }
  }

  /** Where slice `p` starts, counted without multiplying. */
  function Offset(p: nat, n: nat): nat
  {
    if p == 0 then 0 else Offset(p - 1, n) + n
  }

  lemma {:induction false} OffsetIsProduct(p: nat, n: nat)
    ensures Offset(p, n) == p * n
  {
    if p > 0 {
      OffsetIsProduct(p - 1, n);
      assert p * n == (p - 1) * n + n;
    }
  }

  /** A layout longer than a page starts with a full page. */
  lemma ChunksCons(xs: seq<string>, n: nat)
    requires 0 < n < |xs|
    ensures Chunks(xs, n) == [xs[..n]] + Chunks(xs[n..], n)
  {
  }

  /** A layout that fits on a page is one page. */
  lemma ChunksShort(xs: seq<string>, n: nat)
    requires 0 < |xs| <= n
    ensures Chunks(xs, n) == [xs]
  {
    assert Min(n, |xs|) == |xs|;
    assert xs[..|xs|] == xs;
    assert Chunks(xs[|xs|..], n) == [];
  }

  lemma DropThenSlice<T>(xs: seq<T>, n: nat, m: nat, e: nat)
    requires n <= |xs| && m <= e <= |xs| - n
    ensures xs[n..][m..e] == xs[m + n..e + n]
  {
  }

  lemma {:induction false} ChunkAtOffset(xs: seq<string>, n: nat, p: nat)
    requires n > 0 && p < |Chunks(xs, n)|
    ensures Offset(p, n) < |xs|
    ensures Chunks(xs, n)[p] == xs[Offset(p, n) .. Min(Offset(p, n) + n, |xs|)]
    decreases p
  {
    if |xs| <= n {
      ChunksShort(xs, n);
    } else {
      ChunksCons(xs, n);
      if p > 0 {
        var m := Offset(p - 1, n);
        ChunkAtOffset(xs[n..], n, p - 1);
        DropThenSlice(xs, n, m, Min(m + n, |xs| - n));
      }
    }
  }

  /** Slice `p` starts at glyph `p * n`. */
  lemma ChunkAt(xs: seq<string>, n: nat, p: nat)
    requires n > 0 && p < |Chunks(xs, n)|
    ensures p * n < |xs|
    ensures Chunks(xs, n)[p] == xs[p * n .. Min(p * n + n, |xs|)]
  {
    ChunkAtOffset(xs, n, p);
    OffsetIsProduct(p, n);
  }

  /** The page count of a language's layout, as `moveBlock` computes it. */
  function PageCount(f: Foundation, langCode: string): (n: nat)
    ensures n >= 1
  {
    TotalBlocks(|FlatLayout(f, langCode)|, SlotsPerBlock(langCode))
  }

  /** The page count computation of `moveBlock`: flatten, then divide by the
      page size rounding up, at least one page. */
  method CountPages(f: Foundation, langCode: string) returns (n: nat)
    ensures n == PageCount(f, langCode)
  {
    var flat := FlattenLanguageKeys(f, langCode);
    n := Max(1, CeilDiv(|flat|, SlotsPerBlock(langCode)));
  }

  /** The slicing loop of `letters`: pages of `n` glyphs taken from the
      front, the last one possibly shorter. */
  method SliceIntoPages(flat: seq<string>, n: nat) returns (pages: seq<seq<string>>)
    requires n > 0
    ensures pages == Chunks(flat, n)
  {
    pages := [];
    var i := 0;
    while i < |flat|
      invariant 0 <= i
      invariant pages + Chunks(flat[Min(i, |flat|)..], n) == Chunks(flat, n)
      decreases |flat| - i
    {
      var end := Min(i + n, |flat|);
      PagesStep(flat, n, i, pages);
      pages := pages + [flat[i..end]];
      i := i + n;
    }
    assert flat[|flat|..] == [];
  }

  /** The slicing loop's invariant survives one slice. */
  lemma PagesStep(flat: seq<string>, n: nat, i: nat, pages: seq<seq<string>>)
    requires n > 0 && i < |flat|
    requires pages + Chunks(flat[i..], n) == Chunks(flat, n)
    ensures (pages + [flat[i..Min(i + n, |flat|)]]) + Chunks(flat[Min(i + n, |flat|)..], n) == Chunks(flat, n)
  {
    ChunksFrom(flat, n, i);
  }

  /** One step of the slicing loop: the slices from glyph `i` are the slice
      at `i` followed by the slices from where it ends. */
  lemma ChunksFrom(xs: seq<string>, n: nat, i: nat)
    requires n > 0 && i < |xs|
    ensures Chunks(xs[i..], n) == [xs[i..Min(i + n, |xs|)]] + Chunks(xs[Min(i + n, |xs|)..], n)
  {
    var end := Min(i + n, |xs|);
    assert xs[i..][..Min(n, |xs| - i)] == xs[i..end];
    assert xs[i..][Min(n, |xs| - i)..] == xs[end..];
  }

  /** The letter pages of `letters`: English shows its first 26 glyphs on one
      page; other languages are sliced into pages of 24, at least one page. */
  method LetterBlocks(langCode: string, flat: seq<string>) returns (blocks: seq<seq<string>>)
    ensures langCode == "en" ==> blocks == [flat[..Min(26, |flat|)]]
    ensures langCode != "en" ==> blocks == if flat == [] then [[]] else Chunks(flat, 24)
    ensures langCode != "en" ==> |blocks| == TotalBlocks(|flat|, SlotsPerBlock(langCode))
    ensures langCode != "en" ==> Concat(blocks) == flat
    ensures forall b :: 0 <= b < |blocks| ==> |blocks[b]| <= SlotsPerBlock(langCode)
    ensures forall b :: 0 <= b < |blocks| - 1 ==> |blocks[b]| == SlotsPerBlock(langCode)
  {
    var slots := SlotsPerBlock(langCode);
    if langCode == "en" {
      blocks := [flat[..Min(slots, |flat|)]];
      return;
    }
    var tmp := SliceIntoPages(flat, slots);
    blocks := if tmp == [] then [[]] else tmp;
    ChunksShape(flat, slots);
    ChunksConcat(flat, slots);
  }

  /** `Array[safe:]`: the element at `i` if `i` is an index, otherwise nothing. */
  function SafeAt<T>(xs: seq<T>, i: int): (r: Option<T>)
    ensures r.Some? <==> 0 <= i < |xs|
    ensures r.Some? ==> r.value == xs[i]
  {
    if 0 <= i < |xs| then Some(xs[i]) else None
  }

  /** The title shown on key slot `i` of a page: `block[safe: i] ?? ""`. */
  function SlotTitle(block: seq<string>, i: int): (title: string)
    ensures 0 <= i < |block| ==> title == block[i]
    ensures !(0 <= i < |block|) ==> title == ""
  {
    match SafeAt(block, i)
    case Some(t) => t
    case None => ""
  }

  /** The block index the page shows: English always shows page 0. */
  function ActiveBlock(langCode: string, blockIndex: int, blocks: seq<seq<string>>): (shown: seq<string>)
    ensures langCode == "en" ==> shown == if |blocks| > 0 then blocks[0] else []
    ensures langCode != "en" && 0 <= blockIndex < |blocks| ==> shown == blocks[blockIndex]
    ensures langCode != "en" && !(0 <= blockIndex < |blocks|) ==> shown == []
  {
    var active := if langCode == "en" then 0 else blockIndex;
    match SafeAt(blocks, active)
    case Some(b) => b
    case None => []
  }

  /** No glyph of a paged layout is lost: glyph `k` is on page `k / 24`, in
      slot `k % 24`, and that page is the one shown for block index `k / 24`. */
  lemma EveryGlyphHasAKey(langCode: string, flat: seq<string>, k: nat)
    requires langCode != "en" && k < |flat|
    ensures var blocks := Chunks(flat, 24);
      && k / 24 < |blocks|
      && k / 24 < TotalBlocks(|flat|, SlotsPerBlock(langCode))
      && SlotTitle(ActiveBlock(langCode, k / 24, blocks), k % 24) == flat[k]
  {
    var p := k / 24;
    ChunksShape(flat, 24);
    assert p * 24 <= k < p * 24 + 24;
    assert p < CeilDiv(|flat|, 24);
    ChunkAt(flat, 24, p);
  }

  /** On a paged layout every block index below the page count names a
      page, so the `?? []` fallback of `letters` is never taken. */
  lemma {:induction false} ShownPageExists(langCode: string, flat: seq<string>, blockIndex: int)
    requires langCode != "en"
    requires 0 <= blockIndex < TotalBlocks(|flat|, SlotsPerBlock(langCode))
    ensures flat == [] ==> ActiveBlock(langCode, blockIndex, [[]]) == []
    ensures flat != [] ==>
      && blockIndex < |Chunks(flat, 24)|
      && ActiveBlock(langCode, blockIndex, Chunks(flat, 24)) == Chunks(flat, 24)[blockIndex]
      && 0 < |Chunks(flat, 24)[blockIndex]| <= 24
  {
    if flat != [] {
      ChunksShape(flat, 24);
    }
  }

  /** Swift's `%`, which truncates toward zero. */
  function SwiftRem(a: int, b: int): (r: int)
    requires b > 0
    ensures a >= 0 ==> r == a % b
  {
    if a >= 0 then a % b else -((-a) % b)
  }

  /** The new block index after an arrow press (`moveBlock`). */
  function MovedBlockIndex(i: int, total: int, forward: bool): (j: int)
    ensures total <= 1 ==> j == i
    ensures total > 1 && 0 <= i < total ==> 0 <= j < total
    ensures total > 1 && 0 <= i < total && forward ==> j == if i == total - 1 then 0 else i + 1
    ensures total > 1 && 0 <= i < total && !forward ==> j == if i == 0 then total - 1 else i - 1
  {
    if total <= 1 then i
    else if forward then
      var a := i + 1;
      if 0 <= i < total then
        if a == total then DivModUnique(a, total, 1, 0); SwiftRem(a, total)
        else DivModUnique(a, total, 0, a); SwiftRem(a, total)
      else SwiftRem(a, total)
    else
      var a := i - 1 + total;
      if 0 <= i < total then
        if i == 0 then DivModUnique(a, total, 0, a); SwiftRem(a, total)
        else DivModUnique(a, total, 1, i - 1); SwiftRem(a, total)
      else SwiftRem(a, total)
  }

  /** The arrows undo each other. */
  lemma BlockArrowsInverse(i: int, total: int)
    requires 0 <= i < total
    ensures MovedBlockIndex(MovedBlockIndex(i, total, true), total, false) == i
    ensures MovedBlockIndex(MovedBlockIndex(i, total, false), total, true) == i
  {
  }

  /** `row.first(where:)` in `popupVariants`: the first key of a row
      whose `main` is `title`. */
  function FirstWhere(row: seq<KeyModel>, title: string): (r: Option<nat>)
    ensures r.None? <==> forall j :: 0 <= j < |row| ==> row[j].main != title
    ensures r.Some? ==> r.value < |row| && row[r.value].main == title
    ensures r.Some? ==> forall j :: 0 <= j < r.value ==> row[j].main != title
  {
    if row == [] then None
    else if row[0].main == title then Some(0)
    else match FirstWhere(row[1..], title)
      case None => None
      case Some(j) => Some(j + 1)
  }

  /** Key `(i, j)` is the first key, reading row by row, whose glyph is `title`. */
  ghost predicate IsFirstMatch(rows: seq<seq<KeyModel>>, title: string, i: int, j: int)
  {
    && 0 <= i < |rows| && 0 <= j < |rows[i]| && rows[i][j].main == title
    && (forall i', j' :: 0 <= i' < i && 0 <= j' < |rows[i']| ==> rows[i'][j'].main != title)
    && (forall j' :: 0 <= j' < j ==> rows[i][j'].main != title)
  }

  /** `popupVariants`: the variants of the first key whose glyph is the
      title, or none when no key has that glyph. */
  function PopupVariants(rows: seq<seq<KeyModel>>, title: string): (r: seq<string>)
    ensures (forall i, j :: 0 <= i < |rows| && 0 <= j < |rows[i]| ==> rows[i][j].main != title) ==> r == []
    ensures forall i, j :: IsFirstMatch(rows, title, i, j) ==> r == rows[i][j].popup
  {
    if rows == [] then []
    else match FirstWhere(rows[0], title)
      case Some(j) => rows[0][j].popup
      case None =>
        var r := PopupVariants(rows[1..], title);
        assert forall i, j :: IsFirstMatch(rows, title, i, j) ==> IsFirstMatch(rows[1..], title, i - 1, j);
        r
  }

  /** The English table attaches its accented variants to the lower-case
      glyphs: "e" has four, and no key is titled "E". */
  lemma EnglishPopupsOnLowerCase()
    ensures PopupVariants(EnglishKeys, "e") == ["È", "É", "Ê", "Ë"]
    ensures PopupVariants(EnglishKeys, "E") == []
  {
    assert IsFirstMatch(EnglishKeys, "e", 0, 2);
    forall i, j | 0 <= i < |EnglishKeys| && 0 <= j < |EnglishKeys[i]|
      ensures EnglishKeys[i][j].main != "E"
    {
      EnglishRowLacksCapitalE(i);
    }
  }

  lemma EnglishRowLacksCapitalE(i: nat)
    requires i < |EnglishKeys|
    ensures forall j :: 0 <= j < |EnglishKeys[i]| ==> EnglishKeys[i][j].main != "E"
  {
    var row := EnglishKeys[i];
    forall j | 0 <= j < |row| ensures row[j].main != "E" {
      var m := row[j].main;
      assert |m| == 1 ==> m[0] != 'E';
    }
  }
}
