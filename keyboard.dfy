/** The editor with its keyboard: one object holding the text, the cursor
    and selection, the suggestion bar, the letter page and the shift state,
    and the operations the keys perform on them. */
module KeyboardEditor {
  import opened Utf16
  import opened Platform
  import opened LanguageKeys
  import opened Layout
  import opened TextEditing
  import opened Words

  /** `displayTitle(for:)`: English letters are shown, and typed, in upper
      case while shift or caps lock is on; other languages ignore shift. */
  function DisplayTitle(f: Foundation, langCode: string, shiftOn: bool, capsLock: bool, s: string): (title: string)
    ensures langCode != "en" ==> title == s
    ensures !shiftOn && !capsLock ==> title == s
  {
    if langCode == "en" && (shiftOn || capsLock) then f.uppercased(s) else s
  }

  lemma {:induction false} AsciiUpperTwice(s: string)
    requires IsAscii(s)
    ensures IsAscii(AsciiUpper(s)) && AsciiUpper(AsciiUpper(s)) == AsciiUpper(s)
  {
    var u := AsciiUpper(s);
    assert forall i :: 0 <= i < |s| ==> UpperChar(UpperChar(s[i])) == UpperChar(s[i]);
    assert AsciiUpper(u) == u;
  }

  /** A letter key passes on the title it shows and the insertion maps it
      once more; on ASCII keys that second mapping changes nothing, so the
      text receives exactly what the key showed. Only ASCII letters change,
      and only on the English keyboard with shift or caps lock on. */
  lemma ShownTitleIsTyped(f: Foundation, langCode: string, shiftOn: bool, capsLock: bool, s: string)
    requires f.Valid() && IsAscii(s)
    ensures var shown := DisplayTitle(f, langCode, shiftOn, capsLock, s);
      && DisplayTitle(f, langCode, shiftOn, capsLock, shown) == shown
      && shown == (if langCode == "en" && (shiftOn || capsLock) then AsciiUpper(s) else s)
  {
    AsciiUpperTwice(s);
  }

  /** Under shift or caps lock the English "e" key shows "E". */
  lemma ShiftedTitle(f: Foundation, shiftOn: bool, capsLock: bool)
    requires f.Valid() && (shiftOn || capsLock)
    ensures DisplayTitle(f, "en", shiftOn, capsLock, "e") == "E"
    ensures DisplayTitle(f, "en", false, false, "e") == "e"
  {
    assert AsciiUpper("e")[0] == 'E';
  }

  /** Long-press variants are looked up by the title the key shows, but the
      English table (the table "en" routes to) attaches them to lower-case
      glyphs: under shift or caps lock the "e" key is titled "E" and offers
      none of the four variants it offers unshifted. */
  lemma ShiftHidesEnglishPopups(f: Foundation, shiftOn: bool, capsLock: bool)
    requires f.Valid() && (shiftOn || capsLock)
    ensures DisplayTitle(f, "en", shiftOn, capsLock, "e") == "E"
    ensures PopupVariants(EnglishKeys, DisplayTitle(f, "en", shiftOn, capsLock, "e")) == []
    ensures PopupVariants(EnglishKeys, DisplayTitle(f, "en", false, false, "e")) != []
  {
    ShiftedTitle(f, shiftOn, capsLock);
    EnglishPopupsOnLowerCase();
  }

  /** What one key press does to the text, cursor and selection
      (`handleKey`): the key "DEL" deletes, any other key inserts its
      displayed title. */
  function KeyPressed(f: Foundation, langCode: string, shiftOn: bool, capsLock: bool, b: Buffer, key: string): (b': Buffer)
    requires f.Valid()
    ensures key != "DEL" ==> b'.selection == 0 && 0 <= b'.cursor <= |b'.text|
  {
    if key == "DEL" then Deleted(f, langCode, b)
    else Inserted(b, Units(DisplayTitle(f, langCode, shiftOn, capsLock, key)))
  }

  /** The Tamil and Urdu letter tables end with a key labelled "DEL", and
      pressing it deletes instead of typing the label. */
  lemma DelKeysDelete(f: Foundation, langCode: string, shiftOn: bool, capsLock: bool, b: Buffer)
    requires f.Valid()
    ensures TamilKeys[|TamilKeys| - 1] == [KeyModel("DEL")]
    ensures UrduKeys[|UrduKeys| - 1] == [KeyModel("DEL")]
    ensures KeyPressed(f, langCode, shiftOn, capsLock, b, "DEL") == Deleted(f, langCode, b)
  {
  }

  /** `shiftOn` and `capsLock` together. */
  datatype ShiftState = ShiftState(shiftOn: bool, capsLock: bool)

  /** `toggleShift`: on the English keyboard off -> shift -> caps lock -> off;
      elsewhere nothing changes. */
  function NextShift(langCode: string, s: ShiftState): (n: ShiftState)
    ensures langCode != "en" ==> n == s
    ensures langCode == "en" ==> !(n.shiftOn && n.capsLock)
  {
    if langCode != "en" then s
    else if s.capsLock then ShiftState(false, false)
    else if s.shiftOn then ShiftState(false, true)
    else ShiftState(true, false)
  }

  /** Three presses of shift bring the English keyboard back to where it
      was, through the other two states. */
  lemma ShiftCycles(s: ShiftState)
    requires !(s.shiftOn && s.capsLock)
    ensures NextShift("en", NextShift("en", NextShift("en", s))) == s
    ensures NextShift("en", s) != s && NextShift("en", NextShift("en", s)) != s
  {
  }

  class Keyboard {
    const langCode: string
    const platform: Foundation
    /** `text`, as `NSString` units */
    var text: seq<Unit>
    /** `cursorUTF16Pos` */
    var cursor: int
    /** `selectionLengthUTF16` */
    var selection: int
    var suggestions: seq<string>
    var blockIndex: int
    var shiftOn: bool
    var capsLock: bool
    /** How many letter pages the layout of `langCode` has. */
    ghost const pages: nat

    /** The block index names a page, the two shift flags are never both
        on, and the cursor, which the text view only sets to offsets, is not
        negative. */
    ghost predicate Valid()
      reads this
    {
      && platform.Valid()
      && 0 <= cursor
      && 0 <= blockIndex < pages
      && !(shiftOn && capsLock)
    }

    /** `pages` is the page count of the layout; it reads only constants, so
        once the constructor establishes it, it holds for good. */
    ghost predicate PagesMatchLayout()
    {
      pages == PageCount(platform, langCode)
    }

    function Snapshot(): Buffer
      reads this
    {
      Buffer(text, cursor, selection)
    }

    function Shift(): ShiftState
      reads this
    {
      ShiftState(shiftOn, capsLock)
    }

    /** A fresh editor on `text`: cursor at the start, nothing selected, no
        suggestions, first page, shift off. */
    constructor (langCode: string, platform: Foundation, text: seq<Unit>)
      requires platform.Valid()
      ensures Valid() && PagesMatchLayout()
      ensures this.langCode == langCode && this.platform == platform
      ensures Snapshot() == Buffer(text, 0, 0) && suggestions == []
      ensures blockIndex == 0 && Shift() == ShiftState(false, false)
    {
      this.langCode := langCode;
      this.platform := platform;
      this.text := text;
      cursor := 0;
      selection := 0;
      suggestions := [];
      blockIndex := 0;
      shiftOn := false;
      capsLock := false;
      pages := PageCount(platform, langCode);
    }

    /** `insertAtCursor` */
    method InsertAtCursor(s: string)
      requires Valid()
      modifies this`text, this`cursor, this`selection
      ensures Valid()
      ensures Snapshot() == Inserted(old(Snapshot()), Units(DisplayTitle(platform, langCode, shiftOn, capsLock, s)))
    {
      var total := |text|;
      var safeLoc := Min(Max(0, cursor), total);
      var safeLen := Min(Max(0, selection), total - safeLoc);
      var replacement := if langCode == "en" && (shiftOn || capsLock) then platform.uppercased(s) else s;
      var units := Units(replacement);
      text := text[..safeLoc] + units + text[safeLoc + safeLen..];
      cursor := safeLoc + |units|;
      selection := 0;
    }

    /** `deleteWholeCharacter` */
    method DeleteWholeCharacter()
      requires Valid()
      modifies this`text, this`cursor, this`selection
      ensures Valid()
      ensures Snapshot() == WholeCharDeleted(platform, old(Snapshot()))
    {
      var total := |text|;
      if !(cursor > 0 && total > 0) {
        return;
      }
      var safeCursor := Min(Max(0, cursor), total);
      var charRange := platform.composedRange(text, safeCursor - 1);
      text := text[..charRange.location] + text[charRange.End()..];
      cursor := charRange.location;
      selection := 0;
    }

    /** `smartDeleteDevanagariCluster` */
    method SmartDeleteDevanagariCluster()
      requires Valid()
      modifies this`text, this`cursor, this`selection
      ensures Valid()
      ensures Snapshot() == SmartDeleted(platform, old(Snapshot()))
    {
      ghost var b := Snapshot();
      var total := |text|;
      if !(cursor > 0 && total > 0) {
        return;
      }
      var safeCursor := Min(Max(0, cursor), total);
      var charRange := platform.composedRange(text, safeCursor - 1);
      assert charRange == ClusterBefore(platform, b);
      var cluster := text[charRange.location..charRange.End()];
      var scalars := Decode(cluster);
      if |scalars| > 1 && scalars[|scalars| - 1] in DevanagariMarks {
        var replacementCluster := Units(scalars[..|scalars| - 1]);
        assert StrippedCluster(cluster) == Some(replacementCluster);
        text := text[..charRange.location] + replacementCluster + text[charRange.End()..];
        cursor := charRange.location + |replacementCluster|;
        selection := 0;
        assert text == SmartDeleted(platform, b).text && cursor == SmartDeleted(platform, b).cursor;
      } else {
        assert StrippedCluster(cluster).None?;
        text := text[..charRange.location] + text[charRange.End()..];
        cursor := charRange.location;
        selection := 0;
        assert text == SmartDeleted(platform, b).text && cursor == SmartDeleted(platform, b).cursor;
      }
    }

    /** The selection branch of `deleteGrapheme`: the clamped selection is
        removed. */
    method DeleteSelection()
      requires Valid()
      modifies this`text, this`cursor, this`selection
      ensures Valid()
      ensures Snapshot() == SelectionDeleted(old(Snapshot()))
    {
      ghost var b := Snapshot();
      var total := |text|;
      var loc := Min(Max(0, cursor), total);
      var len := Min(Max(0, selection), total - loc);
      assert Range(loc, len) == ClampedSelection(b);
      text := text[..loc] + text[loc + len..];
      cursor := loc;
      selection := 0;
      assert text == SelectionDeleted(b).text && cursor == SelectionDeleted(b).cursor;
    }

    /** `deleteGrapheme` */
    method DeleteGrapheme()
      requires Valid()
      modifies this`text, this`cursor, this`selection
      ensures Valid()
      ensures Snapshot() == Deleted(platform, langCode, old(Snapshot()))
    {
      ghost var b := Snapshot();
      if selection > 0 {
        assert Deleted(platform, langCode, b) == SelectionDeleted(b);
        DeleteSelection();
        return;
      }
      if !(cursor > 0 && |text| > 0) {
        assert Deleted(platform, langCode, b) == b;
        return;
      }
      if langCode == "hi" || langCode == "mr" || langCode == "sa" {
        assert Deleted(platform, langCode, b) == SmartDeleted(platform, b);
        SmartDeleteDevanagariCluster();
      } else {
        assert Deleted(platform, langCode, b) == WholeCharDeleted(platform, b);
        DeleteWholeCharacter();
      }
    }

    /** `handleKey`; the shift state is left as it was. */
    method HandleKey(s: string)
      requires Valid()
      modifies this`text, this`cursor, this`selection
      ensures Valid()
      ensures Snapshot() == KeyPressed(platform, langCode, shiftOn, capsLock, old(Snapshot()), s)
      ensures Shift() == old(Shift())
    {
      if s == "DEL" {
        DeleteGrapheme();
      } else {
        InsertAtCursor(s);
      }
    }

    /** `currentWordAndRange`: the word touching the cursor and its range. */
    method CurrentWordAndRange() returns (word: Option<string>, range: Option<Range>)
      requires Valid()
      ensures range == WordRange(text, platform.isWhitespace, cursor)
      ensures range.None? ==> word.None?
      ensures range.Some? ==> word == Some(WordText(text, range.value))
    {
      range := ScanWord(text, platform.isWhitespace, cursor);
      match range
      case None =>
        word := None;
      case Some(r) =>
        word := Some(Decode(text[r.location..r.location + r.length]));
    }

    /** `replaceCurrentWord(with:)`: the word at the cursor becomes `newWord`,
        the cursor goes after it and the suggestions are cleared; with no
        word at the cursor nothing changes. */
    method ReplaceCurrentWord(newWord: string)
      requires Valid()
      modifies this`text, this`cursor, this`selection, this`suggestions
      ensures Valid()
      ensures old(WordRange(text, platform.isWhitespace, cursor)).None? ==>
        && text == old(text) && cursor == old(cursor) && selection == old(selection)
        && suggestions == old(suggestions)
      ensures old(WordRange(text, platform.isWhitespace, cursor)).Some? ==>
        var r := old(WordRange(text, platform.isWhitespace, cursor)).value;
        && text == Replaced(old(text), r, Units(newWord))
        && cursor == r.location + |Units(newWord)|
        && selection == 0 && suggestions == []
    {
      var _, rangeOpt := CurrentWordAndRange();
      if rangeOpt.None? {
        return;
      }
      var r := rangeOpt.value;
      var units := Units(newWord);
      ghost var replaced := Replaced(text, r, units);
      text := text[..r.location] + units + text[r.location + r.length..];
      assert text == replaced;
      cursor := r.location + |units|;
      selection := 0;
      suggestions := [];
    }

    /** Tapping a suggestion: the word at the cursor is replaced by the
        suggestion and a space. */
    method AcceptSuggestion(word: string)
      requires Valid()
      modifies this`text, this`cursor, this`selection, this`suggestions
      ensures Valid()
      ensures old(WordRange(text, platform.isWhitespace, cursor)).None? ==>
        && text == old(text) && cursor == old(cursor) && selection == old(selection)
        && suggestions == old(suggestions)
      ensures old(WordRange(text, platform.isWhitespace, cursor)).Some? ==>
        var r := old(WordRange(text, platform.isWhitespace, cursor)).value;
        && text == Replaced(old(text), r, Units(word) + [0x20])
        && cursor == r.location + |Units(word)| + 1
        && selection == 0 && suggestions == []
    {
      UnitsAppend(word, " ");
      assert Units(" ") == [0x20];
      ReplaceCurrentWord(word + " ");
    }

    /** The synchronous part of `updateSuggestions`: the word at the clamped
        cursor is looked up when it has two characters or more, and the bar
        shows the first eight results; otherwise the bar is emptied.
        `results` stands for the suggestion service. */
    method UpdateSuggestions(results: string -> seq<string>)
      requires Valid()
      modifies this`suggestions
      ensures Valid()
      ensures SuggestionQuery(platform, text, cursor).None? ==> suggestions == []
      ensures SuggestionQuery(platform, text, cursor).Some? ==>
        suggestions == TopSuggestions(results(SuggestionQuery(platform, text, cursor).value))
    {
      var query := QueryWord(platform, text, cursor);
      match query
      case None =>
        suggestions := [];
      case Some(word) =>
        var fetched := results(word);
        suggestions := fetched[..Min(8, |fetched|)];
    }

    /** The letter page on screen (the block computation in `letters`):
        English shows its first 26 glyphs, other languages the page the block
        index names, which always exists. */
    method CurrentBlock() returns (block: seq<string>)
      requires Valid() && PagesMatchLayout()
      ensures langCode == "en" ==> block == FlatLayout(platform, langCode)[..Min(26, |FlatLayout(platform, langCode)|)]
      ensures langCode != "en" && FlatLayout(platform, langCode) != [] ==>
        SafeAt(Chunks(FlatLayout(platform, langCode), 24), blockIndex) == Some(block) && 0 < |block| <= 24
      ensures langCode != "en" && FlatLayout(platform, langCode) == [] ==> block == []
    {
      var flat := FlattenLanguageKeys(platform, langCode);
      var blocks := LetterBlocks(langCode, flat);
      var active := if langCode == "en" then 0 else blockIndex;
      block := match SafeAt(blocks, active) case Some(b) => b case None => [];
      if langCode != "en" {
        ShownPageExists(langCode, flat, blockIndex);
      }
    }

    /** `moveBlock(forward:)` */
    method MoveBlock(forward: bool)
      requires Valid() && PagesMatchLayout()
      modifies this`blockIndex
      ensures Valid()
      ensures blockIndex == MovedBlockIndex(old(blockIndex), pages, forward)
    {
      var totalBlocks := CountPages(platform, langCode);
      blockIndex := MovedBlockIndex(blockIndex, totalBlocks, forward);
    }

    /** `toggleShift` */
    method ToggleShift()
      requires Valid()
      modifies this`shiftOn, this`capsLock
      ensures Valid()
      ensures Shift() == NextShift(langCode, old(Shift()))
    {
      if langCode != "en" {
        return;
      }
      if capsLock {
        capsLock := false;
        shiftOn := false;
      } else if shiftOn {
        capsLock := true;
        shiftOn := false;
      } else {
        shiftOn := true;
      }
    }
  }
}
