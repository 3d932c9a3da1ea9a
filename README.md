# Indic keyboard editor: a Dafny model

This project models the editing engine of `IndicKeyboardEditor`, a SwiftUI
text editor with its own on-screen keyboard for English and thirteen Indian
languages. The model covers:

- the per-language key tables and the router that picks one for a language code;
- how the tables are flattened and cut into pages of letter keys, and how the block arrows page through them;
- shift and caps lock, and the title each key shows;
- what a key press does to the text, the cursor and the selection: insertion, deletion of a selection, whole-character deletion, and the "smart" Devanagari deletion that strips a trailing vowel sign before the consonant;
- locating the word at the cursor, replacing it by a tapped suggestion, and the query sent for suggestions;
- the long-press popup lookup.

The text is kept as `NSString` sees it, a sequence of UTF-16 code units
(`Utf16.Unit`). Cursor and selection are unit offsets, as in the source.
Swift `String` values (keys, words, clusters) are Dafny `string`s, that is
sequences of Unicode scalars. `Utf16.Units` is a string's `utf16` view.
`Utf16.Decode` builds a `String` from units, replacing each lone surrogate by
U+FFFD.

Foundation behaviour that the code relies on but does not define is passed in
as a value of `Platform.Foundation`. Its `Valid()` predicate lists what the
model assumes of it:

- the composed character sequence at an index contains that index;
- space, tab and newline are whitespace, and printable ASCII and Devanagari are not;
- upper- and lower-casing of ASCII text;
- a string has no more characters than scalars, and a non-empty one has at least one.

`Platform.SimplePlatform` shows these assumptions can all be met. The
Foundation behaviours covered this way:

- `rangeOfComposedCharacterSequence(at:)`;
- the whitespace test made by trimming a one-unit substring;
- `uppercased()` and `lowercased()`;
- `String.count`.

The editor object (`KeyboardEditor.Keyboard`) is a class, because its fields
are updated in place. Each of its methods is proved to leave its fields
exactly as a function on values says:

- `TextEditing.Inserted`, `Deleted`, `WholeCharDeleted` and `SmartDeleted`;
- `Words.WordRange` and `SuggestionQuery`;
- `Layout.MovedBlockIndex`;
- `KeyboardEditor.NextShift` and `KeyPressed`.

The properties of the source are proved about those functions. The class
invariant `Valid()` states four things:

- the block index is below the ghost page count `pages` (the constructor also establishes `PagesMatchLayout()`, which ties `pages` to `Layout.PageCount` of the language, and `MoveBlock` and `CurrentBlock` require it);
- shift and caps lock are never both on;
- the cursor is not negative;
- the platform value meets `Foundation.Valid()`.

Two behaviours of the code worth knowing:

- The word locator (`currentWordAndRange`) returns the word next to the cursor when the cursor sits on whitespace. It returns none only when both neighbouring units are whitespace or absent (`Words.WordRange`).
- Suggestion results carry no generation counter. The debounce task checks for cancellation only once, after its 150 ms sleep. A lookup superseded while it waits for results can still publish them, or an empty list if the request fails on cancellation. That timing is outside this model.

## Model

| member | source | states |
|---|---|---|
| Utf16.DecodeUnits | IndicKeyboard.swift:746-752 | rebuilding a `String` from a string's UTF-16 units gives back the same string |
| Utf16.UnitsDecode | IndicKeyboard.swift:719-720 | units holding no lone surrogate come back unchanged from a round trip through `String` |
| Utf16.DecodeKeepsLength | IndicKeyboard.swift:758 | that round trip never changes the number of units, since each lone surrogate becomes the one-unit U+FFFD |
| Utf16.UnitsLength | IndicKeyboard.swift:663 | the `utf16.count` added to the cursor lies between the scalar count and twice it; it equals the scalar count in the Basic Multilingual Plane |
| LanguageKeys.PopupDefaultsToEmpty | AllLanguageKeys.swift:9-16 | a key declared without variants has an empty popup |
| LanguageKeys.Route | AllLanguageKeys.swift:252-270 | every code outside the fourteen routed pairs gets the English table |
| LanguageKeys.TableFor | AllLanguageKeys.swift:252-269 | a code that is not one of the 28 routed codes after lower-casing selects the English table |
| LanguageKeys.KeysForLang | AllLanguageKeys.swift:252-270 | a code that is not routed after lower-casing gets the English keys |
| LanguageKeys.KeysForLangNonEmpty | AllLanguageKeys.swift:252-270 | whatever the code, the router returns a non-empty table with no empty row |
| LanguageKeys.KeysForLangIgnoresCase | AllLanguageKeys.swift:252-289 | ASCII codes equal up to letter case get the same table and the same script type |
| LanguageKeys.UpperCaseHindi | AllLanguageKeys.swift:253-254 | "HI" is routed to the Hindi table like "hi" |
| LanguageKeys.SharedTablesNorth | AllLanguageKeys.swift:254-263 | each Devanagari or Bengali-script language's two- and three-letter codes get its table |
| LanguageKeys.SharedTablesSouth | AllLanguageKeys.swift:257-260 | the same for Telugu, Tamil, Kannada and Malayalam |
| LanguageKeys.SharedTablesOther | AllLanguageKeys.swift:261-267 | the same for Odia, Gujarati, Punjabi, Urdu and English |
| LanguageKeys.AliasedTables | AllLanguageKeys.swift:76-181 | Marathi and Sanskrit use Hindi's keys, Assamese uses Bengali's |
| LanguageKeys.ScriptTypes | AllLanguageKeys.swift:275-289 | the script of each of the thirteen two-letter codes; "hin" is Latin although it routes to the Hindi table |
| LanguageKeys.ScriptOf | AllLanguageKeys.swift:276-288 | the script is Latin exactly for the codes outside the thirteen two-letter codes the switch lists, three-letter codes included |
| LanguageKeys.ScriptTypeFor | AllLanguageKeys.swift:275-289 | after lower-casing, the script is Latin exactly for codes outside those thirteen |
| LanguageKeys.LowerCaseCodeRoutesAsWritten | AllLanguageKeys.swift:252-289 | a lower-case ASCII code is routed and classified as written |
| LanguageKeys.TamilMatraFromKannada | AllLanguageKeys.swift:29 | the third Tamil long-press sign is U+0CC0 from the Kannada block; the others are Tamil |
| Layout.SlotsPerBlock | IndicKeyboard.swift:398-404 | a page has 26 letter slots in English and 24 elsewhere |
| Layout.FlattenLanguageKeys | IndicKeyboard.swift:770-785 | the fixed 26 English letters for "en"; otherwise every key's glyph in row order |
| Layout.AppendMains | IndicKeyboard.swift:777-783 | the nested loops append every key's `main`, row by row, and nothing else |
| Layout.TotalBlocks | IndicKeyboard.swift:531 | a layout always has at least one page |
| Layout.ChunksConcat | IndicKeyboard.swift:452-459 | the pages laid end to end are the flat layout: no glyph lost, added or reordered |
| Layout.ChunksShape | IndicKeyboard.swift:452-459 | the page count is the rounded-up quotient; every page is non-empty and at most a page size; all but the last are full |
| Layout.ChunkAt | IndicKeyboard.swift:452-459 | page `p` is the slice of the flat layout from `p` page sizes on |
| Layout.SliceIntoPages | IndicKeyboard.swift:453-459 | the `while` loop that steps by a page size collects exactly those pages |
| Layout.LetterBlocks | IndicKeyboard.swift:446-461 | English shows its first 26 glyphs on one page; other languages get pages of 24, `[[]]` when empty, counted as `moveBlock` counts them |
| Layout.SafeAt | IndicKeyboard.swift:905-907 | the safe subscript yields a value exactly for an index in range, and that value is the element |
| Layout.SlotTitle | IndicKeyboard.swift:471-496 | a slot shows the page's glyph at its index when the page has one there, and the empty title otherwise |
| Layout.ActiveBlock | IndicKeyboard.swift:463-464 | English always shows page 0 (empty when there is none); other languages show the page the block index names, or an empty page when it names none |
| Layout.EveryGlyphHasAKey | IndicKeyboard.swift:463-500 | glyph `k` of a paged layout is shown in slot `k % 24` of page `k / 24`, which is a page the arrows reach |
| Layout.ShownPageExists | IndicKeyboard.swift:463-464 | for a block index below the page count, the `?? []` fallback is never taken |
| Layout.PageCount | IndicKeyboard.swift:530-531 | the page count of any language is at least one |
| Layout.CountPages | IndicKeyboard.swift:530-531 | the flatten-and-divide computation yields the page count |
| Layout.SwiftRem | IndicKeyboard.swift:535-537 | Swift's `%` agrees with the mathematical remainder on the non-negative operands used here |
| Layout.MovedBlockIndex | IndicKeyboard.swift:529-539 | with a single page nothing moves; otherwise the index stays in range, steps by one, and wraps from the last page to the first and back |
| Layout.BlockArrowsInverse | IndicKeyboard.swift:529-539 | the right arrow undoes the left arrow and vice versa |
| Layout.FirstWhere | IndicKeyboard.swift:851 | none exactly when no key of the row has the title; otherwise the first key that has it |
| Layout.PopupVariants | IndicKeyboard.swift:849-856 | the variants of the first key, row by row, whose glyph is the title; empty when no key has it |
| Layout.EnglishPopupsOnLowerCase | AllLanguageKeys.swift:240-249 | the English "e" key has the four accented variants and no English key is titled "E" |
| TextEditing.Clamp | IndicKeyboard.swift:655-656 | the clamped offset lies in `[0, hi]` and equals the input when the input is in range |
| TextEditing.ClampedSelection | IndicKeyboard.swift:655-656 | the range edited lies inside the text, and is empty when it starts at the end of the text |
| TextEditing.ClampedSelectionKeeps | IndicKeyboard.swift:655-656 | the range starts at the cursor when the cursor is in the text, and has the selection's length when that fits |
| TextEditing.ViewSelection | IndicKeyboard.swift:282-286 | the selection shown by the text view lies inside its text |
| TextEditing.ViewClampAgrees | IndicKeyboard.swift:282-286 | the text view's clamp and the editing operations' clamp produce the same range |
| TextEditing.Inserted | IndicKeyboard.swift:650-667 | after insertion nothing is selected and the cursor is inside the text |
| TextEditing.InsertedParts | IndicKeyboard.swift:650-667 | the text before the selection is kept, the inserted units end at the cursor, and the text after the selection follows |
| TextEditing.InsertTwice | IndicKeyboard.swift:650-667 | typing two keys in turn equals typing their texts at once |
| TextEditing.SelectionDeleted | IndicKeyboard.swift:676-684 | deleting a selection removes exactly the clamped range, keeps the text on both sides, puts the cursor at the range's start and leaves nothing selected |
| TextEditing.SelectionDeleteIgnoresLanguage | IndicKeyboard.swift:670-685 | with a selection, the delete key removes exactly the clamped selection whatever the language code |
| TextEditing.TypeOverSelection | IndicKeyboard.swift:650-684 | deleting the selection is inserting nothing; typing over a selection equals deleting it and then typing |
| TextEditing.ClusterBefore | IndicKeyboard.swift:703-704 | the composed character before the cursor starts before the clamped cursor and ends at or after it, inside the text |
| TextEditing.WholeCharDeleted | IndicKeyboard.swift:698-709 | at the start or on an empty text nothing changes; otherwise exactly the composed character before the cursor is removed, the text on both sides is kept, the cursor moves to that character's start, and nothing is selected |
| TextEditing.StrippedCluster | IndicKeyboard.swift:746-752 | a cluster is shortened exactly when it has two or more scalars and its last scalar is a Devanagari mark; the result is shorter, and for well-formed units it is the cluster without its last unit |
| TextEditing.SmartDeleted | IndicKeyboard.swift:713-767 | at the start or on an empty text nothing changes; otherwise the text shrinks and nothing is selected |
| TextEditing.SmartDeleteKeepsSurroundings | IndicKeyboard.swift:713-767 | smart deletion touches only the cluster before the cursor, and the new cursor lies inside that cluster's old span |
| TextEditing.SmartDeleteFallsBack | IndicKeyboard.swift:746-766 | without a trailing mark, including a cluster that is one lone mark, smart deletion is whole-character deletion |
| TextEditing.StripsExactlyOneUnit | IndicKeyboard.swift:746-760 | stripping a mark removes exactly the cluster's last unit and puts the cursor where it was |
| TextEditing.MatrasAreMarks | IndicKeyboard.swift:723-744 | every Devanagari vowel sign on the long-press popups is a single scalar in the set smart deletion strips |
| TextEditing.Deleted | IndicKeyboard.swift:670-693 | the delete key changes nothing exactly when there is no selection and nothing before the cursor; otherwise nothing stays selected and the text does not grow |
| TextEditing.SmartDeleteOnlyForDevanagari | IndicKeyboard.swift:688-692 | smart deletion is chosen only for Devanagari codes, by exact comparison: "HI" has the Devanagari script yet deletes whole characters |
| TextEditing.DeleteAtEnd | IndicKeyboard.swift:433-438 | holding delete at the end of the text shortens it on every repeat while the cursor stays at the end |
| Words.RunStart | IndicKeyboard.swift:208-212 | the backward scan stops at the start of the text or just after a whitespace unit, crossing only non-whitespace |
| Words.RunEnd | IndicKeyboard.swift:215-219 | the forward scan stops at the end of the text or on a whitespace unit, crossing only non-whitespace |
| Words.WordRange | IndicKeyboard.swift:200-224 | none exactly when the cursor is past the text or both neighbouring units are whitespace or absent; otherwise the maximal non-empty whitespace-free run that touches the cursor |
| Words.ScanWord | IndicKeyboard.swift:207-220 | the two `while` loops compute that range |
| Words.SuggestionQuery | IndicKeyboard.swift:155-189 | a query is made only for a word of at least two characters found around the clamped cursor |
| Words.QueryWord | IndicKeyboard.swift:155-189 | the scan and guards of the suggestion task compute that query |
| Words.ScansAgree | IndicKeyboard.swift:155-189 | inside the text the suggestion scan looks at the same word as the locator; past the end it looks at the word at the end while the locator finds none |
| Words.TopSuggestions | IndicKeyboard.swift:53 | exactly the first eight results are kept, or all of them when there are fewer |
| Words.ReplacedWordIsCurrent | IndicKeyboard.swift:226-240 | after a word is replaced by a whitespace-free word, the new cursor touches exactly that word |
| KeyboardEditor.ShownTitleIsTyped | IndicKeyboard.swift:625-663 | an ASCII key types exactly the title it shows (the second upper-casing changes nothing), and only shifted English letters change |
| KeyboardEditor.DisplayTitle | IndicKeyboard.swift:631-636 | the title is the key's text unchanged for every language but English, and for English while shift and caps lock are both off |
| KeyboardEditor.ShiftedTitle | IndicKeyboard.swift:631-636 | under shift or caps lock the English "e" key is titled "E"; with both off it is titled "e" |
| KeyboardEditor.ShiftHidesEnglishPopups | IndicKeyboard.swift:849-856 | under shift or caps lock the English "e" key is titled "E" and offers no variants, while unshifted it offers four |
| KeyboardEditor.KeyPressed | IndicKeyboard.swift:639-648 | any key other than "DEL" leaves nothing selected and the cursor inside the text |
| KeyboardEditor.DelKeysDelete | IndicKeyboard.swift:639-648 | the last rows of the Tamil and Urdu tables are a "DEL" key, and pressing it deletes instead of typing the label |
| KeyboardEditor.NextShift | IndicKeyboard.swift:585-597 | other languages ignore shift; in English, shift and caps lock are never both on |
| KeyboardEditor.ShiftCycles | IndicKeyboard.swift:585-597 | three presses of shift return to the starting state through the two other states |
| KeyboardEditor.Keyboard.constructor | IndicKeyboard.swift:385-389 | a new editor has the first page and shift and caps lock off (lines 385-389), and its cursor at the start with no selection and no suggestions (IndicKeyboard.swift:69-72) |
| KeyboardEditor.Keyboard.InsertAtCursor | IndicKeyboard.swift:650-667 | the fields become `Inserted` of the old state and the key's displayed units |
| KeyboardEditor.Keyboard.DeleteWholeCharacter | IndicKeyboard.swift:698-709 | the fields become `WholeCharDeleted` of the old state |
| KeyboardEditor.Keyboard.SmartDeleteDevanagariCluster | IndicKeyboard.swift:713-767 | the fields become `SmartDeleted` of the old state |
| KeyboardEditor.Keyboard.DeleteSelection | IndicKeyboard.swift:676-684 | the fields become `SelectionDeleted` of the old state |
| KeyboardEditor.Keyboard.DeleteGrapheme | IndicKeyboard.swift:670-693 | the fields become `Deleted` of the old state |
| KeyboardEditor.Keyboard.HandleKey | IndicKeyboard.swift:639-648 | the fields become `KeyPressed` of the old state; shift is untouched |
| KeyboardEditor.Keyboard.CurrentWordAndRange | IndicKeyboard.swift:200-224 | returns the locator's range and the word it covers, both none together |
| KeyboardEditor.Keyboard.ReplaceCurrentWord | IndicKeyboard.swift:226-240 | with no word at the cursor nothing changes; otherwise that word's range is replaced, the cursor follows the new word, and selection and suggestions are cleared |
| KeyboardEditor.Keyboard.AcceptSuggestion | IndicKeyboard.swift:104-107 | a tapped suggestion replaces the word at the cursor, followed by a space, and the cursor lands after the space |
| KeyboardEditor.Keyboard.UpdateSuggestions | IndicKeyboard.swift:143-198 | the bar is emptied when there is no query, otherwise it holds the first eight results for it |
| KeyboardEditor.Keyboard.CurrentBlock | IndicKeyboard.swift:446-464 | English shows its first 26 glyphs; other languages show the page the block index names, which exists and is non-empty for a non-empty layout |
| KeyboardEditor.Keyboard.MoveBlock | IndicKeyboard.swift:529-539 | the block index moves as `MovedBlockIndex` says over the language's page count, and stays a valid page |
| KeyboardEditor.Keyboard.ToggleShift | IndicKeyboard.swift:585-597 | the shift state advances as `NextShift` says |

## Left out

- The SwiftUI views, styling, haptic feedback, the symbol pad's layout, `popupColumns`, and the hint label are out of scope; the symbol pad's own keys reach `handleKey` as any key does.
- The network request, JSON parsing and percent-encoding in the suggester are out of scope. `UpdateSuggestions` takes the lookup as a function parameter; only the cut to the first eight results is modelled.
- The suggester's own repeated guard (trimming of spaces, at least two characters) is not modelled separately. The query it receives is already whitespace-free and at least two characters long.
- The 150 ms debounce, the cancellation of the previous task and the asynchronous hop back to the main actor are out of scope. `UpdateSuggestions` performs the scan and the update in one step on the current text and cursor.
- `currentWord` is not modelled, because nothing in the core reads it.
- The auto-repeat timer of the delete key is out of scope. `TextEditing.DeleteAtEnd` states what repeated presses do at the end of the text.
- The text view coordinator (tap handling, `textViewDidChange`, `textViewDidChangeSelection`, the programmatic-change flag) is out of scope. Its effect is that the cursor can hold any non-negative value and the selection any value, which the operations clamp.
- KeyboardEditor.Keyboard.ReplaceCurrentWord: the source sets the cursor and the selection in a deferred main-queue block. The model sets them at once, so it does not capture a key press landing between the text change and that block.
- Grapheme segmentation, whitespace classification, case mapping and character counting are platform oracles, constrained only by `Foundation.Valid()`.
- Trimming the located word is modelled as doing nothing, because the located run contains no whitespace unit by construction.
- Bridging the whole text between `String` and `NSString` is not modelled: the text is kept as UTF-16 units throughout. A text holding a lone surrogate would be repaired by Swift on that bridge; the model keeps it as it is.
- Layout.CountPages: `ceil` on `Double` is modelled as integer ceiling division, which agrees for any realistic layout size.
- The number of rows per page (10, 9 and 7 or 5) is used only through the slot count per page; which slot sits on which row is view layout.
