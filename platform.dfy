/** The Foundation facilities the editor relies on. The editor never
    implements Unicode segmentation, case mapping or whitespace
    classification itself; it calls the platform. Here those calls are
    uninterpreted functions carried in a `Foundation` record, and
    `Foundation.Valid` states the facts about them that the editor's
    behaviour depends on. */
module Platform {
  import opened Utf16

  datatype Option<T> = None | Some(value: T)

  function Min(a: int, b: int): int { if a <= b then a else b }
  function Max(a: int, b: int): int { if a >= b then a else b }

  /** `NSRange`: a location and a length, counted in UTF-16 units. */
  datatype Range = Range(location: int, length: int)
  {
    function End(): int { location + length }
  }

  predicate IsAscii(s: string)
  {
    forall i :: 0 <= i < |s| ==> s[i] as int < 0x80
  }

  function UpperChar(c: char): char
  {
    if 'a' <= c <= 'z' then (c as int - 0x20) as char else c
  }

  function LowerChar(c: char): char
  {
    if 'A' <= c <= 'Z' then (c as int + 0x20) as char else c
  }

  /** Case mapping restricted to ASCII letters. */
  function AsciiUpper(s: string): (r: string)
    ensures |r| == |s|
  {
    seq(|s|, i requires 0 <= i < |s| => UpperChar(s[i]))
  }

  function AsciiLower(s: string): (r: string)
    ensures |r| == |s|
  {
    seq(|s|, i requires 0 <= i < |s| => LowerChar(s[i]))
  }

  /** Units that are printable ASCII or in the Devanagari block (U+0900..U+097F). */
  predicate IsVisibleAsciiOrDevanagari(u: Unit)
  {
    0x21 <= u <= 0x7E || 0x0900 <= u <= 0x097F
  }

  /** The platform calls, as functions:
      - `composedRange(t, i)`: `NSString.rangeOfComposedCharacterSequence(at: i)`;
      - `isWhitespace(u)`: the one-unit substring at `u` trims to the empty
        string under `.whitespacesAndNewlines`;
      - `uppercased`, `lowercased`: `String.uppercased()`, `String.lowercased()`;
      - `characterCount`: `String.count`, the number of extended grapheme clusters. */
  datatype Foundation = Foundation(
    composedRange: (seq<Unit>, int) -> Range,
    isWhitespace: Unit -> bool,
    uppercased: string -> string,
    lowercased: string -> string,
    characterCount: string -> nat)
  {
    /** What the editor may assume of the platform. */
    ghost predicate Valid()
    {
      // the composed character sequence at an index in the text contains that
      // index and lies within the text
      && (forall t: seq<Unit>, i: int {:trigger composedRange(t, i)} :: 0 <= i < |t| ==>
            0 <= composedRange(t, i).location <= i < composedRange(t, i).End() <= |t|)
      // space, tab and newline are whitespace; printable ASCII and Devanagari are not
      && isWhitespace(0x20) && isWhitespace(0x09) && isWhitespace(0x0A)
      && (forall u: Unit {:trigger isWhitespace(u)} :: IsVisibleAsciiOrDevanagari(u) ==> !isWhitespace(u))
      // on ASCII text, case mapping maps exactly the letters a-z / A-Z
      && (forall s {:trigger uppercased(s)} :: IsAscii(s) ==> uppercased(s) == AsciiUpper(s))
      && (forall s {:trigger lowercased(s)} :: IsAscii(s) ==> lowercased(s) == AsciiLower(s))
      // a string has no more grapheme clusters than scalars, and a non-empty one has at least one
      && (forall s {:trigger characterCount(s)} :: characterCount(s) <= |s| && (s != [] ==> characterCount(s) >= 1))
    }
  }

  /** A platform that meets `Foundation.Valid`: every unit its own cluster. */
  function SimplePlatform(): Foundation
  {
    Foundation(
      (t: seq<Unit>, i: int) => Range(i, 1),
      (u: Unit) => u == 0x20 || u == 0x09 || u == 0x0A,
      (s: string) => if IsAscii(s) then AsciiUpper(s) else s,
      (s: string) => if IsAscii(s) then AsciiLower(s) else s,
      (s: string) => |s|)
  }

  /** The facts assumed of the platform are consistent. */
  lemma SimplePlatformValid()
    ensures SimplePlatform().Valid()
  {
  }
}
