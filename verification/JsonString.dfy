/** Quoting text for a JSON error body.  A `char` is a Unicode scalar value here. */
module JsonString {
  import opened Strings

  const HEX_DIGITS := "0123456789abcdef"

  function Escaped(c: char): string {
    match c
    case '"' => ['\\', '"']
    case '\\' => ['\\', '\\']
    case '\n' => ['\\', 'n']
    case '\r' => ['\\', 'r']
    case '\t' => ['\\', 't']
    case _ =>
      if c as int < 0x20 then ['\\', 'u', '0', '0', HEX_DIGITS[c as int / 16], HEX_DIGITS[c as int % 16]]
      else [c]
  }

  function EscapedAll(s: string): string {
    if s == "" then "" else EscapedAll(s[..|s| - 1]) + Escaped(s[|s| - 1])
  }

  /** The switch over one rune. */
  method QuoteChar(c: char) returns (piece: string)
    ensures piece == Escaped(c)
  {
    match c {
      case '"' =>
        piece := ['\\', '"'];
      case '\\' =>
        piece := ['\\', '\\'];
      case '\n' =>
        piece := ['\\', 'n'];
      case '\r' =>
        piece := ['\\', 'r'];
      case '\t' =>
        piece := ['\\', 't'];
      case _ =>
        if c as int < 0x20 {
          piece := ['\\', 'u', '0', '0'];
          piece := piece + [HEX_DIGITS[c as int / 16]];
          piece := piece + [HEX_DIGITS[c as int % 16]];
        } else {
          piece := [c];
        }
    }
  }

  /** `jsonString`. */
  method Quote(s: string) returns (out: string)
    ensures out == ['"'] + EscapedAll(s) + ['"']
  {
    hide Escaped;
    out := ['"'];
    for i := 0 to |s|
      invariant out == ['"'] + EscapedAll(s[..i])
    {
      assert s[..i + 1][..i] == s[..i];
      var piece := QuoteChar(s[i]);
      out := out + piece;
    }
    assert s[..|s|] == s;
    out := out + ['"'];
  }

  // ----- Reading strings back: section 7 of RFC 8259 -----

  function HexValue(c: char): Option<nat> {
    if '0' <= c <= '9' then Some(c as int - '0' as int)
    else if 'a' <= c <= 'f' then Some(c as int - 'a' as int + 10)
    else if 'A' <= c <= 'F' then Some(c as int - 'A' as int + 10)
    else None
  }

  /** The four hexadecimal digits at `i`. */
  function CodeUnit(text: string, i: nat): (r: Option<nat>)
    ensures r.Some? ==> i + 4 <= |text|
  {
    if i + 4 > |text| then None
    else
      match (HexValue(text[i]), HexValue(text[i + 1]), HexValue(text[i + 2]), HexValue(text[i + 3]))
      case (Some(a), Some(b), Some(c), Some(d)) => Some(4096 * a + 256 * b + 16 * c + d)
      case _ => None
  }

  predicate IsScalar(n: nat) {
    n < 0xD800 || 0xE000 <= n < 0x11_0000
  }

  /** The character a two-character escape stands for. */
  function ShortEscape(c: char): Option<char> {
    match c
    case '"' => Some('"')
    case '\\' => Some('\\')
    case '/' => Some('/')
    case 'b' => Some(8 as char)
    case 'f' => Some(12 as char)
    case 'n' => Some('\n')
    case 'r' => Some('\r')
    case 't' => Some('\t')
    case _ => None
  }

  /** The character at `i` inside a string, and where the next one starts.  A surrogate pair is one
      character; half of one stands for nothing. */
  function ReadChar(text: string, i: nat): (r: Option<(char, nat)>)
    requires i < |text|
    ensures r.Some? ==> i < r.value.1 <= |text|
  {
    var c := text[i];
    if c == '"' || (c as int) < 0x20 then None
    else if c != '\\' then Some((c, i + 1))
    else if i + 1 == |text| then None
    else if text[i + 1] != 'u' then
      match ShortEscape(text[i + 1]) case None => None case Some(e) => Some((e, i + 2))
    else
      match CodeUnit(text, i + 2)
      case None => None
      case Some(unit) =>
        if IsScalar(unit) then Some((unit as char, i + 6))
        else if unit < 0xDC00 && i + 8 <= |text| && text[i + 6] == '\\' && text[i + 7] == 'u' then
          match CodeUnit(text, i + 8)
          case None => None
          case Some(low) =>
            if 0xDC00 <= low < 0xE000
            then Some(((0x1_0000 + 1024 * (unit - 0xD800) + (low - 0xDC00)) as char, i + 12))
            else None
        else None
  }

  /** The characters from `i` up to the first quote that is not part of an escape, and where that is. */
  function ReadChars(text: string, i: nat): (r: Option<(string, nat)>)
    requires i <= |text|
    ensures r.Some? ==> i <= r.value.1 < |text| && text[r.value.1] == '"'
    decreases |text| - i
  {
    if i == |text| then None
    else if text[i] == '"' then Some(("", i))
    else
      match ReadChar(text, i)
      case None => None
      case Some((c, next)) =>
        match ReadChars(text, next)
        case None => None
        case Some((rest, end)) => Some(([c] + rest, end))
  }

  /** A JSON string at the start of `text`: its value and what follows it. */
  function ReadString(text: string): Option<(string, string)> {
    if text == "" || text[0] != '"' then None
    else
      match ReadChars(text, 1)
      case None => None
      case Some((s, end)) => Some((s, text[end + 1..]))
  }

  lemma HexDigitsRead(n: nat)
    requires n < 16
    ensures HexValue(HEX_DIGITS[n]) == Some(n)
  {
    if n < 10 {
      assert HEX_DIGITS[n] as int == '0' as int + n;
    } else {
      assert HEX_DIGITS[n] as int == 'a' as int + n - 10;
    }
  }

  /** Each printed character reads back as itself, wherever it stands. */
  lemma EscapedReads(text: string, i: nat, c: char)
    requires i + |Escaped(c)| <= |text| && text[i..i + |Escaped(c)|] == Escaped(c)
    ensures ReadChar(text, i) == Some((c, i + |Escaped(c)|)) && text[i] != '"'
  {
    var e := Escaped(c);
    assert forall k :: 0 <= k < |e| ==> text[i + k] == text[i..i + |e|][k] == e[k];
    assert text[i] == e[0];
    if |e| >= 2 {
      assert text[i + 1] == e[1];
    }
    if |e| == 6 {
      HexDigitsRead(c as int / 16);
      HexDigitsRead(c as int % 16);
      assert text[i + 2] == e[2] && text[i + 3] == e[3] && text[i + 4] == e[4] && text[i + 5] == e[5];
    }
  }

  lemma EscapedAllCons(c: char, s: string)
    ensures EscapedAll([c] + s) == Escaped(c) + EscapedAll(s)
  {
    hide Escaped;
    var all := [c] + s;
    if s == "" {
      assert all[..|all| - 1] == [];
      assert EscapedAll([]) + Escaped(c) == Escaped(c) + EscapedAll([]);
    } else {
      var front, last := s[..|s| - 1], s[|s| - 1];
      assert all[..|all| - 1] == [c] + front;
      EscapedAllCons(c, front);
    }
  }

  lemma {:induction false} EscapedAllReads(text: string, i: nat, s: string)
    requires i + |EscapedAll(s)| < |text| && text[i + |EscapedAll(s)|] == '"'
    requires text[i..i + |EscapedAll(s)|] == EscapedAll(s)
    ensures ReadChars(text, i) == Some((s, i + |EscapedAll(s)|))
    decreases |s|
  {
    hide Escaped, ReadChar;
    if s != "" {
      var c, rest := s[0], s[1..];
      assert s == [c] + rest;
      EscapedAllCons(c, rest);
      var e := |Escaped(c)|;
      var body := text[i..i + |EscapedAll(s)|];
      assert text[i..i + e] == body[..e] == Escaped(c);
      assert text[i + e..i + e + |EscapedAll(rest)|] == body[e..] == EscapedAll(rest);
      EscapedReads(text, i, c);
      EscapedAllReads(text, i + e, rest);
    }
  }

  /** The escapes of section 7 by the code points they stand for, and a code unit in hexadecimal. */
  lemma EscapesStandFor()
    ensures ShortEscape('"') == Some(0x22 as char) && ShortEscape('\\') == Some(0x5C as char)
    ensures ShortEscape('/') == Some(0x2F as char) && ShortEscape('b') == Some(0x08 as char)
    ensures ShortEscape('f') == Some(0x0C as char) && ShortEscape('n') == Some(0x0A as char)
    ensures ShortEscape('r') == Some(0x0D as char) && ShortEscape('t') == Some(0x09 as char)
    ensures CodeUnit(['0', '0', '1', 'f'], 0) == Some(0x1F)
  {
  }

  /** What is printed reads back as the original text, and the reader stops exactly at its end whatever
      follows. */
  lemma {:induction false} QuotedTextReadsBack(s: string, rest: string)
    ensures ReadString(['"'] + EscapedAll(s) + ['"'] + rest) == Some((s, rest))
  {
    var n := |EscapedAll(s)|;
    var text := ['"'] + EscapedAll(s) + ['"'] + rest;
    assert text[1..1 + n] == EscapedAll(s);
    assert text[1 + n] == '"';
    EscapedAllReads(text, 1, s);
    assert text[n + 2..] == rest;
  }

  /** No raw control character is ever printed. */
  lemma {:induction false} NothingBelowSpace(s: string)
    ensures forall c :: c in EscapedAll(s) ==> c as int >= 0x20
  {
    if s != "" {
      NothingBelowSpace(s[..|s| - 1]);
      EscapedIsPrintable(s[|s| - 1]);
    }
  }

  lemma EscapedIsPrintable(c: char)
    ensures forall e :: e in Escaped(c) ==> e as int >= 0x20
  {
  }
}
