/** The textual form of an expense's tags: a JSON array of strings as Python's
    `json.dumps` writes it with its default settings (items separated by ", ",
    every character outside printable ASCII escaped), and a decoder for JSON
    arrays of strings as `json.loads` reads them (whitespace between tokens,
    the short escapes, `\uXXXX` with surrogate pairs, raw control characters
    refused). */
module TagCodec {
  import opened Options

  /** A lower-case hexadecimal digit. */
  function HexDigit(d: nat): (c: char)
    requires d < 16
  {
    if d < 10 then ('0' as int + d) as char else ('a' as int + d - 10) as char
  }

  /** Four lower-case hex digits, most significant first (`'%04x' % n`). */
  function Hex4(n: nat): (r: string)
    requires n < 0x10000
    ensures |r| == 4
  {
    [HexDigit(n / 16 / 16 / 16), HexDigit(n / 16 / 16 % 16), HexDigit(n / 16 % 16), HexDigit(n % 16)]
  }

  /** The value of a hex digit of either case. */
  function HexValue(c: char): (r: Option<nat>)
    ensures r.Some? ==> r.value < 16
  {
    if '0' <= c <= '9' then Some(c as int - '0' as int)
    else if 'a' <= c <= 'f' then Some(c as int - 'a' as int + 10)
    else if 'A' <= c <= 'F' then Some(c as int - 'A' as int + 10)
    else None
  }

  /** The four hex digits at the front of s. */
  function ParseHex4(s: string): (r: Option<nat>)
    ensures r.Some? ==> r.value < 0x10000
  {
    if |s| < 4 then None
    else match (HexValue(s[0]), HexValue(s[1]), HexValue(s[2]), HexValue(s[3]))
      case (Some(a), Some(b), Some(c), Some(d)) => Some(((a * 16 + b) * 16 + c) * 16 + d)
      case _ => None
  }

  lemma HexDigitValue(d: nat)
    requires d < 16
    ensures HexValue(HexDigit(d)) == Some(d)
  {
  }

  lemma Hex4RoundTrip(n: nat, rest: string)
    requires n < 0x10000
    ensures ParseHex4(Hex4(n) + rest) == Some(n)
  {
    var s := Hex4(n) + rest;
    var q1 := n / 16;
    var q2 := q1 / 16;
    var q3 := q2 / 16;
    assert n == q1 * 16 + n % 16;
    assert q1 == q2 * 16 + q1 % 16;
    assert q2 == q3 * 16 + q2 % 16;
    assert q3 < 16;
    HexDigitValue(q3);
    HexDigitValue(q2 % 16);
    HexDigitValue(q1 % 16);
    HexDigitValue(n % 16);
    assert s[0] == HexDigit(q3) && s[1] == HexDigit(q2 % 16);
    assert s[2] == HexDigit(q1 % 16) && s[3] == HexDigit(n % 16);
    assert ((q3 * 16 + q2 % 16) * 16 + q1 % 16) * 16 + n % 16 == n;
  }

  /** How `json.dumps` writes one character of a string. */
  function Escape(c: char): (r: string)
    ensures |r| >= 1
  {
    if c == '"' then "\\\""
    else if c == '\\' then "\\\\"
    else if c == '\n' then "\\n"
    else if c == '\r' then "\\r"
    else if c == '\t' then "\\t"
    else if c as int == 8 then "\\b"
    else if c as int == 12 then "\\f"
    else if ' ' <= c <= '~' then [c]
    else if c as int < 0x10000 then "\\u" + Hex4(c as int)
    else
      var v := c as int - 0x10000;
      "\\u" + Hex4(0xD800 + v / 1024) + "\\u" + Hex4(0xDC00 + v % 1024)
  }

  function EscapeAll(s: string): string
    decreases |s|
  {
    if s == [] then [] else Escape(s[0]) + EscapeAll(s[1..])
  }

  /** `json.dumps` of one string. */
  function EncodeString(s: string): string {
    "\"" + EscapeAll(s) + "\""
  }

  function EncodeItems(tags: seq<string>): string
    requires tags != []
    decreases |tags|
  {
    EncodeString(tags[0]) + (if |tags| == 1 then "" else ", " + EncodeItems(tags[1..]))
  }

  /** `json.dumps(tags)` for a list of strings. */
  function Encode(tags: seq<string>): string {
    if tags == [] then "[]" else "[" + EncodeItems(tags) + "]"
  }

  // ---------------------------------------------------------------- decoding

  predicate IsWhitespace(c: char) {
    c == ' ' || c == '\t' || c == '\n' || c == '\r'
  }

  function SkipWhitespace(s: string): (r: string)
    ensures |r| <= |s|
    ensures r == [] || !IsWhitespace(r[0])
    decreases |s|
  {
    if s != [] && IsWhitespace(s[0]) then SkipWhitespace(s[1..]) else s
  }

  /** A `\u` escape, after the `u`: a code point outside the surrogate range,
      or a high surrogate followed by `\u` and a low surrogate. A lone
      surrogate has no character to stand for and is refused. */
  function ParseUnicode(s: string): (r: Option<(char, string)>)
    ensures r.Some? ==> |r.value.1| < |s|
  {
    match ParseHex4(s)
    case None => None
    case Some(u) =>
      if 0xD800 <= u < 0xDC00 && |s| >= 6 && s[4] == '\\' && s[5] == 'u' then
        match ParseHex4(s[6..])
        case None => None
        case Some(lo) =>
          if 0xDC00 <= lo < 0xE000 then
            Some(((0x10000 + (u - 0xD800) * 1024 + (lo - 0xDC00)) as char, s[10..]))
          else None
      else if 0xD800 <= u < 0xE000 then None
      else Some((u as char, s[4..]))
  }

  /** One escape sequence, after the backslash. */
  function ParseEscape(s: string): (r: Option<(char, string)>)
    ensures r.Some? ==> |r.value.1| < |s|
  {
    if s == [] then None
    else if s[0] == '"' then Some(('"', s[1..]))
    else if s[0] == '\\' then Some(('\\', s[1..]))
    else if s[0] == '/' then Some(('/', s[1..]))
    else if s[0] == 'b' then Some((8 as char, s[1..]))
    else if s[0] == 'f' then Some((12 as char, s[1..]))
    else if s[0] == 'n' then Some(('\n', s[1..]))
    else if s[0] == 'r' then Some(('\r', s[1..]))
    else if s[0] == 't' then Some(('\t', s[1..]))
    else if s[0] == 'u' then ParseUnicode(s[1..])
    else None
  }

  /** The body of a string literal up to its closing quote; yields the
      characters and what follows the quote. */
  function ParseChars(s: string): (r: Option<(string, string)>)
    ensures r.Some? ==> |r.value.1| < |s|
    decreases |s|
  {
    if s == [] then None
    else if s[0] == '"' then Some(([], s[1..]))
    else if s[0] == '\\' then
      match ParseEscape(s[1..])
      case None => None
      case Some((c, rest)) =>
        match ParseChars(rest)
        case None => None
        case Some((body, after)) => Some(([c] + body, after))
    else if s[0] < ' ' then None
    else
      match ParseChars(s[1..])
      case None => None
      case Some((body, after)) => Some(([s[0]] + body, after))
  }

  function ParseString(s: string): (r: Option<(string, string)>)
    ensures r.Some? ==> |r.value.1| < |s|
  {
    if s != [] && s[0] == '"' then ParseChars(s[1..]) else None
  }

  /** The items of a non-empty array, up to and including its closing bracket. */
  function ParseItems(s: string): (r: Option<(seq<string>, string)>)
    ensures r.Some? ==> |r.value.1| < |s|
    decreases |s|
  {
    match ParseString(s)
    case None => None
    case Some((x, rest)) =>
      var t := SkipWhitespace(rest);
      if t != [] && t[0] == ']' then Some(([x], t[1..]))
      else if t != [] && t[0] == ',' then
        match ParseItems(SkipWhitespace(t[1..]))
        case None => None
        case Some((xs, after)) => Some(([x] + xs, after))
      else None
  }

  /** `json.loads(s)` when s is a JSON array of strings; None for anything else. */
  function Decode(s: string): Option<seq<string>> {
    var t := SkipWhitespace(s);
    if t == [] || t[0] != '[' then None
    else
      var u := SkipWhitespace(t[1..]);
      if u != [] && u[0] == ']' then
        if SkipWhitespace(u[1..]) == [] then Some([]) else None
      else
        match ParseItems(u)
        case None => None
        case Some((xs, after)) => if SkipWhitespace(after) == [] then Some(xs) else None
  }

  // ------------------------------------------------------------- round trip

  /** A character `json.dumps` writes as itself is neither a quote, a
      backslash nor a control character. */
  lemma EscapeVerbatim(c: char)
    requires Escape(c)[0] != '\\'
    ensures Escape(c) == [c] && c != '"' && c >= ' '
  {
  }

  /** The characters with a two-character escape. */
  predicate ShortEscaped(c: char) {
    c == '"' || c == '\\' || c == '\n' || c == '\r' || c == '\t' || c as int == 8 || c as int == 12
  }

  lemma EscapeParses(c: char, tail: string)
    requires Escape(c)[0] == '\\'
    ensures ParseEscape(Escape(c)[1..] + tail) == Some((c, tail))
  {
    if ShortEscaped(c) {
      EscapeShortParses(c, tail);
    } else if c as int < 0x10000 {
      EscapeBmpParses(c, tail);
    } else {
      EscapePairParses(c, tail);
    }
  }

  lemma EscapeBmpParses(c: char, tail: string)
    requires !ShortEscaped(c) && !(' ' <= c <= '~') && c as int < 0x10000
    ensures ParseEscape(Escape(c)[1..] + tail) == Some((c, tail))
  {
    var n := c as int;
    assert Escape(c) == "\\u" + Hex4(n);
    assert Escape(c)[1..] + tail == "u" + (Hex4(n) + tail);
    ParseUnicodeBmp(n, tail);
  }

  lemma EscapePairParses(c: char, tail: string)
    requires c as int >= 0x10000
    ensures ParseEscape(Escape(c)[1..] + tail) == Some((c, tail))
  {
    var v := c as int - 0x10000;
    var a, b := Hex4(0xD800 + v / 1024), Hex4(0xDC00 + v % 1024);
    EscapeAstral(c);
    assert Escape(c) == "\\u" + a + "\\u" + b;
    DropBackslash(a, b, tail);
    var rest := a + "\\u" + b + tail;
    assert Escape(c)[1..] + tail == "u" + rest;
    ParseEscapeU(rest);
    ParseOffsetPair(v, tail);
    assert ParseUnicode(rest) == Some(((0x10000 + v) as char, tail));
    assert (0x10000 + v) as char == c;
  }

  /** The surrogate pair of escapes for a supplementary-plane offset reads
      back as the character at that offset. */
  lemma ParseOffsetPair(v: int, tail: string)
    requires 0 <= v < 0x100000
    ensures ParseUnicode(Hex4(0xD800 + v / 1024) + "\\u" + Hex4(0xDC00 + v % 1024) + tail)
            == Some(((0x10000 + v) as char, tail))
  {
    SurrogateSplit(v);
    var hi, lo := 0xD800 + v / 1024, 0xDC00 + v % 1024;
    ParseUnicodePair(hi, lo, tail);
    assert 0x10000 + (hi - 0xD800) * 1024 + (lo - 0xDC00) == 0x10000 + v;
  }

  /** A `u` after the backslash starts a `\uXXXX` escape. */
  lemma ParseEscapeU(rest: string)
    ensures ParseEscape("u" + rest) == ParseUnicode(rest)
  {
    assert ("u" + rest)[1..] == rest;
  }

  /** What follows the backslash of a surrogate pair of escapes. */
  lemma DropBackslash(a: string, b: string, tail: string)
    ensures ("\\u" + a + "\\u" + b)[1..] + tail == "u" + (a + "\\u" + b + tail)
  {
  }

  /** A character above U+FFFF is written as a surrogate pair of escapes. */
  lemma EscapeAstral(c: char)
    requires c as int >= 0x10000
    ensures var v := c as int - 0x10000;
            v / 1024 < 1024 &&
            Escape(c) == "\\u" + Hex4(0xD800 + v / 1024) + "\\u" + Hex4(0xDC00 + v % 1024)
  {
    SurrogateSplit(c as int - 0x10000);
  }

  /** The high and low ten bits of a supplementary-plane offset. */
  lemma SurrogateSplit(v: int)
    requires 0 <= v < 0x100000
    ensures 0 <= v / 1024 < 1024 && 0 <= v % 1024 < 1024
    ensures (v / 1024) * 1024 + v % 1024 == v
  {
  }

  lemma EscapeShortParses(c: char, tail: string)
    requires ShortEscaped(c)
    ensures ParseEscape(Escape(c)[1..] + tail) == Some((c, tail))
  {
    var e := Escape(c);
    assert |e| == 2;
    assert (e[1..] + tail)[1..] == tail;
  }

  lemma ParseUnicodeBmp(n: nat, tail: string)
    requires n < 0xD800 || 0xE000 <= n < 0x10000
    ensures ParseUnicode(Hex4(n) + tail) == Some((n as char, tail))
  {
    Hex4RoundTrip(n, tail);
    assert (Hex4(n) + tail)[4..] == tail;
  }

  lemma ParseUnicodePair(hi: nat, lo: nat, tail: string)
    requires 0xD800 <= hi < 0xDC00 && 0xDC00 <= lo < 0xE000
    ensures 0x10000 + (hi - 0xD800) * 1024 + (lo - 0xDC00) < 0x110000
    ensures ParseUnicode(Hex4(hi) + "\\u" + Hex4(lo) + tail)
            == Some(((0x10000 + (hi - 0xD800) * 1024 + (lo - 0xDC00)) as char, tail))
  {
    var s := Hex4(hi) + "\\u" + Hex4(lo) + tail;
    Hex4RoundTrip(hi, "\\u" + Hex4(lo) + tail);
    assert s[4] == '\\' && s[5] == 'u';
    assert s[6..] == Hex4(lo) + tail;
    Hex4RoundTrip(lo, tail);
    assert s[10..] == tail;
  }

  /** One written character in front of a parsable string body reads back as
      itself, followed by that body. */
  lemma ParseCharsStep(c: char, tail: string, body: string, after: string)
    requires ParseChars(tail) == Some((body, after))
    ensures ParseChars(Escape(c) + tail) == Some(([c] + body, after))
  {
    var input := Escape(c) + tail;
    if Escape(c)[0] == '\\' {
      assert input[1..] == Escape(c)[1..] + tail;
      EscapeParses(c, tail);
    } else {
      EscapeVerbatim(c);
      assert input[1..] == tail;
    }
  }

  lemma {:induction false} ParseEscapedChars(s: string, rest: string)
    ensures ParseChars(EscapeAll(s) + "\"" + rest) == Some((s, rest))
    decreases |s|
  {
    if s == [] {
      assert EscapeAll(s) + "\"" + rest == "\"" + rest;
    } else {
      var c := s[0];
      var tail := EscapeAll(s[1..]) + "\"" + rest;
      assert EscapeAll(s) + "\"" + rest == Escape(c) + tail;
      ParseEscapedChars(s[1..], rest);
      ParseCharsStep(c, tail, s[1..], rest);
      assert s == [c] + s[1..];
    }
  }

  lemma ParseEncodedString(s: string, rest: string)
    ensures ParseString(EncodeString(s) + rest) == Some((s, rest))
  {
    assert (EncodeString(s) + rest)[1..] == EscapeAll(s) + "\"" + rest;
    ParseEscapedChars(s, rest);
  }

  lemma {:induction false} ParseEncodedItems(tags: seq<string>, rest: string)
    requires tags != []
    ensures ParseItems(EncodeItems(tags) + "]" + rest) == Some((tags, rest))
    decreases |tags|
  {
    if |tags| == 1 {
      assert EncodeItems(tags) == EncodeString(tags[0]);
      ParseLastItem(tags[0], rest);
      assert tags == [tags[0]];
    } else {
      var more := EncodeItems(tags[1..]) + "]" + rest;
      assert EncodeItems(tags) + "]" + rest == EncodeString(tags[0]) + ", " + more;
      EncodeItemsOpensQuote(tags[1..]);
      ParseEncodedItems(tags[1..], rest);
      ParseNextItem(tags[0], more, tags[1..], rest);
      assert tags == [tags[0]] + tags[1..];
    }
  }

  lemma EncodeItemsOpensQuote(tags: seq<string>)
    requires tags != []
    ensures EncodeItems(tags)[0] == '"'
  {
  }

  lemma SkipNonWhitespace(s: string)
    requires s != [] && !IsWhitespace(s[0])
    ensures SkipWhitespace(s) == s
  {
  }

  /** Unfolding ParseItems at an item followed by a closing bracket. */
  lemma ParseItemsLast(s: string, x: string, rest: string)
    requires ParseString(s) == Some((x, rest))
    requires SkipWhitespace(rest) != [] && SkipWhitespace(rest)[0] == ']'
    ensures ParseItems(s) == Some(([x], SkipWhitespace(rest)[1..]))
  {
  }

  /** Unfolding ParseItems at an item followed by a comma. */
  lemma ParseItemsComma(s: string, x: string, rest: string, xs: seq<string>, after: string)
    requires ParseString(s) == Some((x, rest))
    requires SkipWhitespace(rest) != [] && SkipWhitespace(rest)[0] == ','
    requires ParseItems(SkipWhitespace(SkipWhitespace(rest)[1..])) == Some((xs, after))
    ensures ParseItems(s) == Some(([x] + xs, after))
  {
  }

  lemma ParseLastItem(x: string, rest: string)
    ensures ParseItems(EncodeString(x) + "]" + rest) == Some(([x], rest))
  {
    var tail := "]" + rest;
    assert EncodeString(x) + "]" + rest == EncodeString(x) + tail;
    ParseEncodedString(x, tail);
    SkipNonWhitespace(tail);
    assert tail[1..] == rest;
    ParseItemsLast(EncodeString(x) + tail, x, tail);
  }

  lemma ParseNextItem(x: string, more: string, xs: seq<string>, after: string)
    requires more != [] && more[0] == '"'
    requires ParseItems(more) == Some((xs, after))
    ensures ParseItems(EncodeString(x) + ", " + more) == Some(([x] + xs, after))
  {
    var tail := ", " + more;
    assert EncodeString(x) + ", " + more == EncodeString(x) + tail;
    ParseEncodedString(x, tail);
    SkipNonWhitespace(tail);
    SkipCommaSpace(more);
    ParseItemsComma(EncodeString(x) + tail, x, tail, xs, after);
  }

  lemma SkipCommaSpace(more: string)
    requires more != [] && more[0] == '"'
    ensures (", " + more)[0] == ','
    ensures SkipWhitespace((", " + more)[1..]) == more
  {
    assert (", " + more)[1..] == " " + more;
    SkipNonWhitespace(more);
  }

  /** Decoding what the encoder writes gives the tags back. */
  lemma DecodeEncode(tags: seq<string>)
    ensures Decode(Encode(tags)) == Some(tags)
  {
    if tags == [] {
      DecodeEmpty();
    } else {
      DecodeEncodeNonEmpty(tags);
    }
  }

  lemma DecodeEmpty()
    ensures Decode("[]") == Some([])
  {
    assert SkipWhitespace("[]") == "[]";
    assert "[]"[1..] == "]";
    assert SkipWhitespace("]") == "]";
    assert "]"[1..] == [];
  }

  lemma DecodeEncodeNonEmpty(tags: seq<string>)
    requires tags != []
    ensures Decode(Encode(tags)) == Some(tags)
  {
    var items := EncodeItems(tags);
    var s := "[" + items + "]";
    assert Encode(tags) == s;
    EncodeItemsOpensQuote(tags);
    assert s[0] == '[';
    SkipNonWhitespace(s);
    assert s[1..] == items + "]" + "";
    SkipNonWhitespace(s[1..]);
    ParseEncodedItems(tags, "");
    assert SkipWhitespace("") == "";
  }

  // ------------------------------------------------------------ stored form

  /** The column value `create_expense` and `update_expense` store: the JSON
      text of a non-empty tag list, and no value for an empty or absent list. */
  function EncodeStored(tags: Option<seq<string>>): (r: Option<string>)
    ensures r.None? <==> tags.None? || tags.value == []
  {
    if tags.None? || tags.value == [] then None else Some(Encode(tags.value))
  }

  /** The tag list shown for a stored value: empty when the column is empty or
      does not decode, the decoded list otherwise. */
  function DecodeStored(stored: Option<string>): (r: seq<string>)
    ensures stored.None? || stored.value == "" ==> r == []
    ensures stored.Some? && Decode(stored.value).None? ==> r == []
    ensures stored.Some? && stored.value != "" && Decode(stored.value).Some?
            ==> r == Decode(stored.value).value
  {
    if stored.None? || stored.value == "" then []
    else match Decode(stored.value)
      case None => []
      case Some(t) => t
  }

  /** Tags written by the repository read back unchanged in every response. */
  lemma DecodeStoredEncodeStored(tags: Option<seq<string>>)
    ensures DecodeStored(EncodeStored(tags)) == (if tags.None? then [] else tags.value)
  {
    if tags.Some? && tags.value != [] {
      DecodeEncode(tags.value);
    }
  }

  /** A stored value that is not a JSON array of strings reads as no tags. */
  lemma DecodeStoredFallback(stored: Option<string>)
    requires stored.Some? && Decode(stored.value).None?
    ensures DecodeStored(stored) == []
  {
  }
}
