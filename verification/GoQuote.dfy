/** strconv.Quote on valid UTF-8 strings, with its table of printable runes as a parameter, and a
    reader that takes the quoted text apart again. */
module GoQuote {
  import opened Prelude

  // ---------------------------------------------------------------------------
  // Hexadecimal.
  // ---------------------------------------------------------------------------

  function Digit(n: nat): char
    requires n < 16
  {
    "0123456789abcdef"[n]
  }

  function DigitValue(c: char): Option<nat> {
    if '0' <= c <= '9' then Some((c - '0') as nat)
    else if 'a' <= c <= 'f' then Some((c - 'a') as nat + 10)
    else None
  }

  /** The last `width` hexadecimal digits of `n`. */
  function Hex(n: nat, width: nat): (s: string)
    ensures |s| == width
  {
    if width == 0 then "" else Hex(n / 16, width - 1) + [Digit(n % 16)]
  }

  function HexValue(s: string): Option<nat> {
    if s == "" then Some(0)
    else
      match (HexValue(s[..|s| - 1]), DigitValue(s[|s| - 1]))
      case (Some(high), Some(low)) => Some(high * 16 + low)
      case _ => None
  }

  function Power16(width: nat): nat {
    if width == 0 then 1 else 16 * Power16(width - 1)
  }

  lemma DigitRoundTrip(n: nat)
    requires n < 16
    ensures DigitValue(Digit(n)) == Some(n)
  {
  }

  lemma {:induction false} HexRoundTrip(n: nat, width: nat)
    requires n < Power16(width)
    ensures HexValue(Hex(n, width)) == Some(n)
  {
    if width > 0 {
      HexRoundTrip(n / 16, width - 1);
      DigitRoundTrip(n % 16);
      hide Digit, DigitValue;
      var s := Hex(n, width);
      assert s[..width - 1] == Hex(n / 16, width - 1);
    }
  }

  lemma Powers()
    ensures Power16(2) == 0x100 && Power16(4) == 0x10000 && Power16(8) == 0x1_0000_0000
  {
    assert Power16(2) == 16 * Power16(1) == 256 * Power16(0);
    assert Power16(4) == 16 * Power16(3) == 256 * Power16(2);
    assert Power16(6) == 16 * Power16(5) == 256 * Power16(4);
    assert Power16(8) == 16 * Power16(7) == 256 * Power16(6);
  }

  // ---------------------------------------------------------------------------
  // Quoting.
  // ---------------------------------------------------------------------------

  const ALERT := 7 as char
  const BACKSPACE := 8 as char
  const VERTICAL_TAB := 11 as char
  const FORM_FEED := 12 as char

  function Escape(c: char, isPrint: char -> bool): string {
    if c == '"' || c == '\\' then ['\\', c]
    else if isPrint(c) then [c]
    else if c == ALERT then ['\\', 'a']
    else if c == BACKSPACE then ['\\', 'b']
    else if c == FORM_FEED then ['\\', 'f']
    else if c == '\n' then ['\\', 'n']
    else if c == '\r' then ['\\', 'r']
    else if c == '\t' then ['\\', 't']
    else if c == VERTICAL_TAB then ['\\', 'v']
    else if c < ' ' || c as int == 0x7f then ['\\', 'x'] + Hex(c as nat, 2)
    else if c as int < 0x10000 then ['\\', 'u'] + Hex(c as nat, 4)
    else ['\\', 'U'] + Hex(c as nat, 8)
  }

  function EscapeAll(s: string, isPrint: char -> bool): string {
    if s == "" then "" else Escape(s[0], isPrint) + EscapeAll(s[1..], isPrint)
  }

  function Quote(s: string, isPrint: char -> bool): string {
    ['"'] + EscapeAll(s, isPrint) + ['"']
  }

  /** A printable character but the quote and the backslash stands for itself. */
  lemma {:induction false} PlainTextIsQuotedAsIs(s: string, isPrint: char -> bool)
    requires forall i :: 0 <= i < |s| ==> isPrint(s[i]) && s[i] != '"' && s[i] != '\\'
    ensures EscapeAll(s, isPrint) == s && Quote(s, isPrint) == ['"'] + s + ['"']
  {
    if s != "" {
      PlainTextIsQuotedAsIs(s[1..], isPrint);
    }
  }

  /** Any other escape begins with a backslash and is as short as Go has it: a letter for the seven
      control characters that have one, two digits for the other ASCII ones, then four, then eight. */
  lemma EscapesAreShort(c: char, isPrint: char -> bool)
    requires c == '"' || c == '\\' || !isPrint(c)
    ensures Escape(c, isPrint)[..1] == ['\\']
    ensures |Escape(c, isPrint)| ==
      if c == '"' || c == '\\' || 7 <= c as int <= 13 then 2
      else if c as int < 32 || c as int == 127 then 4
      else if c as int < 65536 then 6
      else 10
  {
  }

  // ---------------------------------------------------------------------------
  // Reading it back.
  // ---------------------------------------------------------------------------

  datatype Read<T> = Read(value: T, rest: string)

  function CharOf(n: nat): Option<char> {
    if n < 0xD800 || 0xE000 <= n < 0x11_0000 then Some(n as char) else None
  }

  function ReadHex(s: string, width: nat): (r: Option<Read<char>>)
    ensures r.Some? ==> |r.value.rest| <= |s|
  {
    if |s| < width || HexValue(s[..width]).None? || CharOf(HexValue(s[..width]).value).None? then None
    else Some(Read(CharOf(HexValue(s[..width]).value).value, s[width..]))
  }

  /** The letter after a backslash, when it stands for one character by itself. */
  function Simple(c: char): Option<char> {
    match c
    case '"' => Some('"')
    case '\\' => Some('\\')
    case 'a' => Some(ALERT)
    case 'b' => Some(BACKSPACE)
    case 'f' => Some(FORM_FEED)
    case 'n' => Some('\n')
    case 'r' => Some('\r')
    case 't' => Some('\t')
    case 'v' => Some(VERTICAL_TAB)
    case _ => None
  }

  function ReadChar(s: string): (r: Option<Read<char>>)
    requires s != ""
    ensures r.Some? ==> |r.value.rest| < |s|
  {
    if s[0] != '\\' then Some(Read(s[0], s[1..]))
    else if |s| < 2 then None
    else if Simple(s[1]).Some? then Some(Read(Simple(s[1]).value, s[2..]))
    else if s[1] == 'x' then ReadHex(s[2..], 2)
    else if s[1] == 'u' then ReadHex(s[2..], 4)
    else if s[1] == 'U' then ReadHex(s[2..], 8)
    else None
  }

  /** Up to the closing quote. */
  function ReadBody(s: string): Option<Read<string>>
    decreases |s|
  {
    if s == "" then None
    else if s[0] == '"' then Some(Read("", s[1..]))
    else
      match ReadChar(s)
      case None => None
      case Some(first) =>
        match ReadBody(first.rest)
        case None => None
        case Some(others) => Some(Read([first.value] + others.value, others.rest))
  }

  function ReadQuoted(s: string): Option<Read<string>> {
    if s == "" || s[0] != '"' then None else ReadBody(s[1..])
  }

  lemma ReadHexOfChar(c: char, width: nat, rest: string)
    requires c as nat < Power16(width)
    ensures ReadHex(Hex(c as nat, width) + rest, width) == Some(Read(c, rest))
  {
    HexRoundTrip(c as nat, width);
    hide HexValue, Hex;
    var s := Hex(c as nat, width) + rest;
    assert s[..width] == Hex(c as nat, width) && s[width..] == rest;
  }

  lemma ReadEscaped(c: char, isPrint: char -> bool, rest: string)
    ensures ReadChar(Escape(c, isPrint) + rest) == Some(Read(c, rest))
    ensures (Escape(c, isPrint) + rest)[0] != '"'
  {
    hide ReadHex, Hex, Power16;
    var escaped := Escape(c, isPrint);
    var s := escaped + rest;
    if |escaped| == 1 {
      assert s[1..] == rest;
    } else if Simple(escaped[1]).Some? {
      assert s[2..] == rest;
    } else {
      Powers();
      var width := if escaped[1] == 'x' then 2 else if escaped[1] == 'u' then 4 else 8;
      ReadHexOfChar(c, width, rest);
      assert s[2..] == Hex(c as nat, width) + rest;
    }
  }

  lemma {:induction false} ReadBodyOfEscaped(s: string, isPrint: char -> bool, rest: string)
    ensures ReadBody(EscapeAll(s, isPrint) + ['"'] + rest) == Some(Read(s, rest))
  {
    hide Escape, ReadChar;
    if s == "" {
      assert (EscapeAll(s, isPrint) + ['"'] + rest)[1..] == rest;
    } else {
      var others := EscapeAll(s[1..], isPrint) + ['"'] + rest;
      ReadBodyOfEscaped(s[1..], isPrint, rest);
      ReadEscaped(s[0], isPrint, others);
      assert EscapeAll(s, isPrint) + ['"'] + rest == Escape(s[0], isPrint) + others;
      assert s == [s[0]] + s[1..];
    }
  }

  /** The reader takes back exactly the quoted string, whatever follows it. */
  lemma QuoteRoundTrip(s: string, isPrint: char -> bool, rest: string)
    ensures ReadQuoted(Quote(s, isPrint) + rest) == Some(Read(s, rest))
  {
    ReadBodyOfEscaped(s, isPrint, rest);
    assert (Quote(s, isPrint) + rest)[1..] == EscapeAll(s, isPrint) + ['"'] + rest;
  }
}
