/** The wire format between the stream relay and the chat client: every event
    is one frame `data: <JSON>\n\n` whose JSON is `{"content": <string>}` (one
    fragment) or `{"done": true}` (the terminal signal). `Encode` is what
    `JSON.stringify` produces for these two objects; `Decode` is `JSON.parse`
    restricted to the same two shapes. */
module Frames {
  import opened Base

  datatype Payload = Content(text: string) | Done

  const HexDigits: string := "0123456789abcdef"

  /** `JSON.stringify`'s escape for one character inside a string literal:
      the quote and the backslash, the five short control escapes and
      `\u00xx` (lower-case hex) for the other control characters. */
  function EscapeChar(c: char): (e: string)
    ensures |e| >= 1
    ensures '\n' !in e
  {
    if c == '"' then "\\\""
    else if c == '\\' then "\\\\"
    else if c == '\U{8}' then "\\b"
    else if c == '\U{C}' then "\\f"
    else if c == '\n' then "\\n"
    else if c == '\r' then "\\r"
    else if c == '\t' then "\\t"
    else if c < ' ' then "\\u00" + [HexDigits[c as int / 16], HexDigits[c as int % 16]]
    else [c]
  }

  function Escape(s: string): string {
    if s == [] then "" else EscapeChar(s[0]) + Escape(s[1..])
  }

  const ContentPrefix: string := "{\"content\":\""
  const ContentSuffix: string := "\"}"
  const DoneJson: string := "{\"done\":true}"

  /** `JSON.stringify({content})` and `JSON.stringify({done: true})`. */
  function Encode(p: Payload): string {
    match p
    case Content(t) => ContentPrefix + Escape(t) + ContentSuffix
    case Done => DoneJson
  }

  const DataPrefix: string := "data: "

  /** One frame as the relay writes it. */
  function Frame(p: Payload): string {
    DataPrefix + Encode(p) + "\n\n"
  }

  function HexValue(c: char): Option<nat> {
    if '0' <= c <= '9' then Some(c as int - '0' as int)
    else if 'a' <= c <= 'f' then Some(c as int - 'a' as int + 10)
    else if 'A' <= c <= 'F' then Some(c as int - 'A' as int + 10)
    else None
  }

  function Cons(c: char, rest: Option<string>): Option<string> {
    if rest.Some? then Some([c] + rest.value) else None
  }

  /** The character that the head of a JSON string body denotes, with the
      number of input characters it takes: a plain character, a short escape or
      a `\u` escape. None when the head is not well formed (a bare quote or
      control character, a bad escape, or a `\u` escape naming a surrogate,
      which is not a character). */
  function Head(s: string): (r: Option<(char, nat)>)
    requires s != []
    ensures r.Some? ==> 1 <= r.value.1 <= |s|
  {
    if s[0] == '"' || s[0] < ' ' then None
    else if s[0] != '\\' then Some((s[0], 1))
    else if |s| < 2 then None
    else if s[1] == '"' then Some(('"', 2))
    else if s[1] == '\\' then Some(('\\', 2))
    else if s[1] == '/' then Some(('/', 2))
    else if s[1] == 'b' then Some(('\U{8}', 2))
    else if s[1] == 'f' then Some(('\U{C}', 2))
    else if s[1] == 'n' then Some(('\n', 2))
    else if s[1] == 'r' then Some(('\r', 2))
    else if s[1] == 't' then Some(('\t', 2))
    else if s[1] == 'u' && |s| >= 6 then
      var h0, h1, h2, h3 := HexValue(s[2]), HexValue(s[3]), HexValue(s[4]), HexValue(s[5]);
      if h0.None? || h1.None? || h2.None? || h3.None? then None
      else
        var n := ((h0.value * 16 + h1.value) * 16 + h2.value) * 16 + h3.value;
        if 0xD800 <= n < 0xE000 then None
        else Some((n as char, 6))
    else None
  }

  /** The characters denoted by the body of a JSON string literal, or None when
      the body is not well formed. */
  function Unescape(s: string): Option<string>
    decreases |s|
  {
    if s == [] then Some("")
    else
      match Head(s)
      case None => None
      case Some((c, k)) => Cons(c, Unescape(s[k..]))
  }

  /** `JSON.parse` on the two shapes the relay produces; any other text is
      reported as None (the client ignores it either way). */
  function Decode(json: string): Option<Payload> {
    if json == DoneJson then Some(Done)
    else if ContentPrefix <= json && |json| >= |ContentPrefix| + |ContentSuffix|
            && json[|json| - |ContentSuffix|..] == ContentSuffix then
      var body := Unescape(json[|ContentPrefix|..|json| - |ContentSuffix|]);
      if body.Some? then Some(Content(body.value)) else None
    else None
  }

  /** A control character other than the five with short escapes is read
      back from its `\u00xx` form. */
  lemma HeadControl(c: char, rest: string)
    requires c < ' ' && c != '\U{8}' && c != '\U{C}' && c != '\n' && c != '\r' && c != '\t'
    ensures Head(EscapeChar(c) + rest) == Some((c, 6))
  {
    var e := EscapeChar(c) + rest;
    var hi, lo := c as int / 16, c as int % 16;
    assert e[0] == '\\' && e[1] == 'u' && e[2] == '0' && e[3] == '0';
    assert e[4] == HexDigits[hi] && e[5] == HexDigits[lo];
    assert HexValue(e[4]) == Some(hi) by {
      assert hi == 0 || hi == 1;
    }
    assert HexValue(e[5]) == Some(lo) by {
      assert 0 <= lo < 16;
      if lo < 10 { assert HexDigits[lo] as int == '0' as int + lo; }
      else { assert HexDigits[lo] as int == 'a' as int + lo - 10; }
    }
    assert (hi * 16 + lo) as char == c;
  }

  /** The escape of a character is read back as that character, whatever
      follows it. */
  lemma HeadEscapeChar(c: char, rest: string)
    ensures Head(EscapeChar(c) + rest) == Some((c, |EscapeChar(c)|))
  {
    if c < ' ' && c != '\U{8}' && c != '\U{C}' && c != '\n' && c != '\r' && c != '\t' {
      HeadControl(c, rest);
    }
  }

  lemma UnescapeChar(c: char, rest: string)
    ensures Unescape(EscapeChar(c) + rest) == Cons(c, Unescape(rest))
  {
    var e := EscapeChar(c) + rest;
    HeadEscapeChar(c, rest);
    assert e[|EscapeChar(c)|..] == rest;
  }

  /** Unescaping undoes escaping: every string survives the trip. */
  lemma {:induction false} UnescapeEscape(s: string)
    ensures Unescape(Escape(s)) == Some(s)
  {
    if s != [] {
      UnescapeEscape(s[1..]);
      UnescapeChar(s[0], Escape(s[1..]));
      assert [s[0]] + s[1..] == s;
    }
  }

  lemma {:induction false} EscapeNoNewline(s: string)
    ensures '\n' !in Escape(s)
  {
    if s != [] {
      EscapeNoNewline(s[1..]);
    }
  }

  /** What the client decodes is what the relay encoded. */
  lemma DecodeEncode(p: Payload)
    ensures Decode(Encode(p)) == Some(p)
  {
    if p.Content? {
      var json := Encode(p);
      var e := Escape(p.text);
      assert json[2] == 'c' && DoneJson[2] == 'd';
      assert json[|ContentPrefix|..|json| - |ContentSuffix|] == e;
      assert json[|json| - |ContentSuffix|..] == ContentSuffix;
      UnescapeEscape(p.text);
    }
  }

  /** A frame is one line carrying the JSON, an empty line, and the break that
      ends it: the JSON itself never contains a line break. */
  lemma FrameLines(p: Payload)
    ensures '\n' !in DataPrefix + Encode(p)
    ensures Frame(p) == (DataPrefix + Encode(p)) + ['\n'] + ("" + ['\n'])
  {
    if p.Content? {
      EscapeNoNewline(p.text);
    }
  }

  /** The text a payload contributes to the assistant message. */
  function PayloadText(p: Payload): string {
    match p
    case Content(t) => t
    case Done => ""
  }

  function PayloadsText(ps: seq<Payload>): string {
    if ps == [] then "" else PayloadText(ps[0]) + PayloadsText(ps[1..])
  }

  /** One content payload per character of `s`. */
  function CharPayloads(s: string): (ps: seq<Payload>)
    ensures |ps| == |s|
  {
    seq(|s|, i requires 0 <= i < |s| => Content([s[i]]))
  }

  /** One content payload per fragment. */
  function ContentPayloads(parts: seq<string>): (ps: seq<Payload>)
    ensures |ps| == |parts|
  {
    seq(|parts|, i requires 0 <= i < |parts| => Content(parts[i]))
  }

  lemma {:induction false} PayloadsTextJoin(a: seq<Payload>, b: seq<Payload>)
    ensures PayloadsText(a + b) == PayloadsText(a) + PayloadsText(b)
  {
    if a == [] {
      assert a + b == b;
    } else {
      assert (a + b)[0] == a[0];
      assert (a + b)[1..] == a[1..] + b;
      PayloadsTextJoin(a[1..], b);
    }
  }

  /** Sending a string one character per frame delivers the whole string. */
  lemma {:induction false} CharPayloadsText(s: string)
    ensures PayloadsText(CharPayloads(s)) == s
  {
    if s != [] {
      assert CharPayloads(s)[1..] == CharPayloads(s[1..]);
      CharPayloadsText(s[1..]);
      assert [s[0]] + s[1..] == s;
    }
  }

  /** Sending fragments one per frame delivers their concatenation. */
  lemma {:induction false} ContentPayloadsText(parts: seq<string>)
    ensures PayloadsText(ContentPayloads(parts)) == Concat(parts)
  {
    if parts != [] {
      assert ContentPayloads(parts)[1..] == ContentPayloads(parts[1..]);
      ContentPayloadsText(parts[1..]);
    }
  }
}
