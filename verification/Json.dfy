/** The JSON texts the compressor writes (objects, arrays and strings, no insignificant whitespace) with a parser
    for the same part of the grammar: sections 4, 5 and 7 of RFC 8259. */
module Json {
  import opened Common

  datatype Value = Str(text: string) | Obj(members: seq<Member>) | Arr(elements: seq<Value>)

  datatype Member = Member(key: string, value: Value)

  const HEX: string := "0123456789abcdef"

  /** How `json.dumps(ensure_ascii=False)` writes one character of a string. */
  function Escape(c: char): (r: string)
    ensures r != ""
  {
    if c == '"' then "\\\""
    else if c == '\\' then "\\\\"
    else if c == '\n' then "\\n"
    else if c == '\r' then "\\r"
    else if c == '\t' then "\\t"
    else if c == '\U{8}' then "\\b"
    else if c == '\U{C}' then "\\f"
    else if c as int < 0x20 then "\\u00" + [HEX[c as int / 16], HEX[c as int % 16]]
    else [c]
  }

  function EscapeAll(s: string): string {
    if s == "" then "" else Escape(s[0]) + EscapeAll(s[1..])
  }

  function Quote(s: string): string {
    "\"" + EscapeAll(s) + "\""
  }

  function Print(v: Value): (r: string)
    ensures r != ""
    decreases v, 0
  {
    match v
    case Str(text) => Quote(text)
    case Obj(members) => "{" + PrintMembers(members) + "}"
    case Arr(elements) => "[" + PrintElements(elements) + "]"
  }

  function PrintMembers(ms: seq<Member>): string
    decreases ms, 1
  {
    if ms == [] then ""
    else
      var first := Quote(ms[0].key) + ":" + Print(ms[0].value);
      if |ms| == 1 then first else first + "," + PrintMembers(ms[1..])
  }

  function PrintElements(vs: seq<Value>): string
    decreases vs, 1
  {
    if vs == [] then ""
    else if |vs| == 1 then Print(vs[0])
    else Print(vs[0]) + "," + PrintElements(vs[1..])
  }

  function HexDigit(c: char): Option<nat> {
    if '0' <= c <= '9' then Some(c as int - '0' as int)
    else if 'a' <= c <= 'f' then Some(c as int - 'a' as int + 10)
    else if 'A' <= c <= 'F' then Some(c as int - 'A' as int + 10)
    else None
  }

  /** The character after a backslash, and how many characters its escape takes. A surrogate is not a character. */
  function Unescape(t: string): Option<(char, nat)> {
    if t == "" then None
    else if t[0] == '"' || t[0] == '\\' || t[0] == '/' then Some((t[0], 1))
    else if t[0] == 'n' then Some(('\n', 1))
    else if t[0] == 'r' then Some(('\r', 1))
    else if t[0] == 't' then Some(('\t', 1))
    else if t[0] == 'b' then Some(('\U{8}', 1))
    else if t[0] == 'f' then Some(('\U{C}', 1))
    else if t[0] == 'u' && |t| >= 5 then
      (match (HexDigit(t[1]), HexDigit(t[2]), HexDigit(t[3]), HexDigit(t[4]))
       case (Some(a), Some(b), Some(c), Some(d)) =>
         var code := ((a * 16 + b) * 16 + c) * 16 + d;
         if code < 0xD800 || 0xE000 <= code < 0x10000 then Some((code as char, 5)) else None
       case _ => None)
    else None
  }

  /** The rest of a string, up to and including its closing quotation mark. */
  function ParseChars(t: string): (r: Option<(string, string)>)
    ensures r.Some? ==> |r.value.1| < |t|
    decreases |t|
  {
    if t == "" || t[0] as int < 0x20 then None
    else if t[0] == '"' then Some(("", t[1..]))
    else if t[0] == '\\' then
      match Unescape(t[1..])
      case None => None
      case Some((c, n)) =>
        if n >= |t| then None
        else
          match ParseChars(t[1 + n..])
          case None => None
          case Some((s, rest)) => Some(([c] + s, rest))
    else
      match ParseChars(t[1..])
      case None => None
      case Some((s, rest)) => Some(([t[0]] + s, rest))
  }

  function ParseString(t: string): (r: Option<(string, string)>)
    ensures r.Some? ==> |r.value.1| < |t|
  {
    if t == "" || t[0] != '"' then None else ParseChars(t[1..])
  }

  function Parse(t: string): (r: Option<(Value, string)>)
    ensures r.Some? ==> |r.value.1| < |t|
    decreases |t|, 0
  {
    if t == "" then None
    else if t[0] == '{' then
      if |t| > 1 && t[1] == '}' then Some((Obj([]), t[2..]))
      else
        match ParseMembers(t[1..])
        case None => None
        case Some((ms, rest)) => Some((Obj(ms), rest))
    else if t[0] == '[' then
      if |t| > 1 && t[1] == ']' then Some((Arr([]), t[2..]))
      else
        match ParseElements(t[1..])
        case None => None
        case Some((vs, rest)) => Some((Arr(vs), rest))
    else
      match ParseString(t)
      case None => None
      case Some((s, rest)) => Some((Str(s), rest))
  }

  /** One or more members and the closing brace. */
  function ParseMembers(t: string): (r: Option<(seq<Member>, string)>)
    ensures r.Some? ==> |r.value.1| < |t|
    decreases |t|, 1
  {
    match ParseString(t)
    case None => None
    case Some((key, afterKey)) =>
      if afterKey == "" || afterKey[0] != ':' then None
      else
        match Parse(afterKey[1..])
        case None => None
        case Some((v, rest)) =>
          if rest == "" then None
          else if rest[0] == '}' then Some(([Member(key, v)], rest[1..]))
          else if rest[0] != ',' then None
          else
            match ParseMembers(rest[1..])
            case None => None
            case Some((ms, end)) => Some(([Member(key, v)] + ms, end))
  }

  /** One or more elements and the closing bracket. */
  function ParseElements(t: string): (r: Option<(seq<Value>, string)>)
    ensures r.Some? ==> |r.value.1| < |t|
    decreases |t|, 1
  {
    match Parse(t)
    case None => None
    case Some((v, rest)) =>
      if rest == "" then None
      else if rest[0] == ']' then Some(([v], rest[1..]))
      else if rest[0] != ',' then None
      else
        match ParseElements(rest[1..])
        case None => None
        case Some((vs, end)) => Some(([v] + vs, end))
  }

  lemma ControlEscapeReads(c: char, rest: string)
    requires c as int < 0x20
    ensures Unescape("u00" + [HEX[c as int / 16], HEX[c as int % 16]] + rest) == Some((c, 5))
  {
    var t := "u00" + [HEX[c as int / 16], HEX[c as int % 16]] + rest;
    assert t[0] == 'u' && t[1] == '0' && t[2] == '0';
    assert t[3] == HEX[c as int / 16] && t[4] == HEX[c as int % 16];
    HexDigitReads(c as int / 16);
    HexDigitReads(c as int % 16);
  }

  lemma HexDigitReads(n: nat)
    requires n < 16
    ensures HexDigit(HEX[n]) == Some(n)
  {
  }

  /** `s` read after one more character. */
  function Prepend(c: char, read: Option<(string, string)>): Option<(string, string)> {
    match read
    case None => None
    case Some((s, end)) => Some(([c] + s, end))
  }

  lemma ShortEscapeReads(c: char, rest: string)
    requires |Escape(c)| == 2
    ensures ParseChars(Escape(c) + rest) == Prepend(c, ParseChars(rest))
  {
    assert Escape(c) == ['\\', Escape(c)[1]];
    TwoCharacters('\\', Escape(c)[1], rest);
  }

  lemma TwoCharacters(a: char, b: char, rest: string)
    ensures ([a, b] + rest)[1..] == [b] + rest && ([a, b] + rest)[2..] == rest
  {
  }

  lemma LongEscapeReads(c: char, rest: string)
    requires |Escape(c)| > 2
    ensures ParseChars(Escape(c) + rest) == Prepend(c, ParseChars(rest))
  {
    var t := Escape(c) + rest;
    assert t[1..] == "u00" + [HEX[c as int / 16], HEX[c as int % 16]] + rest;
    ControlEscapeReads(c, rest);
    assert t[6..] == rest;
  }

  lemma PlainReads(c: char, rest: string)
    requires |Escape(c)| == 1
    ensures ParseChars(Escape(c) + rest) == Prepend(c, ParseChars(rest))
  {
    assert (Escape(c) + rest)[1..] == rest;
  }

  lemma EscapeReads(c: char, rest: string)
    ensures ParseChars(Escape(c) + rest) == Prepend(c, ParseChars(rest))
  {
    hide *;
    if |Escape(c)| == 1 {
      PlainReads(c, rest);
    } else if |Escape(c)| == 2 {
      ShortEscapeReads(c, rest);
    } else {
      LongEscapeReads(c, rest);
    }
  }

  lemma Concat3(a: string, b: string, c: string, d: string)
    ensures a + b + c + d == a + (b + c + d)
  {
  }

  lemma {:induction false} EscapeAllReads(s: string, rest: string)
    ensures ParseChars(EscapeAll(s) + "\"" + rest) == Some((s, rest))
  {
    if s == "" {
      ClosingQuoteReads(rest);
      assert EscapeAll(s) + "\"" + rest == "\"" + rest;
    } else {
      var first, others := Escape(s[0]), EscapeAll(s[1..]);
      EscapeAllReads(s[1..], rest);
      EscapeReads(s[0], others + "\"" + rest);
      Concat3(first, others, "\"", rest);
      assert EscapeAll(s) == first + others;
      assert s == [s[0]] + s[1..];
    }
  }

  lemma ClosingQuoteReads(rest: string)
    ensures ParseChars("\"" + rest) == Some(("", rest))
  {
    assert ("\"" + rest)[1..] == rest;
  }

  lemma QuoteReads(s: string, rest: string)
    ensures ParseString(Quote(s) + rest) == Some((s, rest))
  {
    EscapeAllReads(s, rest);
    OpeningQuote(EscapeAll(s), rest);
  }

  lemma OpeningQuote(body: string, rest: string)
    ensures var t := "\"" + body + "\"" + rest;
            t[0] == '"' && t[1..] == body + "\"" + rest
  {
  }

  /** A printed value reads back, whatever text follows it. */
  lemma {:induction false} PrintReads(v: Value, rest: string)
    ensures Parse(Print(v) + rest) == Some((v, rest))
    decreases v, 0
  {
    match v
    case Str(text) =>
      QuoteReads(text, rest);
    case Obj(members) =>
      if members != [] {
        MembersRead(members, rest);
        BracedReads('{', PrintMembers(members), '}', rest);
        assert PrintMembers(members)[0] == '"';
      } else {
        BracedReads('{', "", '}', rest);
      }
    case Arr(elements) =>
      if elements != [] {
        ElementsRead(elements, rest);
        BracedReads('[', PrintElements(elements), ']', rest);
        PrintStarts(elements[0]);
        assert PrintElements(elements)[0] == Print(elements[0])[0];
      } else {
        BracedReads('[', "", ']', rest);
      }
  }

  lemma BracedReads(open: char, body: string, close: char, rest: string)
    ensures var t := [open] + body + [close] + rest;
            && t[0] == open && t[1..] == body + [close] + rest
            && (body == "" ==> t[1] == close && t[2..] == rest)
            && (body != "" ==> t[1] == body[0])
  {
  }

  lemma PrintStarts(v: Value)
    ensures Print(v)[0] == '"' || Print(v)[0] == '{' || Print(v)[0] == '['
  {
  }

  /** What follows the first member in the text of an object. */
  function AfterMember(ms: seq<Member>, rest: string): string
    requires ms != []
  {
    (if |ms| == 1 then "}" else "," + PrintMembers(ms[1..]) + "}") + rest
  }

  lemma FirstMember(ms: seq<Member>, rest: string)
    requires ms != []
    ensures PrintMembers(ms) + "}" + rest == Quote(ms[0].key) + (":" + Print(ms[0].value) + AfterMember(ms, rest))
    ensures AfterMember(ms, rest) != ""
    ensures |ms| > 1 ==> AfterMember(ms, rest)[0] == ','
    ensures |ms| > 1 ==> AfterMember(ms, rest)[1..] == PrintMembers(ms[1..]) + "}" + rest
    ensures |ms| == 1 ==> AfterMember(ms, rest)[0] == '}' && AfterMember(ms, rest)[1..] == rest
  {
    hide Print, Quote;
    if |ms| == 1 {
      Regroup(Quote(ms[0].key), Print(ms[0].value), "}", rest);
    } else {
      Regroup(Quote(ms[0].key), Print(ms[0].value), "," + PrintMembers(ms[1..]) + "}", rest);
      Reassociate(Quote(ms[0].key) + ":" + Print(ms[0].value), PrintMembers(ms[1..]));
      Drop(PrintMembers(ms[1..]), rest);
    }
  }

  lemma Regroup(q: string, p: string, tail: string, rest: string)
    ensures q + ":" + p + tail + rest == q + (":" + p + (tail + rest))
  {
  }

  lemma Reassociate(first: string, others: string)
    ensures first + "," + others + "}" == first + ("," + others + "}")
  {
  }

  lemma Drop(others: string, rest: string)
    ensures ("," + others + "}" + rest)[0] == ','
    ensures ("," + others + "}" + rest)[1..] == others + "}" + rest
  {
  }

  lemma ParseMembersStep(t: string, key: string, afterKey: string, v: Value, tail: string)
    requires ParseString(t) == Some((key, afterKey)) && afterKey != "" && afterKey[0] == ':'
    requires Parse(afterKey[1..]) == Some((v, tail)) && tail != ""
    ensures ParseMembers(t) == (
              if tail[0] == '}' then Some(([Member(key, v)], tail[1..]))
              else if tail[0] != ',' then None
              else
                match ParseMembers(tail[1..])
                case None => None
                case Some((ms, end)) => Some(([Member(key, v)] + ms, end)))
  {
  }

  /** How a reader gets past the first member, once it reads its value. */
  lemma FirstMemberReads(ms: seq<Member>, rest: string)
    requires ms != []
    requires Parse(Print(ms[0].value) + AfterMember(ms, rest)) == Some((ms[0].value, AfterMember(ms, rest)))
    ensures |ms| == 1 ==> ParseMembers(PrintMembers(ms) + "}" + rest) == Some(([ms[0]], rest))
    ensures |ms| > 1 ==>
              ParseMembers(PrintMembers(ms) + "}" + rest) == (
                match ParseMembers(PrintMembers(ms[1..]) + "}" + rest)
                case None => None
                case Some((others, end)) => Some(([ms[0]] + others, end)))
  {
    var key, v, tail := ms[0].key, ms[0].value, AfterMember(ms, rest);
    FirstMember(ms, rest);
    FirstKeyReads(key, Print(v), tail);
    ParseMembersStep(PrintMembers(ms) + "}" + rest, key, ":" + Print(v) + tail, v, tail);
  }

  lemma FirstKeyReads(key: string, text: string, tail: string)
    ensures var after := ":" + text + tail;
            && ParseString(Quote(key) + after) == Some((key, after))
            && after[0] == ':' && after[1..] == text + tail
  {
    QuoteReads(key, ":" + text + tail);
    ColonText(text, tail);
  }

  lemma ColonText(text: string, tail: string)
    ensures (":" + text + tail)[0] == ':' && (":" + text + tail)[1..] == text + tail
  {
  }

  lemma {:induction false} MembersRead(ms: seq<Member>, rest: string)
    requires ms != []
    ensures ParseMembers(PrintMembers(ms) + "}" + rest) == Some((ms, rest))
    decreases ms, 1
  {
    hide *;
    PrintReads(ms[0].value, AfterMember(ms, rest));
    FirstMemberReads(ms, rest);
    if |ms| > 1 {
      MembersRead(ms[1..], rest);
      assert ms == [ms[0]] + ms[1..];
    } else {
      assert ms == [ms[0]];
    }
  }

  /** What follows the first element in the text of an array. */
  function AfterElement(vs: seq<Value>, rest: string): string
    requires vs != []
  {
    (if |vs| == 1 then "]" else "," + PrintElements(vs[1..]) + "]") + rest
  }

  lemma FirstElement(vs: seq<Value>, rest: string)
    requires vs != []
    ensures PrintElements(vs) + "]" + rest == Print(vs[0]) + AfterElement(vs, rest)
    ensures AfterElement(vs, rest) != ""
    ensures |vs| > 1 ==> AfterElement(vs, rest)[0] == ','
    ensures |vs| > 1 ==> AfterElement(vs, rest)[1..] == PrintElements(vs[1..]) + "]" + rest
    ensures |vs| == 1 ==> AfterElement(vs, rest)[0] == ']' && AfterElement(vs, rest)[1..] == rest
  {
    if |vs| == 1 {
      LastElementText(Print(vs[0]), rest);
    } else {
      NextElementText(Print(vs[0]), PrintElements(vs[1..]), rest);
    }
  }

  lemma LastElementText(first: string, rest: string)
    ensures first + "]" + rest == first + ("]" + rest)
    ensures ("]" + rest)[1..] == rest
  {
  }

  lemma NextElementText(first: string, others: string, rest: string)
    ensures first + "," + others + "]" + rest == first + ("," + others + "]" + rest)
    ensures ("," + others + "]" + rest)[0] == ','
    ensures ("," + others + "]" + rest)[1..] == others + "]" + rest
  {
  }

  /** How a reader gets past an element. */
  lemma ParseElementsStep(t: string, v: Value, tail: string)
    requires Parse(t) == Some((v, tail)) && tail != ""
    ensures ParseElements(t) == (
              if tail[0] == ']' then Some(([v], tail[1..]))
              else if tail[0] != ',' then None
              else
                match ParseElements(tail[1..])
                case None => None
                case Some((vs, end)) => Some(([v] + vs, end)))
  {
  }

  lemma FirstElementReads(vs: seq<Value>, rest: string)
    requires vs != []
    requires Parse(Print(vs[0]) + AfterElement(vs, rest)) == Some((vs[0], AfterElement(vs, rest)))
    ensures |vs| == 1 ==> ParseElements(PrintElements(vs) + "]" + rest) == Some(([vs[0]], rest))
    ensures |vs| > 1 ==>
              ParseElements(PrintElements(vs) + "]" + rest) == (
                match ParseElements(PrintElements(vs[1..]) + "]" + rest)
                case None => None
                case Some((others, end)) => Some(([vs[0]] + others, end)))
  {
    var tail := AfterElement(vs, rest);
    FirstElement(vs, rest);
    ParseElementsStep(PrintElements(vs) + "]" + rest, vs[0], tail);
  }

  lemma {:induction false} ElementsRead(vs: seq<Value>, rest: string)
    requires vs != []
    ensures ParseElements(PrintElements(vs) + "]" + rest) == Some((vs, rest))
    decreases vs, 1
  {
    hide *;
    PrintReads(vs[0], AfterElement(vs, rest));
    FirstElementReads(vs, rest);
    if |vs| > 1 {
      ElementsRead(vs[1..], rest);
      assert vs == [vs[0]] + vs[1..];
    } else {
      assert vs == [vs[0]];
    }
  }

  /** Different values have different texts. */
  lemma PrintIsInjective(v: Value, w: Value)
    requires Print(v) == Print(w)
    ensures v == w
  {
    PrintReads(v, "");
    PrintReads(w, "");
  }
}
