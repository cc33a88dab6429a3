/**
 * `JSON.stringify` as the cache key uses it: on the request's query parameters,
 * a flat object whose property values are strings, or `undefined` when the request
 * carries no parameters. String quoting follows QuoteJSONString (section 25.5.2.3 of
 * ECMA-262): the quote, the backslash and the five control characters with a short
 * form get a two-character escape, every other character below U+0020 becomes
 * `\u00XX` with lower-case hex digits, and everything else is copied.
 *
 * Properties are written in the order they are given: `JSON.stringify` does not
 * sort property names. A decoder for exactly this output is defined alongside, and
 * the round trip through it shows that distinct parameter lists never share a
 * serialization.
 */
module Json {
  import opened Wrappers

  /** One query parameter: name and value. */
  type Param = (string, string)

  const HexDigits: string := "0123456789abcdef"

  function HexDigit(d: nat): char
    requires d < 16
  {
    HexDigits[d]
  }

  /** The value of a hex digit of either case. */
  function HexValue(c: char): (r: Option<nat>)
    ensures r.Some? ==> r.value < 16
  {
    if '0' <= c <= '9' then Some(c as int - '0' as int)
    else if 'a' <= c <= 'f' then Some(c as int - 'a' as int + 10)
    else if 'A' <= c <= 'F' then Some(c as int - 'A' as int + 10)
    else None
  }

  lemma HexValueOfDigit(d: nat)
    requires d < 16
    ensures HexValue(HexDigit(d)) == Some(d)
  {
  }

  /** The escaped form of one character inside a JSON string literal. */
  function EscapeChar(c: char): (r: string)
    ensures |r| >= 1
    ensures r[0] == '\\' <==> c == '\\' || c == '"' || (c as int) < 0x20
    ensures r[0] != '"'
  {
    if c == '"' then ['\\', '"']
    else if c == '\\' then ['\\', '\\']
    else if c as int == 0x08 then ['\\', 'b']
    else if c as int == 0x09 then ['\\', 't']
    else if c as int == 0x0A then ['\\', 'n']
    else if c as int == 0x0C then ['\\', 'f']
    else if c as int == 0x0D then ['\\', 'r']
    else if c as int < 0x20 then ['\\', 'u', '0', '0', HexDigit(c as int / 16), HexDigit(c as int % 16)]
    else [c]
  }

  function EscapeBody(s: string): string
    decreases |s|
  {
    if |s| == 0 then "" else EscapeChar(s[0]) + EscapeBody(s[1..])
  }

  /** A JSON string literal. */
  function Quote(s: string): string
  {
    ['"'] + EscapeBody(s) + ['"']
  }

  function MemberText(p: Param): string
  {
    Quote(p.0) + [':'] + Quote(p.1)
  }

  function Members(ps: seq<Param>): string
    decreases |ps|
  {
    if |ps| == 0 then ""
    else if |ps| == 1 then MemberText(ps[0])
    else MemberText(ps[0]) + [','] + Members(ps[1..])
  }

  /** `JSON.stringify` of the parameters; an absent parameter object prints as `undefined`. */
  function Stringify(params: Option<seq<Param>>): (r: string)
    ensures |r| > 0
  {
    match params
    case None => "undefined"
    case Some(ps) => ['{'] + Members(ps) + ['}']
  }

  /** A character JSON copies into a string literal as it is. */
  predicate IsPlain(c: char)
  {
    c != '"' && c != '\\' && (c as int) >= 0x20
  }

  /** A string of plain characters is quoted without escapes. */
  lemma {:induction false} EscapeBodyOfPlain(s: string)
    requires forall i :: 0 <= i < |s| ==> IsPlain(s[i])
    ensures EscapeBody(s) == s
    decreases |s|
  {
    if |s| > 0 {
      EscapeBodyOfPlain(s[1..]);
      assert [s[0]] + s[1..] == s;
    }
  }

  /** A single parameter of plain characters serializes as `{"name":"value"}`. */
  lemma StringifyPlainParam(name: string, value: string)
    requires forall i :: 0 <= i < |name| ==> IsPlain(name[i])
    requires forall i :: 0 <= i < |value| ==> IsPlain(value[i])
    ensures Stringify(Some([(name, value)])) == "{\"" + name + "\":\"" + value + "\"}"
  {
    EscapeBodyOfPlain(name);
    EscapeBodyOfPlain(value);
  }

  // ---------------------------------------------------------------------------
  // Decoding the serializer's output

  /** Prefixes a decoded character to the result of decoding the rest. */
  function Prepend(c: char, r: Option<(string, string)>): Option<(string, string)>
  {
    match r
    case None => None
    case Some((s, rest)) => Some(([c] + s, rest))
  }

  /**
   * Decodes the escape sequence at the head of `t`, giving the character it denotes
   * and its length. `\uXXXX` escapes denoting surrogates are refused.
   */
  function ParseEscape(t: string): (r: Option<(char, nat)>)
    requires |t| > 0 && t[0] == '\\'
    ensures r.Some? ==> 2 <= r.value.1 <= |t|
  {
    if |t| < 2 then None
    else
      var e := t[1];
      if e == '"' || e == '\\' || e == '/' then Some((e, 2))
      else if e == 'b' then Some((0x08 as char, 2))
      else if e == 't' then Some((0x09 as char, 2))
      else if e == 'n' then Some((0x0A as char, 2))
      else if e == 'f' then Some((0x0C as char, 2))
      else if e == 'r' then Some((0x0D as char, 2))
      else if e == 'u' && |t| >= 6 then
        match (HexValue(t[2]), HexValue(t[3]), HexValue(t[4]), HexValue(t[5]))
        case (Some(h3), Some(h2), Some(h1), Some(h0)) =>
          var n := ((h3 * 16 + h2) * 16 + h1) * 16 + h0;
          if n < 0xD800 || 0xE000 <= n then Some((n as char, 6)) else None
        case _ => None
      else None
  }

  /**
   * Decodes a string literal's body up to its closing quote, giving the decoded
   * text and the input after the quote.
   */
  function ParseStringBody(t: string): (r: Option<(string, string)>)
    ensures r.Some? ==> |r.value.1| < |t|
    decreases |t|
  {
    if |t| == 0 then None
    else if t[0] == '"' then Some(("", t[1..]))
    else if t[0] != '\\' then Prepend(t[0], ParseStringBody(t[1..]))
    else match ParseEscape(t)
      case None => None
      case Some((c, k)) => Prepend(c, ParseStringBody(t[k..]))
  }

  /** Decodes one `"name":"value"` member, giving the rest of the input after it. */
  function ParseMember(t: string): (r: Option<(Param, string)>)
    ensures r.Some? ==> |r.value.1| < |t|
  {
    if |t| == 0 || t[0] != '"' then None
    else match ParseStringBody(t[1..])
      case None => None
      case Some((name, r1)) =>
        if |r1| < 2 || r1[0] != ':' || r1[1] != '"' then None
        else match ParseStringBody(r1[2..])
          case None => None
          case Some((value, r2)) => Some(((name, value), r2))
  }

  /** Decodes a non-empty, comma-separated member list followed by the closing brace. */
  function ParseMemberList(t: string): Option<seq<Param>>
    decreases |t|
  {
    match ParseMember(t)
    case None => None
    case Some((p, r)) =>
      if r == "}" then Some([p])
      else if |r| > 0 && r[0] == ',' then
        match ParseMemberList(r[1..])
        case None => None
        case Some(ps) => Some([p] + ps)
      else None
  }

  /** Decodes the output of `Stringify`. */
  function Parse(s: string): Option<Option<seq<Param>>>
  {
    if s == "undefined" then Some(None)
    else if |s| < 2 || s[0] != '{' then None
    else if s[1..] == "}" then Some(Some([]))
    else match ParseMemberList(s[1..])
      case None => None
      case Some(ps) => Some(Some(ps))
  }

  // ---------------------------------------------------------------------------
  // Round trip

  /** A character with a two-character escape decodes back to itself. */
  lemma ParseShortEscape(c: char, t: string)
    requires c == '"' || c == '\\' || c as int in {0x08, 0x09, 0x0A, 0x0C, 0x0D}
    ensures ParseEscape(EscapeChar(c) + t) == Some((c, 2))
  {
    var u := EscapeChar(c) + t;
    assert u[0] == '\\' && u[1] == EscapeChar(c)[1];
  }

  /** A control character written as `\u00XX` decodes back to itself. */
  lemma ParseUnicodeEscape(c: char, t: string)
    requires (c as int) < 0x20 && !(c as int in {0x08, 0x09, 0x0A, 0x0C, 0x0D})
    ensures ParseEscape(EscapeChar(c) + t) == Some((c, 6))
  {
    var hi, lo := c as int / 16, c as int % 16;
    var u := EscapeChar(c) + t;
    assert EscapeChar(c) == ['\\', 'u', '0', '0', HexDigit(hi), HexDigit(lo)];
    assert u[1] == 'u' && |u| >= 6;
    assert u[2] == '0' && u[3] == '0' && u[4] == HexDigit(hi) && u[5] == HexDigit(lo);
    HexValueOfDigit(hi);
    HexValueOfDigit(lo);
    assert HexValue(u[2]) == Some(0) && HexValue(u[3]) == Some(0);
    assert ((0 * 16 + 0) * 16 + hi) * 16 + lo == c as int;
  }

  /** An escaped character decodes back to itself. */
  lemma ParseEscapeOfEscapeChar(c: char, t: string)
    requires c == '"' || c == '\\' || (c as int) < 0x20
    ensures ParseEscape(EscapeChar(c) + t) == Some((c, |EscapeChar(c)|))
  {
    if c == '"' || c == '\\' || c as int in {0x08, 0x09, 0x0A, 0x0C, 0x0D} {
      ParseShortEscape(c, t);
    } else {
      ParseUnicodeEscape(c, t);
    }
  }

  /** Decoding an escaped character yields the character, then decoding goes on. */
  lemma ParseEscapeChar(c: char, t: string)
    ensures ParseStringBody(EscapeChar(c) + t) == Prepend(c, ParseStringBody(t))
  {
    var u := EscapeChar(c) + t;
    if c == '"' || c == '\\' || (c as int) < 0x20 {
      ParseEscapeOfEscapeChar(c, t);
      assert u[|EscapeChar(c)|..] == t;
    } else {
      assert u[0] == c && u[1..] == t;
    }
  }

  /** A quoted string's body decodes back to the string, leaving what follows the quote. */
  lemma {:induction false} ParseQuoted(s: string, t: string)
    ensures ParseStringBody(EscapeBody(s) + ['"'] + t) == Some((s, t))
    decreases |s|
  {
    if |s| == 0 {
      assert EscapeBody(s) + ['"'] + t == ['"'] + t;
      assert (['"'] + t)[1..] == t;
    } else {
      var tail := EscapeBody(s[1..]) + ['"'] + t;
      assert EscapeBody(s) + ['"'] + t == EscapeChar(s[0]) + tail;
      ParseEscapeChar(s[0], tail);
      ParseQuoted(s[1..], t);
      assert [s[0]] + s[1..] == s;
    }
  }

  /** `ParseMember` on a name literal, a colon and a value literal. */
  lemma ParseMemberParts(t: string, name: string, r1: string, value: string, r2: string)
    requires |t| > 0 && t[0] == '"' && ParseStringBody(t[1..]) == Some((name, r1))
    requires |r1| >= 2 && r1[0] == ':' && r1[1] == '"' && ParseStringBody(r1[2..]) == Some((value, r2))
    ensures ParseMember(t) == Some(((name, value), r2))
  {
  }

  /** The name literal of a member decodes, leaving the colon and the value literal. */
  lemma ParseMemberName(p: Param, t: string)
    ensures var u := MemberText(p) + t;
            |u| > 0 && u[0] == '"' && ParseStringBody(u[1..]) == Some((p.0, [':'] + Quote(p.1) + t))
  {
    var r1 := [':'] + Quote(p.1) + t;
    assert (MemberText(p) + t)[1..] == EscapeBody(p.0) + ['"'] + r1;
    ParseQuoted(p.0, r1);
  }

  /** The value literal after the colon decodes, leaving what follows the member. */
  lemma ParseMemberValue(p: Param, t: string)
    ensures var r1 := [':'] + Quote(p.1) + t;
            |r1| >= 2 && r1[0] == ':' && r1[1] == '"' && ParseStringBody(r1[2..]) == Some((p.1, t))
  {
    var r1 := [':'] + Quote(p.1) + t;
    assert r1[2..] == EscapeBody(p.1) + ['"'] + t;
    ParseQuoted(p.1, t);
  }

  /** A member decodes back to its parameter, leaving what follows it. */
  lemma ParseMemberText(p: Param, t: string)
    ensures ParseMember(MemberText(p) + t) == Some((p, t))
  {
    ParseMemberName(p, t);
    ParseMemberValue(p, t);
    ParseMemberParts(MemberText(p) + t, p.0, [':'] + Quote(p.1) + t, p.1, t);
  }

  /** `ParseMemberList` stops at the closing brace. */
  lemma ParseMemberListLast(t: string, p: Param, r: string)
    requires ParseMember(t) == Some((p, r)) && r == "}"
    ensures ParseMemberList(t) == Some([p])
  {
  }

  /** The last member and the closing brace decode to that member alone. */
  lemma ParseLastMember(p: Param)
    ensures ParseMemberList(MemberText(p) + ['}']) == Some([p])
  {
    var close: string := ['}'];
    ParseMemberText(p, close);
    ParseMemberListLast(MemberText(p) + close, p, close);
  }

  /** One step of `ParseMemberList` once the first member is decoded and a comma follows. */
  lemma ParseMemberListStep(t: string, p: Param, r: string, ps: seq<Param>)
    requires ParseMember(t) == Some((p, r))
    requires |r| > 0 && r[0] == ',' && ParseMemberList(r[1..]) == Some(ps)
    ensures ParseMemberList(t) == Some([p] + ps)
  {
    assert r != "}" by { assert r[0] != '}'; }
  }

  /** A member, a comma and a decodable member list decode to the longer list. */
  lemma ParseMemberListCons(p: Param, t: string, ps: seq<Param>)
    requires ParseMemberList(t) == Some(ps)
    ensures ParseMemberList(MemberText(p) + [','] + t) == Some([p] + ps)
  {
    var rest := [','] + t;
    assert MemberText(p) + [','] + t == MemberText(p) + rest;
    ParseMemberText(p, rest);
    assert rest[1..] == t;
    ParseMemberListStep(MemberText(p) + rest, p, rest, ps);
  }

  /** A non-empty member list and its closing brace decode back to the list. */
  lemma {:induction false} ParseMembers(ps: seq<Param>)
    requires |ps| > 0
    ensures ParseMemberList(Members(ps) + ['}']) == Some(ps)
    decreases |ps|
  {
    if |ps| == 1 {
      ParseLastMember(ps[0]);
      assert [ps[0]] == ps;
    } else {
      var t := Members(ps[1..]) + ['}'];
      assert Members(ps) + ['}'] == MemberText(ps[0]) + [','] + t;
      ParseMembers(ps[1..]);
      ParseMemberListCons(ps[0], t, ps[1..]);
      assert [ps[0]] + ps[1..] == ps;
    }
  }

  /** A member list starts with the opening quote of its first name. */
  lemma MembersStartWithQuote(ps: seq<Param>)
    requires |ps| > 0
    ensures |Members(ps)| > 0 && Members(ps)[0] == '"'
  {
  }

  /** `Parse` on a text that opens with a brace and is not `{}`: it decodes the member list. */
  lemma ParseOpenBrace(s: string, ps: seq<Param>)
    requires |s| >= 2 && s[0] == '{' && s[1] == '"' && ParseMemberList(s[1..]) == Some(ps)
    ensures Parse(s) == Some(Some(ps))
  {
    assert s != "undefined" by { assert s[0] != 'u'; }
    assert s[1..] != "}" by { assert s[1..][0] == '"'; }
  }

  /** The empty object literal decodes to no parameters. */
  lemma ParseEmptyObject()
    ensures Parse(Stringify(Some([]))) == Some(Some([]))
  {
    assert Stringify(Some([])) == "{}";
  }

  /** An object literal with members decodes back to its member list. */
  lemma ParseObject(ps: seq<Param>)
    requires |ps| > 0
    ensures Parse(Stringify(Some(ps))) == Some(Some(ps))
  {
    var s := Stringify(Some(ps));
    MembersStartWithQuote(ps);
    assert s[0] == '{' && s[1..] == Members(ps) + ['}'];
    ParseMembers(ps);
    ParseOpenBrace(s, ps);
  }

  /** Decoding inverts `Stringify`. */
  lemma ParseStringify(params: Option<seq<Param>>)
    ensures Parse(Stringify(params)) == Some(params)
  {
    if params == Some([]) {
      ParseEmptyObject();
    } else if params.Some? {
      ParseObject(params.value);
    }
  }

  /** Different parameter objects, including the same parameters in another order, serialize differently. */
  lemma StringifyInjective(p1: Option<seq<Param>>, p2: Option<seq<Param>>)
    ensures Stringify(p1) == Stringify(p2) ==> p1 == p2
  {
    ParseStringify(p1);
    ParseStringify(p2);
  }

  /** The serialization is order-sensitive: `{q, page}` and `{page, q}` print differently. */
  lemma StringifyOrderSensitive(a: Param, b: Param)
    requires a != b
    ensures Stringify(Some([a, b])) != Stringify(Some([b, a]))
  {
    StringifyInjective(Some([a, b]), Some([b, a]));
    assert [a, b][0] != [b, a][0];
  }
}
