/**
 A reader for the canonical text (sections 4, 5 and 7 of RFC 8259, without insignificant white
 space and without fractions), and the proof that it inverts the writer.
 */
module JsonParser {
  import opened Wrappers
  import opened Json

  predicate IsDigit(c: char) { '0' <= c <= '9' }

  predicate AllDigits(s: string) { forall i | 0 <= i < |s| :: IsDigit(s[i]) }

  /** Text after a number must not begin with a further digit. */
  predicate Follow(rest: string) { rest == "" || !IsDigit(rest[0]) }

  function DigitRun(s: string): (n: nat)
    ensures n <= |s| && AllDigits(s[..n])
    ensures n < |s| ==> !IsDigit(s[n])
  {
    if s == "" || !IsDigit(s[0]) then 0 else 1 + DigitRun(s[1..])
  }

  function Value(ds: string): nat
    requires AllDigits(ds)
  {
    if ds == "" then 0 else Value(ds[..|ds| - 1]) * 10 + (ds[|ds| - 1] as int - '0' as int)
  }

  function ParseNat(s: string): (r: Option<(int, string)>)
    ensures r.Some? ==> |r.value.1| < |s|
  {
    var n := DigitRun(s);
    if n == 0 then None else Some((Value(s[..n]), s[n..]))
  }

  function ParseInt(s: string): (r: Option<(Json, string)>)
    ensures r.Some? ==> |r.value.1| < |s|
  {
    if s != "" && s[0] == '-' then
      match ParseNat(s[1..])
      case None => None
      case Some((n, t)) => Some((JInt(-n), t))
    else
      match ParseNat(s)
      case None => None
      case Some((n, t)) => Some((JInt(n), t))
  }

  function HexValue(c: char): Option<nat>
  {
    if '0' <= c <= '9' then Some(c as int - '0' as int)
    else if 'a' <= c <= 'f' then Some(c as int - 'a' as int + 10)
    else if 'A' <= c <= 'F' then Some(c as int - 'A' as int + 10)
    else None
  }

  /** Four hexadecimal digits; surrogate halves are not characters on their own. */
  function ParseHex(s: string): Option<char>
    requires |s| >= 4
  {
    match (HexValue(s[0]), HexValue(s[1]), HexValue(s[2]), HexValue(s[3]))
    case (Some(a), Some(b), Some(c), Some(d)) =>
      var code := ((a * 16 + b) * 16 + c) * 16 + d;
      if 0 <= code < 0xD800 || 0xE000 <= code < 0x10000 then Some(code as char) else None
    case _ => None
  }

  function Unescape(c: char): Option<char>
  {
    if c == '\"' || c == '\\' || c == '/' then Some(c)
    else if c == 'n' then Some('\n')
    else if c == 'r' then Some('\r')
    else if c == 't' then Some('\t')
    else if c == 'b' then Some(8 as char)
    else if c == 'f' then Some(12 as char)
    else None
  }

  /** One string character and the text after it. */
  function ParseChar(s: string): (r: Option<(char, string)>)
    ensures r.Some? ==> |r.value.1| < |s|
  {
    if s == "" || s[0] as int < 32 then None
    else if s[0] != '\\' then Some((s[0], s[1..]))
    else if |s| < 2 then None
    else if s[1] == 'u' then
      if |s| < 6 then None
      else match ParseHex(s[2..]) case Some(c) => Some((c, s[6..])) case None => None
    else match Unescape(s[1]) case Some(c) => Some((c, s[2..])) case None => None
  }

  function ParseChars(s: string): (r: Option<(string, string)>)
    ensures r.Some? ==> |r.value.1| < |s|
    decreases |s|
  {
    if s != "" && s[0] == '\"' then Some(("", s[1..]))
    else
      match ParseChar(s)
      case None => None
      case Some((c, t)) =>
        match ParseChars(t)
        case None => None
        case Some((cs, u)) => Some(([c] + cs, u))
  }

  function ParseStr(s: string): (r: Option<(string, string)>)
    ensures r.Some? ==> |r.value.1| < |s|
  {
    if s != "" && s[0] == '\"' then ParseChars(s[1..]) else None
  }

  predicate StartsWith(s: string, word: string) { word <= s }

  lemma StartsWithFirst(s: string, word: string)
    requires word != "" && s != ""
    ensures StartsWith(s, word) ==> s[0] == word[0]
  {
  }

  function ParseText(s: string): (r: Option<(Json, string)>)
    ensures r.Some? ==> |r.value.1| < |s|
    decreases |s|, 0
  {
    if s == "" then None
    else if s[0] == '\"' then
      match ParseStr(s) case None => None case Some((cs, t)) => Some((JStr(cs), t))
    else if s[0] == '[' then
      if StartsWith(s, "[]") then Some((JArr([]), s[2..]))
      else match ParseItems(s[1..]) case None => None case Some((xs, t)) => Some((JArr(xs), t))
    else if s[0] == '{' then
      if StartsWith(s, "{}") then Some((JObj([]), s[2..]))
      else match ParseMembers(s[1..]) case None => None case Some((ms, t)) => Some((JObj(ms), t))
    else if StartsWith(s, "null") then Some((JNull, s[4..]))
    else if StartsWith(s, "true") then Some((JBool(true), s[4..]))
    else if StartsWith(s, "false") then Some((JBool(false), s[5..]))
    else ParseInt(s)
  }

  function ParseItems(s: string): (r: Option<(seq<Json>, string)>)
    ensures r.Some? ==> |r.value.1| < |s|
    decreases |s|, 1
  {
    match ParseText(s)
    case None => None
    case Some((v, t)) =>
      if t != "" && t[0] == ']' then Some(([v], t[1..]))
      else if t != "" && t[0] == ',' then
        match ParseItems(t[1..]) case None => None case Some((vs, u)) => Some(([v] + vs, u))
      else None
  }

  function ParseMembers(s: string): (r: Option<(seq<Member>, string)>)
    ensures r.Some? ==> |r.value.1| < |s|
    decreases |s|, 1
  {
    match ParseStr(s)
    case None => None
    case Some((k, t)) =>
      if t == "" || t[0] != ':' then None
      else
        match ParseText(t[1..])
        case None => None
        case Some((v, u)) =>
          if u != "" && u[0] == '}' then Some(([Member(k, v)], u[1..]))
          else if u != "" && u[0] == ',' then
            match ParseMembers(u[1..]) case None => None case Some((ms, w)) => Some(([Member(k, v)] + ms, w))
          else None
  }

  /** Reads a whole text as one value. */
  function Decode(s: string): Option<Json>
  {
    match ParseText(s)
    case Some((v, t)) => if t == "" then Some(v) else None
    case None => None
  }

  // ---------------------------------------------------------------------------------------------
  // The reader inverts the writer.
  // ---------------------------------------------------------------------------------------------

  lemma {:induction false} NatOnDigits(n: nat, rest: string)
    ensures AllDigits(NatOn(n, "")) && NatOn(n, "") != ""
    ensures NatOn(n, rest) == NatOn(n, "") + rest
    ensures Value(NatOn(n, "")) == n
  {
    if n >= 10 {
      NatOnDigits(n / 10, [Digit(n % 10)] + rest);
      NatOnDigits(n / 10, [Digit(n % 10)]);
      var ds := NatOn(n, "");
      assert [Digit(n % 10)] + "" == [Digit(n % 10)];
      assert ds == NatOn(n / 10, "") + [Digit(n % 10)];
      assert ds[..|ds| - 1] == NatOn(n / 10, "");
    } else {
      var ds := NatOn(n, "");
      assert ds == [Digit(n)];
      assert ds[..|ds| - 1] == "";
    }
  }

  lemma {:induction false} RunOfDigits(ds: string, rest: string)
    requires AllDigits(ds) && Follow(rest)
    ensures DigitRun(ds + rest) == |ds|
  {
    if ds != "" {
      assert (ds + rest)[1..] == ds[1..] + rest;
      RunOfDigits(ds[1..], rest);
    } else {
      assert ds + rest == rest;
    }
  }

  lemma NatParses(n: nat, rest: string)
    requires Follow(rest)
    ensures ParseNat(NatOn(n, rest)) == Some((n, rest))
    ensures NatOn(n, rest) != "" && IsDigit(NatOn(n, rest)[0])
  {
    NatOnDigits(n, rest);
    var ds := NatOn(n, "");
    RunOfDigits(ds, rest);
    assert (ds + rest)[..|ds|] == ds && (ds + rest)[|ds|..] == rest;
  }

  lemma CharParses(c: char, rest: string)
    ensures ParseChar(CharOn(c, rest)) == Some((c, rest))
    ensures CharOn(c, rest) != "" && CharOn(c, rest)[0] != '\"'
  {
    var s := CharOn(c, rest);
    if s[0] == '\\' && s[1] == 'u' {
      assert s[2] == '0' && s[3] == '0';
      HexRoundTrip(c as int / 16);
      HexRoundTrip(c as int % 16);
      assert s[2..][2] == HexDigit(c as int / 16) && s[2..][3] == HexDigit(c as int % 16);
      assert s[6..] == rest;
    } else if s[0] == '\\' {
      assert s[2..] == rest;
    }
  }

  lemma HexRoundTrip(d: nat)
    requires d < 16
    ensures HexValue(HexDigit(d)) == Some(d)
  {
  }

  lemma {:induction false} CharsParse(s: string, rest: string)
    ensures ParseChars(CharsOn(s, rest)) == Some((s, rest))
  {
    if s != "" {
      CharsParse(s[1..], rest);
      CharParses(s[0], CharsOn(s[1..], rest));
      assert [s[0]] + s[1..] == s;
    }
  }

  lemma StrParses(s: string, rest: string)
    ensures ParseStr(StrOn(s, rest)) == Some((s, rest))
  {
    CharsParse(s, rest);
    assert StrOn(s, rest)[1..] == CharsOn(s, rest);
  }

  /** The literal words. */
  lemma WordParses(v: Json, rest: string)
    requires v.JNull? || v.JBool?
    ensures ParseText(TextOn(v, rest)) == Some((v, rest))
  {
    hide ParseInt, ParseStr;
    var s := TextOn(v, rest);
    match v
    case JNull => assert StartsWith(s, "null") && s[4..] == rest;
    case JBool(true) => assert StartsWith(s, "true") && s[4..] == rest;
    case JBool(false) => assert StartsWith(s, "false") && s[5..] == rest;
  }

  lemma {:induction false} TextParses(v: Json, rest: string)
    requires Follow(rest)
    ensures ParseText(TextOn(v, rest)) == Some((v, rest))
    decreases v, 0
  {
    var s := TextOn(v, rest);
    match v
    case JNull => WordParses(v, rest);
    case JBool(_) => WordParses(v, rest);
    case JInt(n) => IntParses(n, rest);
    case JStr(cs) => StrParses(cs, rest);
    case JArr(items) =>
      if items == [] {
        assert StartsWith(s, "[]") && s[2..] == rest;
      } else {
        ItemsParse(items, rest);
        assert s[1..] == ItemsOn(items, rest);
        assert s[1] != ']';
      }
    case JObj(ms) =>
      if ms == [] {
        assert StartsWith(s, "{}") && s[2..] == rest;
      } else {
        MembersParse(ms, rest);
        assert s[1..] == MembersOn(ms, rest);
        assert s[1] != '}';
      }
  }

  lemma IntParses(n: int, rest: string)
    requires Follow(rest)
    ensures ParseText(IntOn(n, rest)) == Some((JInt(n), rest))
  {
    var s := IntOn(n, rest);
    NatParses(if n < 0 then -n else n, rest);
    if n < 0 {
      assert s[1..] == NatOn(-n, rest);
    }
    assert s[0] == '-' || IsDigit(s[0]);
    StartsWithFirst(s, "null");
    StartsWithFirst(s, "true");
    StartsWithFirst(s, "false");
  }

  lemma {:induction false} ItemsParse(items: seq<Json>, rest: string)
    requires items != []
    ensures ParseItems(ItemsOn(items, rest)) == Some((items, rest))
    ensures ItemsOn(items, rest) != "" && ItemsOn(items, rest)[0] != ']'
    decreases items, 1
  {
    assert items == [items[0]] + items[1..];
    if |items| == 1 {
      assert items == [items[0]];
      TextParses(items[0], [']'] + rest);
      assert ([']'] + rest)[1..] == rest;
    } else {
      var next := ItemsOn(items[1..], rest);
      TextParses(items[0], [','] + next);
      assert ([','] + next)[1..] == next;
      ItemsParse(items[1..], rest);
    }
  }

  lemma {:induction false} MembersParse(ms: seq<Member>, rest: string)
    requires ms != []
    ensures ParseMembers(MembersOn(ms, rest)) == Some((ms, rest))
    ensures MembersOn(ms, rest) != "" && MembersOn(ms, rest)[0] != '}'
    decreases ms, 1
  {
    assert ms == [Member(ms[0].key, ms[0].value)] + ms[1..];
    if |ms| == 1 {
      assert ms == [ms[0]];
      var after := ['}'] + rest;
      MemberParses(ms[0], after);
      assert after[1..] == rest;
    } else {
      var next := MembersOn(ms[1..], rest);
      var after := [','] + next;
      MemberParses(ms[0], after);
      assert after[1..] == next;
      MembersParse(ms[1..], rest);
    }
  }

  lemma {:induction false} MemberParses(m: Member, after: string)
    requires Follow(after)
    ensures var value := TextOn(m.value, after);
      && ParseStr(StrOn(m.key, [':'] + value)) == Some((m.key, [':'] + value))
      && ([':'] + value)[1..] == value
      && ParseText(value) == Some((m.value, after))
    decreases m, 1
  {
    TextParses(m.value, after);
    StrParses(m.key, [':'] + TextOn(m.value, after));
  }

  /** Reading a canonical text gives back the value, with its keys in order. */
  lemma CanonicalRoundTrip(v: Json)
    ensures Decode(Canonical(v)) == Some(Norm(v))
  {
    TextParses(Norm(v), "");
  }

  /** Two values share a canonical text exactly when they are equal up to the order of their keys. */
  lemma CanonicalInjective(a: Json, b: Json)
    requires Valid(a) && Valid(b)
    ensures Canonical(a) == Canonical(b) <==> Same(a, b)
  {
    if Canonical(a) == Canonical(b) {
      CanonicalRoundTrip(a);
      CanonicalRoundTrip(b);
      SameNormIsSame(a, b);
    }
    if Same(a, b) {
      CanonicalIgnoresInsertionOrder(a, b);
    }
  }
}
