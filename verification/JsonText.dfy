/** Canonical text in its plain form: what is written, piece by piece, with nothing carried along. */
module JsonText {
  import opened Json

  function Digits(n: nat): string { if n < 10 then [Digit(n)] else Digits(n / 10) + [Digit(n % 10)] }

  function Decimal(n: int): string { if n < 0 then "-" + Digits(-n) else Digits(n) }

  /** Quotes, backslashes and control characters are escaped, and nothing else. */
  function Escaped(c: char): string
  {
    match c
    case '\"' => "\\\""
    case '\\' => "\\\\"
    case '\n' => "\\n"
    case '\r' => "\\r"
    case '\t' => "\\t"
    case _ =>
      if c as int == 8 then "\\b"
      else if c as int == 12 then "\\f"
      else if c as int < 32 then "\\u00" + [HexDigit(c as int / 16), HexDigit(c as int % 16)]
      else [c]
  }

  function EscapedAll(s: string): string { if s == "" then "" else Escaped(s[0]) + EscapedAll(s[1..]) }

  function Quoted(s: string): string { "\"" + EscapedAll(s) + "\"" }

  function Written(v: Json): string
    decreases v, 1
  {
    match v
    case JNull => "null"
    case JBool(b) => if b then "true" else "false"
    case JInt(n) => Decimal(n)
    case JStr(s) => Quoted(s)
    case JArr(items) => "[" + WrittenItems(items) + "]"
    case JObj(ms) => "{" + WrittenMembers(ms) + "}"
  }

  /** Separated by commas, with no space. */
  function WrittenItems(items: seq<Json>): string
    decreases items, 0
  {
    if items == [] then ""
    else if |items| == 1 then Written(items[0])
    else Written(items[0]) + "," + WrittenItems(items[1..])
  }

  function WrittenMembers(ms: seq<Member>): string
    decreases ms, 0
  {
    if ms == [] then ""
    else if |ms| == 1 then Quoted(ms[0].key) + ":" + Written(ms[0].value)
    else Quoted(ms[0].key) + ":" + Written(ms[0].value) + "," + WrittenMembers(ms[1..])
  }

  lemma {:induction false} NatWritten(n: nat, rest: string)
    ensures NatOn(n, rest) == Digits(n) + rest
  {
    if n >= 10 {
      NatWritten(n / 10, [Digit(n % 10)] + rest);
      assert Digits(n) + rest == Digits(n / 10) + ([Digit(n % 10)] + rest);
    }
  }

  lemma IntWritten(n: int, rest: string)
    ensures IntOn(n, rest) == Decimal(n) + rest
  {
    NatWritten(if n < 0 then -n else n, rest);
    assert n < 0 ==> "-" + (Digits(-n) + rest) == "-" + Digits(-n) + rest;
  }

  lemma CharWritten(c: char, rest: string)
    ensures CharOn(c, rest) == Escaped(c) + rest
  {
  }

  lemma {:induction false} CharsWritten(s: string, rest: string)
    ensures CharsOn(s, rest) == EscapedAll(s) + "\"" + rest
  {
    if s != "" {
      CharsWritten(s[1..], rest);
      CharWritten(s[0], CharsOn(s[1..], rest));
      assert Escaped(s[0]) + (EscapedAll(s[1..]) + "\"" + rest) == Escaped(s[0]) + EscapedAll(s[1..]) + "\"" + rest;
    }
  }

  lemma StringWritten(s: string, rest: string)
    ensures StrOn(s, rest) == Quoted(s) + rest
  {
    CharsWritten(s, rest);
    assert "\"" + (EscapedAll(s) + "\"" + rest) == "\"" + EscapedAll(s) + "\"" + rest;
  }

  lemma Enclosed(left: string, inner: string, right: string, rest: string)
    ensures left + (inner + right + rest) == left + inner + right + rest
  {
  }

  lemma Empty()
    ensures WrittenItems([]) == "" && WrittenMembers([]) == ""
    ensures "[" + "" + "]" == "[]" && "{" + "" + "}" == "{}"
  {
  }

  lemma {:induction false} TextWritten(v: Json, rest: string)
    ensures TextOn(v, rest) == Written(v) + rest
    decreases v, 1
  {
    hide ItemsOn, MembersOn, StrOn, IntOn, WrittenItems, WrittenMembers, Quoted, Decimal;
    match v
    case JInt(n) => IntWritten(n, rest);
    case JStr(s) => StringWritten(s, rest);
    case JArr(items) =>
      if items == [] { Empty(); } else { ItemsWritten(items, rest); }
      Enclosed("[", WrittenItems(items), "]", rest);
    case JObj(ms) =>
      if ms == [] { Empty(); } else { MembersWritten(ms, rest); }
      Enclosed("{", WrittenMembers(ms), "}", rest);
    case _ =>
  }

  lemma {:induction false} ItemsWritten(items: seq<Json>, rest: string)
    requires items != []
    ensures ItemsOn(items, rest) == WrittenItems(items) + "]" + rest
    decreases items, 0
  {
    if |items| == 1 {
      TextWritten(items[0], "]" + rest);
      assert Written(items[0]) + ("]" + rest) == Written(items[0]) + "]" + rest;
    } else {
      ItemsWritten(items[1..], rest);
      TextWritten(items[0], "," + ItemsOn(items[1..], rest));
      assert Written(items[0]) + ("," + (WrittenItems(items[1..]) + "]" + rest))
        == Written(items[0]) + "," + WrittenItems(items[1..]) + "]" + rest;
    }
  }

  lemma MemberWritten(m: Member, after: string)
    ensures StrOn(m.key, [':'] + TextOn(m.value, after)) == Quoted(m.key) + ":" + Written(m.value) + after
    decreases m, 1
  {
    TextWritten(m.value, after);
    StringWritten(m.key, ":" + TextOn(m.value, after));
    assert Quoted(m.key) + (":" + (Written(m.value) + after)) == Quoted(m.key) + ":" + Written(m.value) + after;
  }

  lemma {:induction false} MembersWritten(ms: seq<Member>, rest: string)
    requires ms != []
    ensures MembersOn(ms, rest) == WrittenMembers(ms) + "}" + rest
    decreases ms, 0
  {
    hide Written, TextOn, StrOn, Quoted;
    var first := Quoted(ms[0].key) + ":" + Written(ms[0].value);
    if |ms| == 1 {
      MemberWritten(ms[0], "}" + rest);
      assert first + ("}" + rest) == first + "}" + rest;
    } else {
      MembersWritten(ms[1..], rest);
      MemberWritten(ms[0], "," + MembersOn(ms[1..], rest));
      assert first + ("," + (WrittenMembers(ms[1..]) + "}" + rest)) ==
        first + "," + WrittenMembers(ms[1..]) + "}" + rest;
    }
  }

  /** The text that is hashed is the plain text of the value with its keys in order, character by character. */
  lemma CanonicalIsWritten(v: Json)
    ensures Canonical(v) == Written(Norm(v))
  {
    TextWritten(Norm(v), "");
  }
}
