/**
 JSON values and their canonical text.

 A Python `dict` is kept as its insertion-ordered members, so that "the text does not depend on
 insertion order" is a statement about the model and not a consequence of its representation.
 Floats are not represented.
 */
module Json {
  import opened Wrappers

  datatype Json =
    | JNull
    | JBool(b: bool)
    | JInt(n: int)
    | JStr(s: string)
    | JArr(items: seq<Json>)
    | JObj(members: seq<Member>)

  datatype Member = Member(key: string, value: Json)

  /** `dict.get`. */
  function Get(ms: seq<Member>, key: string): Option<Json>
  {
    if ms == [] then None
    else if ms[0].key == key then Some(ms[0].value)
    else Get(ms[1..], key)
  }

  function GetOr(ms: seq<Member>, key: string, default: Json): Json
  {
    match Get(ms, key) case Some(v) => v case None => default
  }

  // ---------------------------------------------------------------------------------------------
  // Key order: Python compares strings by code point.
  // ---------------------------------------------------------------------------------------------

  predicate Before(a: string, b: string)
  {
    if b == "" then false
    else if a == "" then true
    else if a[0] != b[0] then a[0] < b[0]
    else Before(a[1..], b[1..])
  }

  /** The first `n` characters agree and then `a` ends or has the smaller one. */
  predicate BeforeAt(a: string, b: string, n: nat)
  {
    n <= |a| && n < |b| && a[..n] == b[..n] && (n == |a| || a[n] < b[n])
  }

  /** Alphabetical order by code point: a prefix comes first, and otherwise the first difference decides. */
  lemma {:induction false} BeforeIff(a: string, b: string)
    ensures Before(a, b) <==> exists n: nat :: BeforeAt(a, b, n)
  {
    if a != "" && b != "" && a[0] == b[0] {
      BeforeIff(a[1..], b[1..]);
      if n: nat :| BeforeAt(a[1..], b[1..], n) {
        assert a[..n + 1] == [a[0]] + a[1..][..n] && b[..n + 1] == [b[0]] + b[1..][..n];
        assert BeforeAt(a, b, n + 1);
      }
      if n: nat :| BeforeAt(a, b, n) {
        assert n > 0;
        assert a[1..][..n - 1] == a[..n][1..] && b[1..][..n - 1] == b[..n][1..];
        assert BeforeAt(a[1..], b[1..], n - 1);
      }
    } else {
      assert b != "" && (a == "" || a[0] < b[0]) ==> BeforeAt(a, b, 0);
      assert forall n: nat :: BeforeAt(a, b, n) && n > 0 ==> a[..n][0] == b[..n][0];
    }
  }

  lemma {:induction false} BeforeTrichotomy(a: string, b: string)
    ensures a == b || Before(a, b) || Before(b, a)
    ensures !(Before(a, b) && Before(b, a))
    ensures !Before(a, a)
  {
    if a != "" && b != "" && a[0] == b[0] {
      BeforeTrichotomy(a[1..], b[1..]);
      assert a == [a[0]] + a[1..] && b == [b[0]] + b[1..];
    }
    if a != "" {
      BeforeTrichotomy(a[1..], a[1..]);
    }
  }

  lemma {:induction false} BeforeTransitive(a: string, b: string, c: string)
    requires Before(a, b) && Before(b, c)
    ensures Before(a, c)
  {
    if a != "" && a[0] == b[0] && b[0] == c[0] {
      BeforeTransitive(a[1..], b[1..], c[1..]);
    }
  }

  // ---------------------------------------------------------------------------------------------
  // Normal form: `sort_keys=True`, at every depth.
  // ---------------------------------------------------------------------------------------------

  function Insert(m: Member, ms: seq<Member>): (r: seq<Member>)
    ensures |r| == |ms| + 1
    ensures multiset(r) == multiset(ms) + multiset{m}
  {
    if ms == [] then [m]
    else if Before(ms[0].key, m.key) then
      assert ms == [ms[0]] + ms[1..];
      [ms[0]] + Insert(m, ms[1..])
    else [m] + ms
  }

  function Norm(v: Json): Json
    decreases v
  {
    match v
    case JArr(items) => JArr(NormItems(items))
    case JObj(members) => JObj(NormMembers(members))
    case _ => v
  }

  function NormItems(items: seq<Json>): seq<Json>
    decreases items
  {
    if items == [] then [] else [Norm(items[0])] + NormItems(items[1..])
  }

  function NormMembers(ms: seq<Member>): seq<Member>
    decreases ms
  {
    if ms == [] then []
    else Insert(Member(ms[0].key, Norm(ms[0].value)), NormMembers(ms[1..]))
  }

  /** Keys of one object are pairwise different, as in every Python dict. */
  predicate DistinctKeys(ms: seq<Member>)
  {
    ms == [] || ((forall x | x in ms[1..] :: x.key != ms[0].key) && DistinctKeys(ms[1..]))
  }

  predicate Sorted(ms: seq<Member>)
  {
    ms == [] || ((forall x | x in ms[1..] :: Before(ms[0].key, x.key)) && Sorted(ms[1..]))
  }

  lemma InsertMembers(m: Member, ms: seq<Member>, x: Member)
    ensures x in Insert(m, ms) <==> x == m || x in ms
  {
    assert x in Insert(m, ms) <==> x in multiset(Insert(m, ms));
    assert x in ms <==> x in multiset(ms);
  }

  lemma {:induction false} InsertSorted(m: Member, ms: seq<Member>)
    requires Sorted(ms) && forall x | x in ms :: x.key != m.key
    ensures Sorted(Insert(m, ms))
  {
    if ms == [] {
    } else if Before(ms[0].key, m.key) {
      InsertSorted(m, ms[1..]);
      forall x | x in Insert(m, ms[1..])
        ensures Before(ms[0].key, x.key)
      {
        InsertMembers(m, ms[1..], x);
      }
      assert Insert(m, ms)[1..] == Insert(m, ms[1..]);
    } else {
      assert ms[0] in ms;
      BeforeTrichotomy(ms[0].key, m.key);
      forall x | x in ms
        ensures Before(m.key, x.key)
      {
        if x != ms[0] {
          assert x in ms[1..] by { assert ms == [ms[0]] + ms[1..]; }
          BeforeTransitive(m.key, ms[0].key, x.key);
        }
      }
      assert Insert(m, ms)[1..] == ms;
    }
  }

  lemma {:induction false} NormMembersSorted(ms: seq<Member>)
    requires DistinctKeys(ms)
    ensures Sorted(NormMembers(ms))
    ensures forall x | x in NormMembers(ms) :: exists y :: y in ms && y.key == x.key
  {
    if ms != [] {
      NormMembersSorted(ms[1..]);
      var head := Member(ms[0].key, Norm(ms[0].value));
      assert ms == [ms[0]] + ms[1..];
      assert forall x | x in NormMembers(ms[1..]) :: x.key != head.key;
      InsertSorted(head, NormMembers(ms[1..]));
      forall x | x in NormMembers(ms)
        ensures exists y :: y in ms && y.key == x.key
      {
        InsertMembers(head, NormMembers(ms[1..]), x);
        if x == head {
          assert ms[0] in ms;
        } else {
          var y :| y in ms[1..] && y.key == x.key;
          assert y in ms;
        }
      }
    }
  }

  /** The least key comes first, so a sorted object is determined by its members as a bag. */
  lemma {:induction false} SortedUnique(a: seq<Member>, b: seq<Member>)
    requires Sorted(a) && Sorted(b)
    requires multiset(a) == multiset(b)
    ensures a == b
  {
    if a != [] {
      assert a == [a[0]] + a[1..];
      assert a[0] in multiset(b);
      assert b == [b[0]] + b[1..];
      assert b[0] in multiset(a);
      assert a[0] == b[0] by {
        BeforeTrichotomy(a[0].key, b[0].key);
      }
      assert multiset(a[1..]) == multiset(a) - multiset{a[0]};
      assert multiset(b[1..]) == multiset(b) - multiset{b[0]};
      SortedUnique(a[1..], b[1..]);
    } else {
      assert |b| == |multiset(b)| == 0;
    }
  }

  lemma {:induction false} NormMembersBag(ms: seq<Member>)
    ensures multiset(NormMembers(ms)) == multiset(NormEach(ms))
  {
    if ms != [] {
      NormMembersBag(ms[1..]);
      assert NormEach(ms) == [Member(ms[0].key, Norm(ms[0].value))] + NormEach(ms[1..]);
    }
  }

  /** The members with normalised values, in insertion order. */
  function NormEach(ms: seq<Member>): (r: seq<Member>)
    ensures |r| == |ms|
    ensures forall i :: 0 <= i < |ms| ==> r[i] == Member(ms[i].key, Norm(ms[i].value))
  {
    if ms == [] then [] else [Member(ms[0].key, Norm(ms[0].value))] + NormEach(ms[1..])
  }

  // ---------------------------------------------------------------------------------------------
  // Text. Every writer takes the text that follows, so no concatenation has to be reassociated.
  // ---------------------------------------------------------------------------------------------

  function Digit(d: nat): char
    requires d < 10
  {
    "0123456789"[d]
  }

  function NatOn(n: nat, rest: string): string
  {
    if n < 10 then [Digit(n)] + rest else NatOn(n / 10, [Digit(n % 10)] + rest)
  }

  function IntOn(n: int, rest: string): string
  {
    if n < 0 then "-" + NatOn(-n, rest) else NatOn(n, rest)
  }

  function HexDigit(d: nat): char
    requires d < 16
  {
    "0123456789abcdef"[d]
  }

  /** One character of a string, escaped as `json.dumps(ensure_ascii=False)` does. */
  function CharOn(c: char, rest: string): string
  {
    if c == '\"' then "\\\"" + rest
    else if c == '\\' then "\\\\" + rest
    else if c == '\n' then "\\n" + rest
    else if c == '\r' then "\\r" + rest
    else if c == '\t' then "\\t" + rest
    else if c as int == 8 then "\\b" + rest
    else if c as int == 12 then "\\f" + rest
    else if c as int < 32 then
      ['\\', 'u', '0', '0', HexDigit(c as int / 16), HexDigit(c as int % 16)] + rest
    else [c] + rest
  }

  function CharsOn(s: string, rest: string): string
  {
    if s == "" then ['\"'] + rest else CharOn(s[0], CharsOn(s[1..], rest))
  }

  function StrOn(s: string, rest: string): string { ['\"'] + CharsOn(s, rest) }

  function TextOn(v: Json, rest: string): string
    decreases v, 0
  {
    match v
    case JNull => "null" + rest
    case JBool(b) => (if b then "true" else "false") + rest
    case JInt(n) => IntOn(n, rest)
    case JStr(s) => StrOn(s, rest)
    case JArr(items) => if items == [] then "[]" + rest else ['['] + ItemsOn(items, rest)
    case JObj(ms) => if ms == [] then "{}" + rest else ['{'] + MembersOn(ms, rest)
  }

  function ItemsOn(items: seq<Json>, rest: string): string
    requires items != []
    decreases items, 1
  {
    TextOn(items[0], if |items| == 1 then [']'] + rest else [','] + ItemsOn(items[1..], rest))
  }

  function MembersOn(ms: seq<Member>, rest: string): string
    requires ms != []
    decreases ms, 1
  {
    StrOn(ms[0].key, [':'] + TextOn(ms[0].value,
      if |ms| == 1 then ['}'] + rest else [','] + MembersOn(ms[1..], rest)))
  }

  /** `canonical_json`: keys sorted at every depth, `,` and `:` separators, no ASCII escaping. */
  function Canonical(v: Json): string { TextOn(Norm(v), "") }

  // ---------------------------------------------------------------------------------------------
  // Dict equality, defined without sorting: the same members, in some order, at every depth.
  // ---------------------------------------------------------------------------------------------

  /** Every object inside has pairwise different keys, as every Python value has. */
  predicate Valid(v: Json)
    decreases v
  {
    match v
    case JArr(items) => forall x | x in items :: Valid(x)
    case JObj(ms) => DistinctKeys(ms) && forall m | m in ms :: Valid(m.value)
    case _ => true
  }

  ghost predicate Same(a: Json, b: Json)
    decreases a
  {
    match (a, b)
    case (JArr(xs), JArr(ys)) => |xs| == |ys| && forall i | 0 <= i < |xs| :: Same(xs[i], ys[i])
    case (JObj(ms), JObj(ns)) => SameMembers(ms, ns)
    case _ => a == b
  }

  ghost predicate SameMembers(ms: seq<Member>, ns: seq<Member>)
    decreases ms
  {
    if ms == [] then ns == []
    else exists j | 0 <= j < |ns| ::
      && ns[j].key == ms[0].key
      && Same(ms[0].value, ns[j].value)
      && SameMembers(ms[1..], Without(ns, j))
  }

  function Without<T>(s: seq<T>, j: nat): seq<T>
    requires j < |s|
  {
    s[..j] + s[j + 1..]
  }

  lemma {:induction false} WithoutBag<T>(s: seq<T>, j: nat)
    requires j < |s|
    ensures multiset(s) == multiset(Without(s, j)) + multiset{s[j]}
    ensures forall x | x in Without(s, j) :: x in s
  {
    assert s == s[..j] + [s[j]] + s[j + 1..];
  }

  lemma {:induction false} NormEachWithout(ns: seq<Member>, j: nat)
    requires j < |ns|
    ensures multiset(NormEach(ns)) ==
      multiset(NormEach(Without(ns, j))) + multiset{Member(ns[j].key, Norm(ns[j].value))}
  {
    var each, rest := NormEach(ns), NormEach(Without(ns, j));
    forall i | 0 <= i < |rest| ensures rest[i] == Without(each, j)[i] {
      assert Without(ns, j)[i] == if i < j then ns[i] else ns[i + 1];
    }
    assert rest == Without(each, j);
    WithoutBag(each, j);
  }

  lemma {:induction false} SameHasSameNorm(a: Json, b: Json)
    requires Valid(a) && Valid(b) && Same(a, b)
    ensures Norm(a) == Norm(b)
    decreases a, 1
  {
    match (a, b)
    case (JArr(xs), JArr(ys)) =>
      forall i | 0 <= i < |xs| ensures Norm(xs[i]) == Norm(ys[i]) {
        SameHasSameNorm(xs[i], ys[i]);
      }
      NormItemsPointwise(xs, ys);
    case (JObj(ms), JObj(ns)) =>
      SameMembersBag(ms, ns);
      NormMembersSorted(ms);
      NormMembersSorted(ns);
      NormMembersBag(ms);
      NormMembersBag(ns);
      SortedUnique(NormMembers(ms), NormMembers(ns));
    case _ =>
  }

  lemma {:induction false} NormItemsPointwise(xs: seq<Json>, ys: seq<Json>)
    ensures |NormItems(xs)| == |xs|
    ensures NormItems(xs) == NormItems(ys) <==> |xs| == |ys| && forall i | 0 <= i < |xs| :: Norm(xs[i]) == Norm(ys[i])
  {
    if xs != [] && ys != [] {
      NormItemsPointwise(xs[1..], ys[1..]);
      assert NormItems(xs)[1..] == NormItems(xs[1..]) && NormItems(ys)[1..] == NormItems(ys[1..]);
      if forall i | 0 <= i < |xs[1..]| && |xs| == |ys| :: Norm(xs[1..][i]) == Norm(ys[1..][i]) {
        assert |xs| == |ys| ==> forall i | 1 <= i < |xs| :: xs[i] == xs[1..][i - 1] && ys[i] == ys[1..][i - 1];
      }
    } else if xs != [] {
      NormItemsPointwise(xs[1..], []);
    }
  }

  /** A first member and its partner contribute the same to the normal form. */
  lemma MatchedBag(ms: seq<Member>, ns: seq<Member>, j: nat)
    requires ms != [] && j < |ns| && ns[j].key == ms[0].key && Norm(ns[j].value) == Norm(ms[0].value)
    requires multiset(NormEach(ms[1..])) == multiset(NormEach(Without(ns, j)))
    ensures multiset(NormEach(ms)) == multiset(NormEach(ns))
  {
    hide Norm, Without;
    NormEachWithout(ns, j);
    assert NormEach(ms) == [Member(ms[0].key, Norm(ms[0].value))] + NormEach(ms[1..]);
  }

  lemma {:induction false} SameMembersBag(ms: seq<Member>, ns: seq<Member>)
    requires SameMembers(ms, ns)
    requires forall m | m in ms :: Valid(m.value)
    requires forall n | n in ns :: Valid(n.value)
    ensures multiset(NormEach(ms)) == multiset(NormEach(ns))
    decreases ms, 0
  {
    hide Norm, NormEach, Valid;
    if ms == [] {
      assert ns == [];
    } else {
      var j :| 0 <= j < |ns| && ns[j].key == ms[0].key && Same(ms[0].value, ns[j].value)
        && SameMembers(ms[1..], Without(ns, j));
      WithoutBag(ns, j);
      assert ms[0] in ms && ns[j] in ns;
      SameHasSameNorm(ms[0].value, ns[j].value);
      SameMembersBag(ms[1..], Without(ns, j));
      MatchedBag(ms, ns, j);
    }
  }

  lemma {:induction false} SameNormIsSame(a: Json, b: Json)
    requires Norm(a) == Norm(b)
    ensures Same(a, b)
    decreases a, 1
  {
    match (a, b)
    case (JArr(xs), JArr(ys)) =>
      NormItemsPointwise(xs, ys);
      forall i | 0 <= i < |xs| ensures Same(xs[i], ys[i]) {
        SameNormIsSame(xs[i], ys[i]);
      }
    case (JObj(ms), JObj(ns)) =>
      NormMembersBag(ms);
      NormMembersBag(ns);
      BagSameMembers(ms, ns);
    case _ =>
  }

  lemma {:induction false} BagSameMembers(ms: seq<Member>, ns: seq<Member>)
    requires multiset(NormEach(ms)) == multiset(NormEach(ns))
    ensures SameMembers(ms, ns)
    decreases ms, 0
  {
    if ms == [] {
      assert |NormEach(ns)| == |multiset(NormEach(ns))| == 0;
    } else {
      var j := Partner(ms, ns);
      SameNormIsSame(ms[0].value, ns[j].value);
      BagSameMembers(ms[1..], Without(ns, j));
    }
  }

  lemma {:induction false} Partner(ms: seq<Member>, ns: seq<Member>) returns (j: nat)
    requires ms != [] && multiset(NormEach(ms)) == multiset(NormEach(ns))
    ensures j < |ns| && ns[j].key == ms[0].key && Norm(ns[j].value) == Norm(ms[0].value)
    ensures multiset(NormEach(ms[1..])) == multiset(NormEach(Without(ns, j)))
  {
    var n := Member(ms[0].key, Norm(ms[0].value));
    var each, tail := NormEach(ns), NormEach(ms[1..]);
    assert NormEach(ms) == [n] + tail;
    assert n in multiset(each);
    j :| 0 <= j < |each| && each[j] == n;
    NormEachWithout(ns, j);
    Cancel(multiset(tail), multiset(NormEach(Without(ns, j))), n);
  }

  lemma Cancel<T>(a: multiset<T>, b: multiset<T>, x: T)
    requires a + multiset{x} == b + multiset{x}
    ensures a == b
  {
    assert a == (a + multiset{x}) - multiset{x};
    assert b == (b + multiset{x}) - multiset{x};
  }

  /** Insertion order never reaches the text, at any depth: equal dicts have one canonical text. */
  lemma CanonicalIgnoresInsertionOrder(a: Json, b: Json)
    requires Valid(a) && Valid(b) && Same(a, b)
    ensures Canonical(a) == Canonical(b)
  {
    SameHasSameNorm(a, b);
  }
}
