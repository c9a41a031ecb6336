/**
 The append-only audit log: records chained by hash and signed, and the check that walks the chain.

 The hash and the signature are parameters; nothing is assumed of them. A timestamp is its count
 of microseconds and its text is that count in decimal.
 */
module AuditChain {
  import opened Wrappers
  import opened Json
  import JsonParser

  datatype Crypto = Crypto(hash: string -> string, sign: string -> string)

  datatype AuditLog = AuditLog(
    sequence: int,
    eventType: string,
    actor: string,
    payload: Json,
    previousHash: Option<string>,
    entryHash: string,
    signature: string,
    createdAt: int)

  datatype IntegrityError =
    | UnexpectedSequence(sequence: int)
    | BrokenPreviousHash(sequence: int)
    | InvalidHash(sequence: int)
    | InvalidSignature(sequence: int)

  datatype AppendError = BadEventType | BadActor

  function Fields(r: AuditLog): seq<Member>
  {
    [ Member("sequence_number", JInt(r.sequence)),
      Member("event_type", JStr(r.eventType)),
      Member("actor_id", JStr(r.actor)),
      Member("event_payload", r.payload),
      Member("previous_hash", match r.previousHash case None => JNull case Some(h) => JStr(h)),
      Member("created_at", JStr(IntOn(r.createdAt, ""))) ]
  }

  /** The text that is hashed. */
  function Material(r: AuditLog): string { Canonical(JObj(Fields(r))) }

  function HeadHash(log: seq<AuditLog>): Option<string>
  {
    if log == [] then None else Some(log[|log| - 1].entryHash)
  }

  function NextSequence(log: seq<AuditLog>): int
  {
    if log == [] then 1 else log[|log| - 1].sequence + 1
  }

  /** `r` is a correct next record after `log`. */
  predicate Links(c: Crypto, log: seq<AuditLog>, r: AuditLog)
  {
    && r.sequence == |log| + 1
    && r.previousHash == HeadHash(log)
    && r.entryHash == c.hash(Material(r))
    && r.signature == c.sign(r.entryHash)
  }

  predicate WellLinked(c: Crypto, log: seq<AuditLog>)
  {
    forall i | 0 <= i < |log| :: Links(c, log[..i], log[i])
  }

  /** The record `append` builds on top of `log`. */
  function Seal(c: Crypto, log: seq<AuditLog>, eventType: string, actor: string, payload: Json, now: int): AuditLog
  {
    var open := AuditLog(NextSequence(log), eventType, actor, payload, HeadHash(log), "", "", now);
    var h := c.hash(Material(open));
    open.(entryHash := h, signature := c.sign(h))
  }

  predicate ValidName(s: string) { 1 <= |s| <= 128 }

  lemma SealLinks(c: Crypto, log: seq<AuditLog>, eventType: string, actor: string, payload: Json, now: int)
    requires WellLinked(c, log)
    ensures Links(c, log, Seal(c, log, eventType, actor, payload, now))
  {
    var r := Seal(c, log, eventType, actor, payload, now);
    assert Fields(r) == Fields(r.(entryHash := "", signature := ""));
    if log != [] {
      assert Links(c, log[..|log| - 1], log[|log| - 1]);
    }
  }

  lemma ExtendWellLinked(c: Crypto, log: seq<AuditLog>, r: AuditLog)
    requires WellLinked(c, log) && Links(c, log, r)
    ensures WellLinked(c, log + [r])
  {
    var l := log + [r];
    forall i | 0 <= i < |l| ensures Links(c, l[..i], l[i]) {
      assert l[..i] == log[..i];
      assert i == |log| ==> log[..i] == log;
    }
  }

  lemma PrefixWellLinked(c: Crypto, log: seq<AuditLog>, n: nat)
    requires WellLinked(c, log) && n <= |log|
    ensures WellLinked(c, log[..n])
  {
    forall i | 0 <= i < n ensures Links(c, log[..n][..i], log[..n][i]) {
      assert log[..n][..i] == log[..i];
    }
  }

  /** The first check that record `i` of the listing fails, in the order the walk makes them. */
  function Fault(c: Crypto, log: seq<AuditLog>, i: nat): Option<IntegrityError>
    requires i < |log|
  {
    var r := log[i];
    if r.sequence != i + 1 then Some(UnexpectedSequence(r.sequence))
    else if r.previousHash != HeadHash(log[..i]) then Some(BrokenPreviousHash(r.sequence))
    else if r.entryHash != c.hash(Material(r)) then Some(InvalidHash(r.sequence))
    else if r.signature != c.sign(r.entryHash) then Some(InvalidSignature(r.sequence))
    else None
  }

  /** What each fault means: the checks are made in this order, and the first that fails is named. */
  lemma FaultMeans(c: Crypto, log: seq<AuditLog>, i: nat)
    requires i < |log|
    ensures Fault(c, log, i) == None <==> Links(c, log[..i], log[i])
    ensures var r, e := log[i], Fault(c, log, i);
      var numbered := r.sequence == i + 1;
      var chained := numbered && r.previousHash == if i == 0 then None else Some(log[i - 1].entryHash);
      var hashed := chained && r.entryHash == c.hash(Material(r));
      && (!numbered <==> e == Some(UnexpectedSequence(r.sequence)))
      && (numbered && !chained <==> e == Some(BrokenPreviousHash(i + 1)))
      && (chained && !hashed <==> e == Some(InvalidHash(i + 1)))
      && (hashed && r.signature != c.sign(r.entryHash) <==> e == Some(InvalidSignature(i + 1)))
  {
  }

  class AuditLogger {
    const crypto: Crypto
    /** The stored records, in sequence order. */
    var log: seq<AuditLog>

    constructor (crypto: Crypto)
      ensures this.crypto == crypto && log == []
      ensures WellLinked(crypto, log)
    {
      this.crypto := crypto;
      log := [];
    }

    method Append(eventType: string, actor: string, payload: Json, now: int) returns (r: Result<AuditLog, AppendError>)
      modifies this`log
      ensures r.Err? ==> log == old(log) && (!ValidName(eventType) || !ValidName(actor))
      ensures r.Ok? ==>
        && ValidName(eventType) && ValidName(actor)
        && log == old(log) + [r.value]
        && r.value == Seal(crypto, old(log), eventType, actor, payload, now)
      ensures old(WellLinked(crypto, log)) ==> WellLinked(crypto, log)
    {
      if !ValidName(eventType) {
        return Err(BadEventType);
      }
      if !ValidName(actor) {
        return Err(BadActor);
      }
      var previous := if log == [] then None else Some(log[|log| - 1]);
      var sequence := if previous.None? then 1 else previous.value.sequence + 1;
      var previousHash := if previous.None? then None else Some(previous.value.entryHash);
      var open := AuditLog(sequence, eventType, actor, payload, previousHash, "", "", now);
      var entryHash := crypto.hash(Material(open));
      var record := open.(entryHash := entryHash, signature := crypto.sign(entryHash));
      if WellLinked(crypto, log) {
        SealLinks(crypto, log, eventType, actor, payload, now);
        ExtendWellLinked(crypto, log, record);
      }
      log := log + [record];
      r := Ok(record);
    }

    /** Accepts exactly the well-linked listings; otherwise names the first fault. */
    method VerifyChain() returns (r: Result<nat, IntegrityError>)
      ensures r.Ok? <==> WellLinked(crypto, log)
      ensures r.Ok? ==> r.value == |log|
      ensures r.Err? ==>
        exists i | 0 <= i < |log| :: WellLinked(crypto, log[..i]) && Fault(crypto, log, i) == Some(r.error)
    {
      var expectedPreviousHash: Option<string> := None;
      var expectedSequence := 1;
      for i := 0 to |log|
        invariant expectedSequence == i + 1
        invariant expectedPreviousHash == HeadHash(log[..i])
        invariant WellLinked(crypto, log[..i])
      {
        var record := log[i];
        assert Links(crypto, log[..i], log[i]) <==> Fault(crypto, log, i) == None;
        if record.sequence != expectedSequence {
          return Err(UnexpectedSequence(record.sequence));
        }
        var computedHash := crypto.hash(Material(record));
        if record.previousHash != expectedPreviousHash {
          return Err(BrokenPreviousHash(record.sequence));
        }
        if computedHash != record.entryHash {
          return Err(InvalidHash(record.sequence));
        }
        if crypto.sign(record.entryHash) != record.signature {
          return Err(InvalidSignature(record.sequence));
        }
        ExtendWellLinked(crypto, log[..i], record);
        assert log[..i + 1] == log[..i] + [record];
        expectedPreviousHash := Some(record.entryHash);
        expectedSequence := expectedSequence + 1;
      }
      assert log[..|log|] == log;
      r := Ok(|log|);
    }
  }

  // ---------------------------------------------------------------------------------------------
  // One head hash, one history.
  // ---------------------------------------------------------------------------------------------

  /** Two records with the same hash although what was hashed differs. */
  predicate Collision(c: Crypto, a: AuditLog, b: AuditLog)
  {
    c.hash(Material(a)) == c.hash(Material(b)) && Material(a) != Material(b)
  }

  predicate CollisionFree(c: Crypto, a: seq<AuditLog>, b: seq<AuditLog>)
  {
    forall i, j | 0 <= i < |a| && 0 <= j < |b| :: !Collision(c, a[i], b[j])
  }

  predicate ValidPayloads(log: seq<AuditLog>) { forall i | 0 <= i < |log| :: Valid(log[i].payload) }

  lemma CollisionFreePrefix(c: Crypto, a: seq<AuditLog>, b: seq<AuditLog>, n: nat, m: nat)
    requires n <= |a| && m <= |b| && CollisionFree(c, a, b)
    ensures CollisionFree(c, a[..n], b[..m])
  {
    forall i, j | 0 <= i < n && 0 <= j < m ensures !Collision(c, a[..n][i], b[..m][j]) {
      assert !Collision(c, a[i], b[j]);
    }
  }

  /** Equal in every hashed field and in the signature; payloads are equal up to key order. */
  ghost predicate SameRecord(a: AuditLog, b: AuditLog)
  {
    && a.sequence == b.sequence && a.eventType == b.eventType && a.actor == b.actor
    && Same(a.payload, b.payload)
    && a.previousHash == b.previousHash && a.createdAt == b.createdAt
    && a.entryHash == b.entryHash && a.signature == b.signature
  }

  ghost predicate SameHistory(a: seq<AuditLog>, b: seq<AuditLog>)
  {
    |a| == |b| && forall i | 0 <= i < |a| :: SameRecord(a[i], b[i])
  }

  lemma SameHistoryExtends(a: seq<AuditLog>, b: seq<AuditLog>)
    requires a != [] && |a| == |b|
    requires SameHistory(a[..|a| - 1], b[..|b| - 1]) && SameRecord(a[|a| - 1], b[|b| - 1])
    ensures SameHistory(a, b)
  {
    forall i | 0 <= i < |a| ensures SameRecord(a[i], b[i]) {
      if i < |a| - 1 { assert a[..|a| - 1][i] == a[i] && b[..|b| - 1][i] == b[i]; }
    }
  }

  lemma {:induction false} AlignedMembers(ms: seq<Member>, ns: seq<Member>)
    requires |ms| == |ns| && forall i | 0 <= i < |ms| :: ms[i].key == ns[i].key
    requires DistinctKeys(ns) && SameMembers(ms, ns)
    ensures forall i | 0 <= i < |ms| :: Same(ms[i].value, ns[i].value)
  {
    if ms != [] {
      var j :| 0 <= j < |ns| && ns[j].key == ms[0].key && Same(ms[0].value, ns[j].value)
        && SameMembers(ms[1..], Without(ns, j));
      assert forall k | 1 <= k < |ns| :: ns[k] == ns[1..][k - 1];
      assert j == 0;
      assert Without(ns, 0) == ns[1..];
      AlignedMembers(ms[1..], ns[1..]);
      forall i | 0 <= i < |ms| ensures Same(ms[i].value, ns[i].value) {
        if i > 0 { assert ms[i] == ms[1..][i - 1] && ns[i] == ns[1..][i - 1]; }
      }
    }
  }

  lemma {:induction false} DistinctByIndex(ms: seq<Member>)
    requires forall i, j | 0 <= i < j < |ms| :: ms[i].key != ms[j].key
    ensures DistinctKeys(ms)
  {
    if ms != [] {
      forall i, j | 0 <= i < j < |ms[1..]| ensures ms[1..][i].key != ms[1..][j].key {
        assert ms[1..][i] == ms[i + 1] && ms[1..][j] == ms[j + 1];
      }
      DistinctByIndex(ms[1..]);
      forall x | x in ms[1..] ensures x.key != ms[0].key {
        var i :| 0 <= i < |ms[1..]| && ms[1..][i] == x;
        assert ms[i + 1] == x;
      }
    }
  }

  lemma FieldKeysDiffer(r: AuditLog, i: nat, j: nat)
    requires i < j < 6
    ensures Fields(r)[i].key != Fields(r)[j].key
  {
    var a, b := Fields(r)[i].key, Fields(r)[j].key;
    assert i == 0 ==> a[0] == 's';
    assert i == 1 ==> a[6] == 't' && a[1] == 'v';
    assert i == 2 ==> a[0] == 'a';
    assert i == 3 ==> a[0] == 'e';
    assert i == 4 ==> a[0] == 'p';
    assert j == 1 ==> b[0] == 'e';
    assert j == 2 ==> b[0] == 'a';
    assert j == 3 ==> b[0] == 'e' && b[6] == 'p';
    assert j == 4 ==> b[0] == 'p';
    assert j == 5 ==> b[0] == 'c';
  }

  lemma FieldsValid(r: AuditLog)
    requires Valid(r.payload)
    ensures Valid(JObj(Fields(r)))
  {
    var f := Fields(r);
    forall i, j | 0 <= i < j < |f| ensures f[i].key != f[j].key {
      FieldKeysDiffer(r, i, j);
    }
    DistinctByIndex(f);
    forall m | m in f ensures Valid(m.value) {
    }
  }

  lemma TimeTextInjective(a: int, b: int)
    requires IntOn(a, "") == IntOn(b, "")
    ensures a == b
  {
    JsonParser.IntParses(a, "");
    JsonParser.IntParses(b, "");
  }

  lemma FieldsAligned(a: AuditLog, b: AuditLog)
    requires Valid(JObj(Fields(b))) && Same(JObj(Fields(a)), JObj(Fields(b)))
    ensures forall i | 0 <= i < 6 :: Same(Fields(a)[i].value, Fields(b)[i].value)
  {
    AlignedMembers(Fields(a), Fields(b));
  }

  lemma AlignedFieldsEqual(a: AuditLog, b: AuditLog)
    requires forall i | 0 <= i < 6 :: Same(Fields(a)[i].value, Fields(b)[i].value)
    ensures a.sequence == b.sequence && a.eventType == b.eventType && a.actor == b.actor
    ensures Same(a.payload, b.payload)
    ensures a.previousHash == b.previousHash && IntOn(a.createdAt, "") == IntOn(b.createdAt, "")
  {
    var f, g := Fields(a), Fields(b);
    assert Same(f[0].value, g[0].value);
    assert Same(f[1].value, g[1].value);
    assert Same(f[2].value, g[2].value);
    assert Same(f[3].value, g[3].value);
    assert Same(f[4].value, g[4].value);
    assert Same(f[5].value, g[5].value);
  }

  /** The hashed text determines every field that goes into it. */
  lemma MaterialDetermines(a: AuditLog, b: AuditLog)
    requires Valid(a.payload) && Valid(b.payload)
    requires Material(a) == Material(b)
    ensures a.sequence == b.sequence && a.eventType == b.eventType && a.actor == b.actor
    ensures Same(a.payload, b.payload)
    ensures a.previousHash == b.previousHash && a.createdAt == b.createdAt
  {
    FieldsValid(a);
    FieldsValid(b);
    JsonParser.CanonicalInjective(JObj(Fields(a)), JObj(Fields(b)));
    FieldsAligned(a, b);
    AlignedFieldsEqual(a, b);
    TimeTextInjective(a.createdAt, b.createdAt);
  }

  /** Its number does so whatever the payload. */
  lemma MaterialHasSequence(a: AuditLog, b: AuditLog)
    requires Material(a) == Material(b)
    ensures a.sequence == b.sequence
  {
    var f, g := Fields(a), Fields(b);
    JsonParser.CanonicalRoundTrip(JObj(f));
    JsonParser.CanonicalRoundTrip(JObj(g));
    NormMembersBag(f);
    NormMembersBag(g);
    assert NormEach(f)[0] in multiset(NormEach(g));
    var i :| 0 <= i < |g| && NormEach(g)[i] == NormEach(f)[0];
    if i > 0 {
      FieldKeysDiffer(b, 0, i);
    }
  }

  ghost predicate Injective(f: string -> string) { forall x, y :: f(x) == f(y) ==> x == y }

  lemma LastRecordsEqual(c: Crypto, a: seq<AuditLog>, b: seq<AuditLog>)
    requires a != [] && b != []
    requires WellLinked(c, a) && WellLinked(c, b)
    requires ValidPayloads(a) && ValidPayloads(b)
    requires CollisionFree(c, a, b)
    requires HeadHash(a) == HeadHash(b)
    ensures |a| == |b| && SameRecord(a[|a| - 1], b[|b| - 1])
    ensures HeadHash(a[..|a| - 1]) == HeadHash(b[..|b| - 1])
  {
    var x, y := a[|a| - 1], b[|b| - 1];
    assert Links(c, a[..|a| - 1], x) && Links(c, b[..|b| - 1], y);
    assert !Collision(c, x, y);
    MaterialDetermines(x, y);
  }

  /**
   Two accepted logs that end in the same entry hash are the same log, record by record, unless
   two of their records exhibit a hash collision.
   */
  lemma {:induction false} HeadHashDeterminesHistory(c: Crypto, a: seq<AuditLog>, b: seq<AuditLog>)
    requires WellLinked(c, a) && WellLinked(c, b)
    requires ValidPayloads(a) && ValidPayloads(b)
    requires CollisionFree(c, a, b)
    requires HeadHash(a) == HeadHash(b)
    ensures SameHistory(a, b)
  {
    if a != [] && b != [] {
      var n, m := |a| - 1, |b| - 1;
      LastRecordsEqual(c, a, b);
      PrefixWellLinked(c, a, n);
      PrefixWellLinked(c, b, m);
      CollisionFreePrefix(c, a, b, n, m);
      HeadHashDeterminesHistory(c, a[..n], b[..m]);
      SameHistoryExtends(a, b);
    }
  }
}
