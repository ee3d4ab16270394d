/** The hash-linked custody chain: hashing, appending, verifying, and putting
    shuffled rows back in order. The digest is an abstract function to 64 hex
    digits; where the program relies on it being collision-free, the lemmas name
    the two rows whose texts collide instead. */
module CustodyChain {
  import opened Json
  import opened JsonParser

  type Digest = Text -> Text

  const NEWLINE: Unit := 0x0A

  datatype Fact = Fact(shipment: Text, kind: Text, actor: Option<Text>, leg: Option<Text>, stay: Option<Text>,
                       payload: Value, createdAt: Text)

  datatype Row = Row(fact: Fact, prev: Option<Text>, hash: Text)

  datatype Reason = BrokenLink | HashMismatch | DanglingFirstLink

  datatype Verification = Verified | Faulty(index: nat, reason: Reason) | Threw

  function Name(s: string): Text {
    seq(|s|, i requires 0 <= i < |s| => s[i] as int % 0x1_0000)
  }

  function OrNull(t: Option<Text>): Value {
    if t.Some? then VString(t.value) else VNull
  }

  /** The object that is canonicalised and hashed. */
  function FactFields(f: Fact): Pairs<Value> {
    Pair(Name("shipmentId"), VString(f.shipment),
    Pair(Name("type"), VString(f.kind),
    Pair(Name("actorUserId"), OrNull(f.actor),
    Pair(Name("legId"), OrNull(f.leg),
    Pair(Name("hubStayId"), OrNull(f.stay),
    Pair(Name("payload"), f.payload,
    Pair(Name("createdAt"), VString(f.createdAt), Empty)))))))
  }

  function CanonicalFact(f: Fact): Option<Text> {
    Canonical(VObject(FactFields(f)))
  }

  function Preimage(prev: Option<Text>, canonical: Text): Text {
    (if prev.Some? then prev.value else Name("genesis")) + [NEWLINE] + canonical
  }

  function EventHash(f: Fact, prev: Option<Text>, digest: Digest): Option<Text> {
    match CanonicalFact(f)
    case None => None
    case Some(canonical) => Some(digest(Preimage(prev, canonical)))
  }

  function LinkAt(rows: seq<Row>, i: nat): Option<Text>
    requires i <= |rows|
  {
    if i == 0 then None else Some(rows[i - 1].hash)
  }

  predicate RowFits(rows: seq<Row>, i: nat, digest: Digest)
    requires i < |rows|
  {
    rows[i].prev == LinkAt(rows, i) && EventHash(rows[i].fact, rows[i].prev, digest) == Some(rows[i].hash)
  }

  ghost predicate Accepted(rows: seq<Row>, digest: Digest) {
    forall i: nat :: i < |rows| ==> RowFits(rows, i, digest)
  }

  /** Verify a chain in insertion order; report its first bad row. */
  method VerifyCustodyChain(rows: seq<Row>, digest: Digest) returns (v: Verification)
    ensures v == Verified <==> Accepted(rows, digest)
    ensures v.Faulty? ==>
      && v.index < |rows| && Accepted(rows[..v.index], digest) && !RowFits(rows, v.index, digest)
      && (v.reason == HashMismatch <==> rows[v.index].prev == LinkAt(rows, v.index))
      && (v.reason == DanglingFirstLink ==> v.index == 0) && (v.reason == BrokenLink ==> v.index > 0)
  {
    var prevHash: Option<Text> := None;
    for i: nat := 0 to |rows|
      invariant prevHash == LinkAt(rows, i)
      invariant forall k: nat :: k < i ==> RowFits(rows, k, digest)
    {
      assert Accepted(rows[..i], digest) by {
        forall k: nat | k < i ensures RowFits(rows[..i], k, digest) { assert RowFits(rows, k, digest); }
      }
      var row := rows[i];
      assert RowFits(rows, i, digest) <==> row.prev == prevHash && EventHash(row.fact, row.prev, digest) == Some(row.hash);
      if row.prev != prevHash { return Faulty(i, if i == 0 then DanglingFirstLink else BrokenLink); }
      match EventHash(row.fact, row.prev, digest)
      case None => return Threw;
      case Some(hash) => if hash != row.hash { return Faulty(i, HashMismatch); }
      prevHash := Some(row.hash);
    }
    return Verified;
  }

  // ----------------------------------------------------------- the canonical fact determines the fact

  function Lookup<T>(k: Text, ps: Pairs<T>): Option<T> {
    match ps
    case Empty => None
    case Pair(l, x, rest) => if k == l then Some(x) else Lookup(k, rest)
  }

  lemma {:induction false} LookupInserted<T>(k: Text, l: Text, x: T, ps: Pairs<T>)
    ensures Lookup(k, Insert(l, x, ps)) == if k == l then Some(x) else Lookup(k, ps)
  {
    BeforeIrreflexive(l);
    if ps.Pair? { LookupInserted(k, l, x, ps.rest); }
  }

  lemma {:induction false} LookupSorted<T>(k: Text, ps: Pairs<T>)
    ensures Lookup(k, Sort(ps)) == Lookup(k, ps)
  {
    if ps.Pair? {
      LookupSorted(k, ps.rest);
      LookupInserted(k, ps.key, ps.value, Sort(ps.rest));
    }
  }

  /** The value found under a key, once normalised. */
  lemma {:induction false} LookupNormal(k: Text, fields: Pairs<Value>)
    requires NormalFields(fields).Some? && Lookup(k, fields).Some? && !Lookup(k, fields).value.VUndefined?
    ensures Lookup(k, NormalFields(fields).value) == Normal(Lookup(k, fields).value)
  {
    match fields
    case Empty =>
    case Pair(l, x, rest) => if k != l { LookupNormal(k, rest); }
  }

  /** The same fact, up to the normal form of its payload. */
  predicate SameFact(f: Fact, g: Fact) {
    && f.shipment == g.shipment && f.kind == g.kind && f.actor == g.actor && f.leg == g.leg && f.stay == g.stay
    && f.createdAt == g.createdAt && Normal(f.payload) == Normal(g.payload)
  }

  lemma NamesDiffer()
    ensures Name("shipmentId")[0] == 0x73 && Name("type")[0] == 0x74 && Name("actorUserId")[0] == 0x61
    ensures Name("legId")[0] == 0x6C && Name("hubStayId")[0] == 0x68 && Name("payload")[0] == 0x70
    ensures Name("createdAt")[0] == 0x63
  {}

  lemma LookupStep<T>(k: Text, l: Text, x: T, rest: Pairs<T>)
    ensures Lookup(k, Pair(l, x, rest)) == if k == l then Some(x) else Lookup(k, rest)
  {}

  lemma FactLookup(k: Text, f: Fact)
    ensures Lookup(k, FactFields(f)) ==
      if k == Name("shipmentId") then Some(VString(f.shipment))
      else if k == Name("type") then Some(VString(f.kind))
      else if k == Name("actorUserId") then Some(OrNull(f.actor))
      else if k == Name("legId") then Some(OrNull(f.leg))
      else if k == Name("hubStayId") then Some(OrNull(f.stay))
      else if k == Name("payload") then Some(f.payload)
      else if k == Name("createdAt") then Some(VString(f.createdAt))
      else None
  {
    hide Name;
    var last := Pair(Name("createdAt"), VString(f.createdAt), Empty);
    var payload := Pair(Name("payload"), f.payload, last);
    var stay := Pair(Name("hubStayId"), OrNull(f.stay), payload);
    var leg := Pair(Name("legId"), OrNull(f.leg), stay);
    var actor := Pair(Name("actorUserId"), OrNull(f.actor), leg);
    var kind := Pair(Name("type"), VString(f.kind), actor);
    LookupStep(k, Name("shipmentId"), VString(f.shipment), kind);
    LookupStep(k, Name("type"), VString(f.kind), actor);
    LookupStep(k, Name("actorUserId"), OrNull(f.actor), leg);
    LookupStep(k, Name("legId"), OrNull(f.leg), stay);
    LookupStep(k, Name("hubStayId"), OrNull(f.stay), payload);
    LookupStep(k, Name("payload"), f.payload, last);
    LookupStep(k, Name("createdAt"), VString(f.createdAt), Empty);
  }

  lemma FactLookups(f: Fact)
    ensures var fields := FactFields(f);
      && Lookup(Name("shipmentId"), fields) == Some(VString(f.shipment)) && Lookup(Name("type"), fields) == Some(VString(f.kind))
      && Lookup(Name("actorUserId"), fields) == Some(OrNull(f.actor)) && Lookup(Name("legId"), fields) == Some(OrNull(f.leg))
      && Lookup(Name("hubStayId"), fields) == Some(OrNull(f.stay)) && Lookup(Name("payload"), fields) == Some(f.payload)
      && Lookup(Name("createdAt"), fields) == Some(VString(f.createdAt))
  {
    NamesDiffer();
    hide Name, FactFields, Lookup;
    FactLookup(Name("shipmentId"), f);
    FactLookup(Name("type"), f);
    FactLookup(Name("actorUserId"), f);
    FactLookup(Name("legId"), f);
    FactLookup(Name("hubStayId"), f);
    FactLookup(Name("payload"), f);
    FactLookup(Name("createdAt"), f);
  }

  lemma OneFieldNormal(k: Text, f: Fact, g: Fact, x: Value, y: Value)
    requires Lookup(k, FactFields(f)) == Some(x) && Lookup(k, FactFields(g)) == Some(y) && !x.VUndefined? && !y.VUndefined?
    requires NormalFields(FactFields(f)).Some? && NormalFields(FactFields(g)).Some?
    requires Sort(NormalFields(FactFields(f)).value) == Sort(NormalFields(FactFields(g)).value)
    ensures Normal(x) == Normal(y)
  {
    hide FactFields, NormalFields, Normal, Sort;
    LookupNormal(k, FactFields(f));
    LookupNormal(k, FactFields(g));
    LookupSorted(k, NormalFields(FactFields(f)).value);
    LookupSorted(k, NormalFields(FactFields(g)).value);
  }

  lemma OrNullNormal(a: Option<Text>, b: Option<Text>)
    requires Normal(OrNull(a)) == Normal(OrNull(b))
    ensures a == b
  {}

  lemma SameNormalSameFact(f: Fact, g: Fact)
    requires NormalFields(FactFields(f)).Some? && NormalFields(FactFields(g)).Some?
    requires Sort(NormalFields(FactFields(f)).value) == Sort(NormalFields(FactFields(g)).value)
    requires !f.payload.VUndefined? && !g.payload.VUndefined?
    ensures SameFact(f, g)
  {
    FactLookups(f);
    FactLookups(g);
    hide FactFields, NormalFields, Sort, Lookup, Name;
    OneFieldNormal(Name("shipmentId"), f, g, VString(f.shipment), VString(g.shipment));
    OneFieldNormal(Name("type"), f, g, VString(f.kind), VString(g.kind));
    OneFieldNormal(Name("actorUserId"), f, g, OrNull(f.actor), OrNull(g.actor));
    OneFieldNormal(Name("legId"), f, g, OrNull(f.leg), OrNull(g.leg));
    OneFieldNormal(Name("hubStayId"), f, g, OrNull(f.stay), OrNull(g.stay));
    OneFieldNormal(Name("payload"), f, g, f.payload, g.payload);
    OneFieldNormal(Name("createdAt"), f, g, VString(f.createdAt), VString(g.createdAt));
    OrNullNormal(f.actor, g.actor);
    OrNullNormal(f.leg, g.leg);
    OrNullNormal(f.stay, g.stay);
  }

  predicate Sane(f: Fact) {
    !f.payload.VUndefined? && WellNumbered(f.payload)
  }

  lemma NumberedStep(k: Text, x: Value, rest: Pairs<Value>)
    ensures FieldsWellNumbered(Pair(k, x, rest)) == (WellNumbered(x) && FieldsWellNumbered(rest))
  {}

  lemma SaneFactsWellNumbered(f: Fact)
    requires Sane(f)
    ensures WellNumbered(VObject(FactFields(f)))
  {
    hide Name;
    var last := Pair(Name("createdAt"), VString(f.createdAt), Empty);
    var payload := Pair(Name("payload"), f.payload, last);
    var stay := Pair(Name("hubStayId"), OrNull(f.stay), payload);
    var leg := Pair(Name("legId"), OrNull(f.leg), stay);
    var actor := Pair(Name("actorUserId"), OrNull(f.actor), leg);
    var kind := Pair(Name("type"), VString(f.kind), actor);
    NumberedStep(Name("payload"), f.payload, last);
    NumberedStep(Name("hubStayId"), OrNull(f.stay), payload);
    NumberedStep(Name("legId"), OrNull(f.leg), stay);
    NumberedStep(Name("actorUserId"), OrNull(f.actor), leg);
    NumberedStep(Name("type"), VString(f.kind), actor);
    NumberedStep(Name("shipmentId"), VString(f.shipment), kind);
  }

  /** Equal canonical facts are the same fact. */
  lemma CanonicalFactFaithful(f: Fact, g: Fact)
    requires Sane(f) && Sane(g) && CanonicalFact(f).Some? && CanonicalFact(f) == CanonicalFact(g)
    ensures SameFact(f, g)
  {
    SaneFactsWellNumbered(f);
    SaneFactsWellNumbered(g);
    hide FactFields, WellNumbered;
    CanonicalIsFaithful(VObject(FactFields(f)), VObject(FactFields(g)));
    CanonicalInverts(VObject(FactFields(f)));
    CanonicalInverts(VObject(FactFields(g)));
    SameNormalSameFact(f, g);
  }

  // ----------------------------------------------------------- tamper evidence

  /** The digest prints 64 hex digits. */
  ghost predicate HexDigest(digest: Digest) {
    forall t: Text :: IsHash(digest(t))
  }

  predicate IsHash(t: Text) {
    |t| == 64 && forall i :: 0 <= i < 64 ==> HexValue(t[i]).Some?
  }

  /** These two rows were hashed from different texts, to the same digest. */
  predicate Clash(x: Row, y: Row, digest: Digest) {
    && CanonicalFact(x.fact).Some? && CanonicalFact(y.fact).Some?
    && var s, t := Preimage(x.prev, CanonicalFact(x.fact).value), Preimage(y.prev, CanonicalFact(y.fact).value);
       s != t && digest(s) == digest(t)
  }

  /** The predecessor and the canonical fact can be read off what is hashed. */
  lemma PreimageSplits(p: Option<Text>, c: Text, q: Option<Text>, d: Text)
    requires (p.Some? ==> IsHash(p.value)) && (q.Some? ==> IsHash(q.value)) && Preimage(p, c) == Preimage(q, d)
    ensures p == q && c == d
  {
    var s := Preimage(p, c);
    var a := if p.Some? then 64 else 7;
    var b := if q.Some? then 64 else 7;
    assert |Name("genesis")| == 7;
    assert s[a] == NEWLINE && s[b] == NEWLINE;
    assert s[a + 1..] == c && s[b + 1..] == d;
    if p.Some? { assert s[..64] == p.value && s[7] == p.value[7]; }
    if q.Some? { assert s[..64] == q.value && s[7] == q.value[7]; }
  }

  ghost predicate SameHistory(a: seq<Row>, b: seq<Row>) {
    |a| == |b| && forall i: nat :: i < |a| ==>
      a[i].hash == b[i].hash && a[i].prev == b[i].prev && SameFact(a[i].fact, b[i].fact)
  }

  lemma AcceptedPrefix(rows: seq<Row>, n: nat, digest: Digest)
    requires Accepted(rows, digest) && n <= |rows|
    ensures Accepted(rows[..n], digest)
  {
    forall k: nat | k < n
      ensures RowFits(rows[..n], k, digest)
    {
      assert RowFits(rows, k, digest);
    }
  }

  /** Two rows with one hash: the same link and the same fact, or a clash. */
  lemma SameHashSameRow(a: Row, b: Row, digest: Digest)
    requires HexDigest(digest) && a.hash == b.hash && Sane(a.fact) && Sane(b.fact)
    requires (a.prev.Some? ==> IsHash(a.prev.value)) && (b.prev.Some? ==> IsHash(b.prev.value))
    requires EventHash(a.fact, a.prev, digest) == Some(a.hash) && EventHash(b.fact, b.prev, digest) == Some(b.hash)
    ensures Clash(a, b, digest) || (a.prev == b.prev && SameFact(a.fact, b.fact))
  {
    var c, d := CanonicalFact(a.fact).value, CanonicalFact(b.fact).value;
    if Preimage(a.prev, c) == Preimage(b.prev, d) {
      PreimageSplits(a.prev, c, b.prev, d);
      CanonicalFactFaithful(a.fact, b.fact);
    }
  }

  lemma LinksAreHashes(rows: seq<Row>, i: nat, digest: Digest)
    requires HexDigest(digest) && Accepted(rows, digest) && i < |rows|
    ensures rows[i].prev == LinkAt(rows, i) && (rows[i].prev.Some? ==> IsHash(rows[i].prev.value))
    ensures EventHash(rows[i].fact, rows[i].prev, digest) == Some(rows[i].hash)
  {
    assert RowFits(rows, i, digest);
    if i > 0 { assert RowFits(rows, i - 1, digest); }
  }

  /** Two accepted chains that end in the same hash tell the same history, event
      by event, or a row of one clashes with a row of the other: the two indices
      are where. */
  lemma {:induction false} TamperEvidence(a: seq<Row>, b: seq<Row>, digest: Digest) returns (i: nat, j: nat)
    requires HexDigest(digest) && Accepted(a, digest) && Accepted(b, digest)
    requires forall r <- a + b :: Sane(r.fact)
    requires LinkAt(a, |a|) == LinkAt(b, |b|)
    ensures SameHistory(a, b) || (i < |a| && j < |b| && Clash(a[i], b[j], digest))
  {
    hide RowFits, EventHash, SameFact, Sane, IsHash, Clash, HexDigest, Accepted, SameHistory;
    i, j := 0, 0;
    if a == [] || b == [] {
      NothingToTell(a, b);
    } else {
      var m, n := |a| - 1, |b| - 1;
      i, j := m, n;
      LastRowsSame(a, b, digest);
      AcceptedPrefix(a, m, digest);
      AcceptedPrefix(b, n, digest);
      assert forall r <- a[..m] + b[..n] :: r in a + b;
      if !Clash(a[m], b[n], digest) {
        assert LinkAt(a[..m], m) == LinkAt(a, m) && LinkAt(b[..n], n) == LinkAt(b, n);
        i, j := TamperEvidence(a[..m], b[..n], digest);
        if SameHistory(a[..m], b[..n]) { HistoryGrows(a, b); }
      }
    }
  }

  lemma NothingToTell(a: seq<Row>, b: seq<Row>)
    requires (a == [] || b == []) && LinkAt(a, |a|) == LinkAt(b, |b|)
    ensures SameHistory(a, b)
  {}

  lemma LastRowsSame(a: seq<Row>, b: seq<Row>, digest: Digest)
    requires a != [] && b != [] && HexDigest(digest) && Accepted(a, digest) && Accepted(b, digest)
    requires (forall r <- a + b :: Sane(r.fact)) && LinkAt(a, |a|) == LinkAt(b, |b|)
    ensures var x, y := a[|a| - 1], b[|b| - 1];
      || Clash(x, y, digest)
      || (x.hash == y.hash && x.prev == y.prev && SameFact(x.fact, y.fact) && LinkAt(a, |a| - 1) == LinkAt(b, |b| - 1))
  {
    hide RowFits, EventHash, SameFact, Sane, IsHash, Clash, HexDigest, Accepted;
    var m, n := |a| - 1, |b| - 1;
    assert a[m] in a + b && b[n] in a + b;
    LinksAreHashes(a, m, digest);
    LinksAreHashes(b, n, digest);
    SameHashSameRow(a[m], b[n], digest);
  }

  lemma HistoryGrows(a: seq<Row>, b: seq<Row>)
    requires a != [] && b != [] && SameHistory(a[..|a| - 1], b[..|b| - 1])
    requires var x, y := a[|a| - 1], b[|b| - 1]; x.hash == y.hash && x.prev == y.prev && SameFact(x.fact, y.fact)
    ensures SameHistory(a, b)
  {
    hide SameFact;
    var p, q := a[..|a| - 1], b[..|b| - 1];
    forall i: nat | i < |a|
      ensures a[i].hash == b[i].hash && a[i].prev == b[i].prev && SameFact(a[i].fact, b[i].fact)
    {
      if i < |p| { assert a[i] == p[i] && b[i] == q[i]; }
    }
  }

  // ----------------------------------------------------------- appending

  /** What is stored of a fact: its payload as parsed back from its canonical text. */
  function StoredFact(f: Fact): Fact {
    var text := Canonical(f.payload);
    if text.None? then f
    else
      var parsed := Parse(text.value);
      if parsed.None? then f else f.(payload := Loaded(parsed.value))
  }

  /** The executor's append: hash the fact at hand, store its canonical form. */
  function Append(rows: seq<Row>, f: Fact, digest: Digest): Option<seq<Row>> {
    var prev := LinkAt(rows, |rows|);
    match EventHash(f, prev, digest)
    case None => None
    case Some(hash) => Some(rows + [Row(StoredFact(f), prev, hash)])
  }

  lemma OnlyThePayloadText(f: Fact, payload: Value)
    requires Canonical(payload) == Canonical(f.payload) && !payload.VUndefined? && !f.payload.VUndefined?
    ensures CanonicalFact(f.(payload := payload)) == CanonicalFact(f)
  {
    hide Name;
    var last := Pair(Name("createdAt"), VString(f.createdAt), Empty);
    OneField(Name("payload"), f.payload, last);
    OneField(Name("payload"), payload, last);
    SameTailSameFields(f, f.(payload := payload));
  }

  lemma SameTailSameFields(f: Fact, g: Fact)
    requires g == f.(payload := g.payload)
    requires var last := Pair(Name("createdAt"), VString(f.createdAt), Empty);
      FieldTexts(Pair(Name("payload"), f.payload, last)) == FieldTexts(Pair(Name("payload"), g.payload, last))
    ensures FieldTexts(FactFields(f)) == FieldTexts(FactFields(g))
  {
    hide Name, Canonical;
    var last := Pair(Name("createdAt"), VString(f.createdAt), Empty);
    var p, q := Pair(Name("payload"), f.payload, last), Pair(Name("payload"), g.payload, last);
    OneField(Name("hubStayId"), OrNull(f.stay), p);
    OneField(Name("hubStayId"), OrNull(f.stay), q);
    var p5, q5 := Pair(Name("hubStayId"), OrNull(f.stay), p), Pair(Name("hubStayId"), OrNull(f.stay), q);
    OneField(Name("legId"), OrNull(f.leg), p5);
    OneField(Name("legId"), OrNull(f.leg), q5);
    var p4, q4 := Pair(Name("legId"), OrNull(f.leg), p5), Pair(Name("legId"), OrNull(f.leg), q5);
    OneField(Name("actorUserId"), OrNull(f.actor), p4);
    OneField(Name("actorUserId"), OrNull(f.actor), q4);
    var p3, q3 := Pair(Name("actorUserId"), OrNull(f.actor), p4), Pair(Name("actorUserId"), OrNull(f.actor), q4);
    OneField(Name("type"), VString(f.kind), p3);
    OneField(Name("type"), VString(f.kind), q3);
    var p2, q2 := Pair(Name("type"), VString(f.kind), p3), Pair(Name("type"), VString(f.kind), q3);
    OneField(Name("shipmentId"), VString(f.shipment), p2);
    OneField(Name("shipmentId"), VString(f.shipment), q2);
  }

  lemma StoredHashesTheSame(f: Fact)
    requires Sane(f) && Canonical(f.payload).Some?
    ensures CanonicalFact(StoredFact(f)) == CanonicalFact(f) && SameFact(StoredFact(f), f)
  {
    CanonicalAgain(f.payload);
    CanonicalInverts(f.payload);
    NormalIsTidy(f.payload);
    LoadedIsNormal(Normal(f.payload).value);
    OnlyThePayloadText(f, StoredFact(f).payload);
  }

  /** A chain grown by the executor stays accepted: the auditor recomputes the
      very hashes from the stored rows. */
  lemma AppendAccepted(rows: seq<Row>, f: Fact, digest: Digest)
    requires Accepted(rows, digest) && Sane(f) && Canonical(f.payload).Some? && Append(rows, f, digest).Some?
    ensures Accepted(Append(rows, f, digest).value, digest)
  {
    hide CanonicalFact, StoredFact, Sane, Canonical;
    var grown := Append(rows, f, digest).value;
    StoredHashesTheSame(f);
    assert EventHash(StoredFact(f), LinkAt(rows, |rows|), digest) == EventHash(f, LinkAt(rows, |rows|), digest);
    hide EventHash;
    forall i: nat | i < |grown|
      ensures RowFits(grown, i, digest)
    {
      assert LinkAt(grown, i) == LinkAt(rows, i);
      if i < |rows| { assert RowFits(rows, i, digest); }
    }
  }

  /** In an accepted chain a hash that comes twice leads back to two rows that
      clash. */
  lemma {:induction false} HashesDistinct(rows: seq<Row>, i: nat, j: nat, digest: Digest) returns (x: nat, y: nat)
    requires HexDigest(digest) && Accepted(rows, digest) && i < j < |rows| && rows[i].hash == rows[j].hash
    requires forall r <- rows :: Sane(r.fact)
    ensures x < y < |rows| && Clash(rows[x], rows[y], digest)
  {
    hide RowFits, EventHash, SameFact, Sane, IsHash, Clash, HexDigest, Accepted;
    LinksAreHashes(rows, i, digest);
    LinksAreHashes(rows, j, digest);
    SameHashSameRow(rows[i], rows[j], digest);
    x, y := i, j;
    if i > 0 && !Clash(rows[i], rows[j], digest) { x, y := HashesDistinct(rows, i - 1, j - 1, digest); }
  }

  // ----------------------------------------------------------- putting rows back in order

  datatype Ordering = Linear(rows: seq<Row>) | Fork | Broken | Endless

  type Links = map<Option<Text>, Row>

  /** The rows by predecessor, the later one winning. */
  function ByPrev(rows: seq<Row>): Links {
    if rows == [] then map[]
    else
      var last := rows[|rows| - 1];
      ByPrev(rows[..|rows| - 1])[last.prev := last]
  }

  predicate Forked(rows: seq<Row>) {
    exists i: nat, j: nat :: i < j < |rows| && rows[i].prev == rows[j].prev
  }

  /** At most `steps` rows from the cursor on. */
  function Follow(links: Links, cursor: Option<Text>, steps: nat): seq<Row>
    decreases steps
  {
    if steps == 0 || cursor !in links then []
    else [links[cursor]] + Follow(links, Some(links[cursor].hash), steps - 1)
  }

  /** The walk from the genesis row, cut after one row more than there are. */
  function Walk(rows: seq<Row>): seq<Row> {
    Follow(ByPrev(rows), None, |rows| + 1)
  }

  function Verdict(rows: seq<Row>): Ordering {
    if |Walk(rows)| > |rows| then Endless else if |Walk(rows)| < |rows| then Broken else Linear(Walk(rows))
  }

  /** Table the rows by predecessor; a predecessor claimed twice is a fork. */
  method TableLinks(rows: seq<Row>) returns (forked: bool, byPrev: Links)
    ensures forked <==> Forked(rows)
    ensures !forked ==> byPrev == ByPrev(rows)
  {
    byPrev := map[];
    for i: nat := 0 to |rows|
      invariant byPrev == ByPrev(rows[..i])
      invariant forall k: Option<Text> :: k in byPrev <==> exists j: nat :: j < i && rows[j].prev == k
      invariant forall a: nat, b: nat :: a < b < i ==> rows[a].prev != rows[b].prev
    {
      if rows[i].prev in byPrev { return true, byPrev; }
      assert rows[..i + 1][..i] == rows[..i];
      byPrev := byPrev[rows[i].prev := rows[i]];
    }
    assert rows[..|rows|] == rows;
    return false, byPrev;
  }

  /** The program walks without a bound: where it would never stop, this says so. */
  method OrderCustodyChain(rows: seq<Row>) returns (ordering: Ordering)
    ensures ordering == if Forked(rows) then Fork else Verdict(rows)
  {
    var forked, byPrev := TableLinks(rows);
    if forked { return Fork; }
    var ordered: seq<Row> := [];
    var cursor: Option<Text> := None;
    while cursor in byPrev && |ordered| <= |rows|
      invariant |ordered| <= |rows| + 1
      invariant Walk(rows) == ordered + Follow(byPrev, cursor, |rows| + 1 - |ordered|)
      decreases |rows| + 1 - |ordered|
    {
      var row := byPrev[cursor];
      assert ordered + ([row] + Follow(byPrev, Some(row.hash), |rows| - |ordered|))
          == (ordered + [row]) + Follow(byPrev, Some(row.hash), |rows| - |ordered|);
      ordered := ordered + [row];
      cursor := Some(row.hash);
    }
    assert Walk(rows) == ordered;
    if |ordered| > |rows| { return Endless; }
    return if |ordered| == |rows| then Linear(ordered) else Broken;
  }

  predicate Linked(c: seq<Row>) {
    forall i: nat :: i < |c| ==> c[i].prev == LinkAt(c, i)
  }

  predicate HashesDiffer(c: seq<Row>) {
    forall i: nat, j: nat :: i < j < |c| ==> c[i].hash != c[j].hash
  }

  /** Without a fork the table finds every row, and nothing else. */
  lemma {:induction false} ByPrevFinds(rows: seq<Row>)
    requires !Forked(rows)
    ensures forall r <- rows :: r.prev in ByPrev(rows) && ByPrev(rows)[r.prev] == r
    ensures forall k <- ByPrev(rows) :: ByPrev(rows)[k] in rows && ByPrev(rows)[k].prev == k
  {
    if rows != [] {
      var init, last := rows[..|rows| - 1], rows[|rows| - 1];
      assert !Forked(init) by {
        forall i: nat, j: nat | i < j < |init|
          ensures init[i].prev != init[j].prev
        {
          assert rows[i].prev != rows[j].prev;
        }
      }
      ByPrevFinds(init);
      assert rows == init + [last];
      forall r | r in init
        ensures r.prev != last.prev
      {
        var i: nat :| i < |init| && init[i] == r;
        assert rows[i].prev == r.prev;
      }
    }
  }

  lemma {:induction false} FollowSuffix(links: Links, cursor: Option<Text>, steps: nat, i: nat)
    requires i < |Follow(links, cursor, steps)|
    requires forall k <- links :: links[k].prev == k
    ensures var w := Follow(links, cursor, steps);
      && i < steps && w[i].prev in links && links[w[i].prev] == w[i]
      && w[i..] == Follow(links, w[i].prev, steps - i) && w[i + 1..] == Follow(links, Some(w[i].hash), steps - i - 1)
      && w[i].prev == if i == 0 then cursor else Some(w[i - 1].hash)
    decreases steps
  {
    var w := Follow(links, cursor, steps);
    var rest := Follow(links, Some(links[cursor].hash), steps - 1);
    assert w[1..] == rest;
    if i == 0 {
      assert w[0..] == w;
    } else {
      FollowSuffix(links, Some(links[cursor].hash), steps - 1, i - 1);
      assert w[i..] == rest[i - 1..] && w[i + 1..] == rest[i..];
    }
  }

  lemma {:induction false} FollowShort(links: Links, cursor: Option<Text>, steps: nat)
    ensures |Follow(links, cursor, steps)| <= steps
    decreases steps
  {
    if steps > 0 && cursor in links { FollowShort(links, Some(links[cursor].hash), steps - 1); }
  }

  /** A walk that came to an end is the same however many steps it was given. */
  lemma {:induction false} EndedWalksAgree(links: Links, cursor: Option<Text>, s: nat, t: nat)
    requires |Follow(links, cursor, s)| < s && |Follow(links, cursor, t)| < t
    ensures Follow(links, cursor, s) == Follow(links, cursor, t)
    decreases s
  {
    if cursor in links { EndedWalksAgree(links, Some(links[cursor].hash), s - 1, t - 1); }
  }

  /** An ended walk never carries a hash twice. */
  lemma EndedWalkIsInjective(rows: seq<Row>, i: nat, j: nat)
    requires !Forked(rows) && |Walk(rows)| <= |rows| && i < j < |Walk(rows)|
    ensures Walk(rows)[i].hash != Walk(rows)[j].hash
  {
    var links, w, n := ByPrev(rows), Walk(rows), |rows| + 1;
    ByPrevFinds(rows);
    FollowSuffix(links, None, n, i);
    FollowSuffix(links, None, n, j);
    if w[i].hash == w[j].hash { EndedWalksAgree(links, Some(w[i].hash), n - i - 1, n - j - 1); }
  }

  /** The walk is linked, and made of the rows. */
  lemma WalkLinked(rows: seq<Row>)
    requires !Forked(rows)
    ensures Linked(Walk(rows)) && forall r <- Walk(rows) :: r in rows
  {
    ByPrevFinds(rows);
    var w := Walk(rows);
    forall i: nat | i < |w|
      ensures w[i].prev == LinkAt(w, i) && w[i] in rows
    {
      FollowSuffix(ByPrev(rows), None, |rows| + 1, i);
    }
  }

  function Elements(s: seq<Row>): set<Row> {
    set r | r in s
  }

  lemma {:induction false} ElementsAtMost(s: seq<Row>)
    ensures |Elements(s)| <= |s|
  {
    if s != [] {
      var init, last := s[..|s| - 1], s[|s| - 1];
      ElementsAtMost(init);
      assert s == init + [last];
      assert Elements(s) == Elements(init) + {last};
    } else {
      assert Elements(s) == {};
    }
  }

  lemma {:induction false} ElementsExactly(s: seq<Row>)
    requires forall i: nat, j: nat :: i < j < |s| ==> s[i] != s[j]
    ensures |Elements(s)| == |s| && forall r <- Elements(s) :: multiset(s)[r] == 1
  {
    if s != [] {
      var init, last := s[..|s| - 1], s[|s| - 1];
      ElementsExactly(init);
      assert s == init + [last];
      assert last !in init;
      assert Elements(s) == Elements(init) + {last};
    } else {
      assert Elements(s) == {};
    }
  }

  lemma SubsetOfSameSize(a: set<Row>, b: set<Row>)
    requires a <= b && |a| == |b|
    ensures a == b
  {
    assert |b - a| == |b| - |a|;
  }

  /** Whatever is accepted as linear is the rows themselves, in link order. */
  lemma LinearIsTheRows(rows: seq<Row>)
    requires !Forked(rows) && Verdict(rows).Linear?
    ensures var w := Walk(rows); Linked(w) && multiset(w) == multiset(rows)
  {
    var w := Walk(rows);
    WalkLinked(rows);
    forall i: nat, j: nat | i < j < |w|
      ensures w[i] != w[j]
    {
      EndedWalkIsInjective(rows, i, j);
    }
    ElementsExactly(w);
    RowsDiffer(rows);
    ElementsExactly(rows);
    SubsetOfSameSize(Elements(w), Elements(rows));
    SameElementsOnce(w, rows);
  }

  lemma RowsDiffer(rows: seq<Row>)
    requires !Forked(rows)
    ensures forall i: nat, j: nat :: i < j < |rows| ==> rows[i] != rows[j]
  {
    forall i: nat, j: nat | i < j < |rows|
      ensures rows[i] != rows[j]
    {
      assert rows[i].prev != rows[j].prev;
    }
  }

  lemma SameElementsOnce(a: seq<Row>, b: seq<Row>)
    requires Elements(a) == Elements(b)
    requires (forall r <- Elements(a) :: multiset(a)[r] == 1) && (forall r <- Elements(b) :: multiset(b)[r] == 1)
    ensures multiset(a) == multiset(b)
  {
    forall r: Row
      ensures multiset(a)[r] == multiset(b)[r]
    {
      if r in Elements(a) {
        assert r in Elements(b);
      } else {
        assert r !in a && r !in b;
      }
    }
  }

  /** A shuffled chain comes back in link order. */
  lemma Relinearises(c: seq<Row>, rows: seq<Row>)
    requires Linked(c) && HashesDiffer(c) && multiset(rows) == multiset(c)
    ensures !Forked(rows) && Verdict(rows) == Linear(c)
  {
    assert |multiset(rows)| == |rows| && |multiset(c)| == |c|;
    ShuffledNoFork(c, rows);
    ChainIsFound(c, rows);
    hide Linked, HashesDiffer, Forked;
    FollowsChain(ByPrev(rows), c, 0);
    assert c[0..] == c;
  }

  lemma ChainIsFound(c: seq<Row>, rows: seq<Row>)
    requires Linked(c) && HashesDiffer(c) && multiset(rows) == multiset(c) && !Forked(rows)
    ensures Leads(ByPrev(rows), c)
  {
    hide ByPrev, HashesDiffer, Forked;
    ByPrevFinds(rows);
    SameRows(c, rows);
    EndIsOutside(c);
    forall k: nat | k < |c|
      ensures LeadsTo(ByPrev(rows), c, k)
    {
      assert c[k] in rows && c[k].prev == LinkAt(c, k);
    }
    hide Linked, LinkAt;
  }

  lemma SameRows(c: seq<Row>, rows: seq<Row>)
    requires multiset(rows) == multiset(c)
    ensures forall r: Row :: r in rows <==> r in c
  {
    forall r: Row
      ensures r in rows <==> r in c
    {
      assert r in multiset(rows) <==> r in multiset(c);
    }
  }

  /** Nothing in the chain comes after its last row. */
  lemma EndIsOutside(c: seq<Row>)
    requires Linked(c) && HashesDiffer(c)
    ensures forall r <- c :: r.prev != LinkAt(c, |c|)
  {
    forall k: nat | k < |c|
      ensures c[k].prev != LinkAt(c, |c|)
    {
      assert c[k].prev == LinkAt(c, k);
    }
  }

  /** The table leads from each row of the chain to itself, and ends after the last. */
  ghost predicate Leads(links: Links, c: seq<Row>) {
    LinkAt(c, |c|) !in links && forall k: nat :: k < |c| ==> LeadsTo(links, c, k)
  }

  predicate LeadsTo(links: Links, c: seq<Row>, k: nat)
    requires k < |c|
  {
    LinkAt(c, k) in links && links[LinkAt(c, k)] == c[k]
  }

  lemma {:induction false} FollowsChain(links: Links, c: seq<Row>, i: nat)
    requires i <= |c| && Leads(links, c)
    ensures Follow(links, LinkAt(c, i), |c| + 1 - i) == c[i..]
    decreases |c| - i
  {
    hide Follow;
    if i < |c| {
      assert LeadsTo(links, c, i);
      FollowsChain(links, c, i + 1);
      hide Leads;
      OneLinkMore(links, c, i);
    } else {
      EndOfLinks(links, LinkAt(c, i), 1);
    }
  }

  lemma EndOfLinks(links: Links, cursor: Option<Text>, steps: nat)
    requires cursor !in links
    ensures Follow(links, cursor, steps) == []
  {}

  lemma OneLinkMore(links: Links, c: seq<Row>, i: nat)
    requires i < |c| && LinkAt(c, i) in links && links[LinkAt(c, i)] == c[i]
    requires Follow(links, LinkAt(c, i + 1), |c| - i) == c[i + 1..]
    ensures Follow(links, LinkAt(c, i), |c| + 1 - i) == c[i..]
  {
    assert c[i..] == [c[i]] + c[i + 1..];
  }

  lemma ShuffledNoFork(c: seq<Row>, rows: seq<Row>)
    requires Linked(c) && HashesDiffer(c) && multiset(rows) == multiset(c)
    ensures !Forked(rows)
  {
    forall i: nat, j: nat | i < j < |c|
      ensures c[i].prev != c[j].prev
    {
      assert c[i].prev == LinkAt(c, i) && c[j].prev == LinkAt(c, j);
    }
    ElementsExactly(c);
    forall i: nat, j: nat | i < j < |rows|
      ensures rows[i].prev != rows[j].prev
    {
      assert rows[i] in multiset(c) && rows[j] in multiset(c);
      var a: nat :| a < |c| && c[a] == rows[i];
      var b: nat :| b < |c| && c[b] == rows[j];
      assert rows[i] in Elements(c);
      if a == b { TwiceCountsTwo(rows, i, j); }
    }
  }

  lemma TwiceCountsTwo(s: seq<Row>, i: nat, j: nat)
    requires i < j < |s| && s[i] == s[j]
    ensures multiset(s)[s[i]] >= 2
  {
    assert s == s[..i] + [s[i]] + s[i + 1..j] + [s[j]] + s[j + 1..];
  }

  /** A chain the verifier accepts comes back from any shuffle, unless two of its
      own rows clash: the two indices are where. */
  lemma AcceptedRelinearises(c: seq<Row>, rows: seq<Row>, digest: Digest) returns (x: nat, y: nat)
    requires HexDigest(digest) && Accepted(c, digest) && (forall r <- c :: Sane(r.fact)) && multiset(rows) == multiset(c)
    ensures (!Forked(rows) && Verdict(rows) == Linear(c)) || (x < y < |c| && Clash(c[x], c[y], digest))
  {
    x, y := 0, 0;
    forall i: nat | i < |c|
      ensures c[i].prev == LinkAt(c, i)
    {
      assert RowFits(c, i, digest);
    }
    if !HashesDiffer(c) {
      var i: nat, j: nat :| i < j < |c| && c[i].hash == c[j].hash;
      x, y := HashesDistinct(c, i, j, digest);
    } else {
      Relinearises(c, rows);
    }
  }

  /** Two different rows with one hash on the walk: what makes it endless. */
  ghost predicate SharedHash(w: seq<Row>) {
    exists i: nat, j: nat :: i < j < |w| && w[i] != w[j] && w[i].hash == w[j].hash
  }

  /** The walk ends if and only if it does not pass two different rows with the
      same hash: a row's hash must determine its predecessor. */
  lemma EndlessExactlyWhenShared(rows: seq<Row>)
    requires !Forked(rows)
    ensures Verdict(rows) == Endless <==> SharedHash(Walk(rows))
  {
    var w := Walk(rows);
    if SharedHash(w) && |w| <= |rows| {
      var i: nat, j: nat :| i < j < |w| && w[i] != w[j] && w[i].hash == w[j].hash;
      EndedWalkIsInjective(rows, i, j);
    }
    if |w| > |rows| {
      WalkLinked(rows);
      ElementsAtMost(rows);
      var i, j := Repeated(w, rows);
      BackToShared(w, i, j);
    }
  }

  lemma Repeated(w: seq<Row>, rows: seq<Row>) returns (i: nat, j: nat)
    requires |w| > |Elements(rows)| && forall r <- w :: r in rows
    ensures i < j < |w| && w[i] == w[j]
  {
    if forall a: nat, b: nat :: a < b < |w| ==> w[a] != w[b] {
      ElementsExactly(w);
      FitsInto(Elements(w), Elements(rows));
    }
    i, j :| i < j < |w| && w[i] == w[j];
  }

  lemma FitsInto(a: set<Row>, b: set<Row>)
    requires a <= b
    ensures |a| <= |b|
  {
    assert |b - a| == |b| - |a|;
  }

  lemma {:induction false} BackToShared(w: seq<Row>, i: nat, j: nat)
    requires Linked(w) && i < j < |w| && w[i] == w[j]
    ensures SharedHash(w)
  {
    assert w[i].prev == LinkAt(w, i) && w[j].prev == LinkAt(w, j);
    if w[i - 1] == w[j - 1] { BackToShared(w, i - 1, j - 1); }
  }

  /** It can be endless: two rows, the second carrying the first one's hash. */
  lemma EndlessExample(f: Fact, h: Text)
    ensures var rows := [Row(f, None, h), Row(f, Some(h), h)];
      !Forked(rows) && Verdict(rows) == Endless
  {
    var a, b := Row(f, None, h), Row(f, Some(h), h);
    var rows := [a, b];
    assert rows[..1] == [a] && [a][..0] == [];
    var links := ByPrev(rows);
    assert ByPrev([a]) == map[None := a];
    assert links == map[None := a, Some(h) := b];
    assert Follow(links, Some(h), 1) == [b] + Follow(links, Some(h), 0);
    assert Follow(links, Some(h), 2) == [b] + Follow(links, Some(h), 1);
    assert Follow(links, None, 3) == [a] + Follow(links, Some(h), 2);
  }
}
