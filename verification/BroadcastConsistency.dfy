/** Broadcast consistency: a collector of acknowledgements and the verifier of the
    certificates it emits. */
module BroadcastConsistency {
  import opened Options
  import opened Counting

  type Party = nat
  type Hash = nat

  /** Identity 0 is the broadcast address. */
  const BROADCAST: Party := 0

  datatype Identity = Identity(protocol: string, session: nat, round: nat, from: Party, payloadType: string)

  /** An envelope; its hashes are functions of what it carries. */
  datatype Envelope = Envelope(id: Identity, to: Party, payload: seq<nat>)

  datatype Ack = Ack(party: Party, payloadHash: Hash, digest: Hash, signature: nat)

  datatype Certificate = Certificate(id: Identity, payloadHash: Hash, digest: Hash, recipients: seq<Party>, acks: seq<Ack>)

  /** The hash functions and the signature check, which the code is given. */
  datatype Crypto = Crypto(payloadHash: Envelope -> Hash, digest: Envelope -> Hash, ackDigest: (Identity, Hash, Hash) -> Hash,
                           signed: (Party, Hash, nat) -> bool)

  predicate AckVerifies(crypto: Crypto, env: Envelope, ack: Ack) {
    && ack.payloadHash == crypto.payloadHash(env) && ack.digest == crypto.digest(env)
    && crypto.signed(ack.party, crypto.ackDigest(env.id, crypto.payloadHash(env), crypto.digest(env)), ack.signature)
  }

  function Senders(acks: seq<Ack>): (r: seq<Party>)
    ensures |r| == |acks| && forall i | 0 <= i < |acks| :: r[i] == acks[i].party
  {
    seq(|acks|, i requires 0 <= i < |acks| => acks[i].party)
  }

  // ------------------------------------------------------------ the verifier

  /** The certificate binds to the envelope, and every party is a recipient and
      acknowledged the same digest once. */
  predicate StructureOk(crypto: Crypto, c: Certificate, env: Envelope, parties: seq<Party>) {
    && c.id == env.id && c.payloadHash == crypto.payloadHash(env) && c.digest == crypto.digest(env)
    && |c.recipients| == |parties| && (forall p | p in parties :: p in c.recipients)
    && |c.acks| == |parties|
    && NoDuplicates(Senders(c.acks))
    && forall i | 0 <= i < |c.acks| :: c.acks[i].party in parties && c.acks[i].payloadHash == c.payloadHash && c.acks[i].digest == c.digest
  }

  predicate FullOk(crypto: Crypto, c: Certificate, env: Envelope, parties: seq<Party>) {
    StructureOk(crypto, c, env, parties) && forall i | 0 <= i < |c.acks| :: AckVerifies(crypto, env, c.acks[i])
  }

  method VerifyStructure(crypto: Crypto, c: Certificate, env: Envelope, parties: seq<Party>) returns (ok: bool)
    ensures ok <==> StructureOk(crypto, c, env, parties)
  {
    if c.id != env.id || c.payloadHash != crypto.payloadHash(env) || c.digest != crypto.digest(env) { return false; }
    if |c.recipients| != |parties| { return false; }
    for i := 0 to |parties|
      invariant forall p | p in parties[..i] :: p in c.recipients
    {
      if parties[i] !in c.recipients { return false; }
    }
    assert parties[..|parties|] == parties;
    if |c.acks| != |parties| { return false; }
    var seen: set<Party> := {};
    for i := 0 to |c.acks|
      invariant forall p :: p in seen <==> exists j :: 0 <= j < i && c.acks[j].party == p
      invariant forall j | 0 <= j < i :: c.acks[j].party in parties && c.acks[j].payloadHash == c.payloadHash && c.acks[j].digest == c.digest
      invariant forall j, k | 0 <= j < k < i :: c.acks[j].party != c.acks[k].party
    {
      var ack := c.acks[i];
      if ack.party !in parties { return false; }
      if ack.party in seen {
        ghost var j :| 0 <= j < i && c.acks[j].party == ack.party;
        assert Senders(c.acks)[j] == Senders(c.acks)[i];
        return false;
      }
      seen := seen + {ack.party};
      if ack.payloadHash != c.payloadHash || ack.digest != c.digest { return false; }
    }
    return true;
  }

  method VerifyFull(crypto: Crypto, c: Certificate, env: Envelope, parties: seq<Party>) returns (ok: bool)
    ensures ok <==> FullOk(crypto, c, env, parties)
  {
    ok := VerifyStructure(crypto, c, env, parties);
    if !ok { return; }
    for i := 0 to |c.acks|
      invariant forall j | 0 <= j < i :: AckVerifies(crypto, env, c.acks[j])
    {
      if !AckVerifies(crypto, env, c.acks[i]) { return false; }
    }
  }

  // --------------------------------------------------------------- pigeonhole

  /** An accepted certificate's parties are distinct, and its recipients and its
      acknowledging parties are each exactly these parties, each once. */
  lemma AcceptedIsPermutation(crypto: Crypto, c: Certificate, env: Envelope, parties: seq<Party>)
    requires StructureOk(crypto, c, env, parties)
    ensures NoDuplicates(parties) && NoDuplicates(c.recipients) && NoDuplicates(Senders(c.acks))
    ensures Elements(c.recipients) == Elements(parties) == Elements(Senders(c.acks))
  {
    Pigeonhole(Senders(c.acks), parties);
    Pigeonhole(parties, c.recipients);
  }

  // ------------------------------------------------------------ the collector

  predicate StrictlySorted(xs: seq<Party>) { forall i, j | 0 <= i < j < |xs| :: xs[i] < xs[j] }

  function Insert(x: Party, xs: seq<Party>): seq<Party> {
    if xs == [] || x <= xs[0] then [x] + xs else [xs[0]] + Insert(x, xs[1..])
  }

  function Sort(xs: seq<Party>): seq<Party> {
    if xs == [] then [] else Insert(xs[0], Sort(xs[1..]))
  }

  predicate Ordered(xs: seq<Party>) { forall i, j | 0 <= i < j < |xs| :: xs[i] <= xs[j] }

  lemma {:induction false} InsertOrdered(x: Party, xs: seq<Party>)
    requires Ordered(xs)
    ensures Ordered(Insert(x, xs)) && |Insert(x, xs)| == |xs| + 1
    ensures forall y :: y in Insert(x, xs) <==> y == x || y in xs
  {
    if xs != [] && x > xs[0] {
      InsertOrdered(x, xs[1..]);
      assert xs == [xs[0]] + xs[1..];
      var r := Insert(x, xs[1..]);
      forall i | 0 <= i < |r| ensures xs[0] <= r[i] { assert r[i] in r; }
    }
  }

  lemma {:induction false} SortElements(xs: seq<Party>)
    ensures Ordered(Sort(xs)) && Elements(Sort(xs)) == Elements(xs) && |Sort(xs)| == |xs|
  {
    if xs == [] {
      assert Elements(xs) == {};
    } else {
      SortElements(xs[1..]);
      InsertOrdered(xs[0], Sort(xs[1..]));
      assert xs == [xs[0]] + xs[1..];
      assert Elements(xs) == Elements(xs[1..]) + {xs[0]};
      assert Elements(Sort(xs)) == Elements(Sort(xs[1..])) + {xs[0]};
    }
  }

  /** The certificate a collector holds once every recipient has acknowledged. */
  function CertificateOf(id: Identity, payloadHash: Hash, digest: Hash, recipients: seq<Party>, acks: map<Party, Ack>): (c: Certificate)
    requires forall i | 0 <= i < |recipients| :: recipients[i] in acks
  {
    Certificate(id, payloadHash, digest, recipients, seq(|recipients|, i requires 0 <= i < |recipients| => acks[recipients[i]]))
  }

  /** An acknowledgement the collector has accepted. */
  predicate Held(crypto: Crypto, id: Identity, payloadHash: Hash, digest: Hash, p: Party, ack: Ack) {
    && ack.party == p && ack.payloadHash == payloadHash && ack.digest == digest
    && crypto.signed(p, crypto.ackDigest(id, payloadHash, digest), ack.signature)
  }

  /** Every certificate a collector emits passes the full verification of the
      committed envelope, for the recipients in any order. */
  lemma EmittedVerifies(crypto: Crypto, id: Identity, env: Envelope, recipients: seq<Party>, acks: map<Party, Ack>, parties: seq<Party>)
    requires env.id == id && StrictlySorted(recipients)
    requires forall i | 0 <= i < |recipients| :: recipients[i] in acks
               && Held(crypto, id, crypto.payloadHash(env), crypto.digest(env), recipients[i], acks[recipients[i]])
    requires NoDuplicates(parties) && Elements(parties) == Elements(recipients)
    ensures FullOk(crypto, CertificateOf(id, crypto.payloadHash(env), crypto.digest(env), recipients, acks), env, parties)
  {
    var c := CertificateOf(id, crypto.payloadHash(env), crypto.digest(env), recipients, acks);
    assert NoDuplicates(recipients);
    DistinctSize(parties);
    DistinctSize(recipients);
    forall p ensures p in parties <==> p in recipients { assert p in Elements(parties) <==> p in Elements(recipients); }
    forall i | 0 <= i < |c.acks| ensures c.acks[i].party == recipients[i] && recipients[i] in parties && AckVerifies(crypto, env, c.acks[i]) {
      assert recipients[i] in recipients;
    }
  }

  // -------------------------------------------------------- order of arrival

  /** The acknowledgements held after accepting a sequence of them. */
  function Collected(acks: seq<Ack>): map<Party, Ack> {
    if acks == [] then map[] else Collected(acks[..|acks| - 1])[acks[|acks| - 1].party := acks[|acks| - 1]]
  }

  lemma {:induction false} CollectedHolds(acks: seq<Ack>)
    requires NoDuplicates(Senders(acks))
    ensures forall p :: p in Collected(acks) <==> p in Senders(acks)
    ensures forall a | a in acks :: a.party in Collected(acks) && Collected(acks)[a.party] == a
  {
    if acks != [] {
      var front, last := acks[..|acks| - 1], acks[|acks| - 1];
      assert acks == front + [last];
      assert forall i | 0 <= i < |front| :: Senders(front)[i] == Senders(acks)[i];
      CollectedHolds(front);
      assert Senders(acks) == Senders(front) + [last.party];
      forall a | a in front ensures a.party != last.party {
        var i :| 0 <= i < |front| && front[i] == a;
        assert Senders(acks)[i] != Senders(acks)[|front|];
      }
    }
  }

  lemma CollectedNone()
    ensures NoDuplicates(Senders([])) && Collected([]) == map[]
  {
  }

  lemma CollectedExtends(list: seq<Ack>, i: nat)
    requires i < |list| && NoDuplicates(Senders(list[..i])) && list[i].party !in Collected(list[..i])
    ensures NoDuplicates(Senders(list[..i + 1])) && Collected(list[..i + 1]) == Collected(list[..i])[list[i].party := list[i]]
  {
    CollectedHolds(list[..i]);
    assert list[..i + 1][..i] == list[..i];
    assert Senders(list[..i + 1]) == Senders(list[..i]) + [list[i].party];
  }

  lemma RepeatedSender(list: seq<Ack>, i: nat)
    requires i < |list| && NoDuplicates(Senders(list[..i])) && list[i].party in Collected(list[..i])
    ensures !NoDuplicates(Senders(list))
  {
    CollectedHolds(list[..i]);
    var j :| 0 <= j < i && Senders(list[..i])[j] == list[i].party;
    assert Senders(list)[j] == Senders(list)[i];
  }

  /** Whatever the order in which acknowledgements arrive, the collector ends with
      the same ones, and so emits the same certificate. */
  lemma ArrivalOrderImmaterial(a: seq<Ack>, b: seq<Ack>)
    requires NoDuplicates(Senders(a)) && NoDuplicates(Senders(b)) && forall x :: x in a <==> x in b
    ensures Collected(a) == Collected(b)
  {
    CollectedHolds(a);
    CollectedHolds(b);
    forall p ensures p in Collected(a) <==> p in Collected(b) {
      if p in Senders(a) { var i :| 0 <= i < |a| && Senders(a)[i] == p; assert a[i] in b; }
      if p in Senders(b) { var i :| 0 <= i < |b| && Senders(b)[i] == p; assert b[i] in a; }
    }
    forall p | p in Collected(a) ensures Collected(a)[p] == Collected(b)[p] {
      var i :| 0 <= i < |a| && Senders(a)[i] == p;
      assert a[i] in a && a[i] in b;
    }
  }

  datatype CommitVerdict = Fresh | Repeated | WrongIdentity | Equivocation

  class Collector {
    const crypto: Crypto
    const id: Identity
    const recipients: seq<Party>
    var committed: Option<(Hash, Hash)>
    var acks: map<Party, Ack>

    ghost predicate Valid()
      reads this
    {
      && StrictlySorted(recipients) && recipients != [] && BROADCAST !in recipients
      && (committed.None? ==> acks == map[])
      && (committed.Some? ==> forall p | p in acks :: p in recipients && Held(crypto, id, committed.value.0, committed.value.1, p, acks[p]))
    }

    constructor (crypto: Crypto, id: Identity, recipients: seq<Party>)
      requires StrictlySorted(recipients) && recipients != [] && BROADCAST !in recipients
      ensures Valid() && this.crypto == crypto && this.id == id && this.recipients == recipients && committed == None && acks == map[]
    {
      this.crypto, this.id, this.recipients := crypto, id, recipients;
      committed, acks := None, map[];
    }

    predicate Matches(env: Envelope) { env.id == id && env.to == BROADCAST }

    method Commit(env: Envelope) returns (v: CommitVerdict)
      requires Valid()
      modifies this`committed
      ensures Valid()
      ensures v.WrongIdentity? <==> !Matches(env)
      ensures v.Fresh? <==> Matches(env) && old(committed).None?
      ensures v.Repeated? ==> old(committed) == Some((crypto.payloadHash(env), crypto.digest(env)))
      ensures committed == if v.Fresh? then Some((crypto.payloadHash(env), crypto.digest(env))) else old(committed)
    {
      if !Matches(env) { return WrongIdentity; }
      if committed.None? {
        committed := Some((crypto.payloadHash(env), crypto.digest(env)));
        return Fresh;
      }
      if committed.value != (crypto.payloadHash(env), crypto.digest(env)) { return Equivocation; }
      return Repeated;
    }

    /** Accepts one acknowledgement of the committed envelope per recipient. */
    method AddAck(env: Envelope, ack: Ack) returns (ok: bool)
      requires Valid()
      modifies this`acks
      ensures Valid()
      ensures ok <==> Matches(env) && committed == Some((crypto.payloadHash(env), crypto.digest(env)))
                      && ack.party in recipients && ack.party !in old(acks) && AckVerifies(crypto, env, ack)
      ensures acks == if ok then old(acks)[ack.party := ack] else old(acks)
    {
      if committed.None? || !Matches(env) { return false; }
      if ack.party !in recipients || ack.party in acks { return false; }
      if committed.value != (crypto.payloadHash(env), crypto.digest(env)) { return false; }
      if !AckVerifies(crypto, env, ack) { return false; }
      acks := acks[ack.party := ack];
      return true;
    }

    /** Collects a sequence of acknowledgements, all of them or up to the first refused:
        all of them exactly when they verify and come from different recipients. */
    method Collect(env: Envelope, list: seq<Ack>) returns (ok: bool)
      requires Valid() && acks == map[]
      modifies this`acks
      ensures Valid()
      ensures ok <==> || list == []
                      || (&& Matches(env) && committed == Some((crypto.payloadHash(env), crypto.digest(env)))
                          && NoDuplicates(Senders(list)) && forall a | a in list :: a.party in recipients && AckVerifies(crypto, env, a))
      ensures ok ==> NoDuplicates(Senders(list)) && acks == Collected(list)
    {
      hide Collected, Held, AckVerifies;
      CollectedNone();
      assert list[..0] == [];
      for i := 0 to |list|
        invariant Valid()
        invariant NoDuplicates(Senders(list[..i])) && acks == Collected(list[..i])
        invariant forall a | a in list[..i] :: a.party in recipients && AckVerifies(crypto, env, a)
        invariant i > 0 ==> Matches(env) && committed == Some((crypto.payloadHash(env), crypto.digest(env)))
      {
        ok := AddAck(env, list[i]);
        if !ok {
          if list[i].party in Collected(list[..i]) { RepeatedSender(list, i); }
          assert list[i] in list;
          return;
        }
        CollectedExtends(list, i);
      }
      assert list[..|list|] == list;
      ok := true;
    }

    /** The certificate, once every recipient has acknowledged. */
    method Certify() returns (c: Option<Certificate>)
      requires Valid()
      ensures c.Some? <==> committed.Some? && forall p | p in recipients :: p in acks
      ensures c.Some? ==> (forall i | 0 <= i < |recipients| :: recipients[i] in acks)
                          && c.value == CertificateOf(id, committed.value.0, committed.value.1, recipients, acks)
      ensures c.Some? ==> forall env: Envelope, parties: seq<Party> |
                            && env.id == id && committed.value == (crypto.payloadHash(env), crypto.digest(env))
                            && NoDuplicates(parties) && Elements(parties) == Elements(recipients) ::
                            FullOk(crypto, c.value, env, parties)
    {
      hide FullOk, Held;
      if committed.None? { return None; }
      if |acks| != |recipients| {
        if forall p | p in recipients :: p in acks { assert acks.Keys == Elements(recipients); DistinctSize(recipients); assert false; }
        return None;
      }
      var list: seq<Ack> := [];
      for i := 0 to |recipients|
        invariant |list| == i && forall j | 0 <= j < i :: recipients[j] in acks && list[j] == acks[recipients[j]]
      {
        if recipients[i] !in acks { return None; }
        if !Held(crypto, id, committed.value.0, committed.value.1, recipients[i], acks[recipients[i]]) { return None; }
        list := list + [acks[recipients[i]]];
      }
      c := Some(Certificate(id, committed.value.0, committed.value.1, recipients, list));
      assert c.value == CertificateOf(id, committed.value.0, committed.value.1, recipients, acks);
      forall env: Envelope, parties: seq<Party> |
        && env.id == id && committed.value == (crypto.payloadHash(env), crypto.digest(env))
        && NoDuplicates(parties) && Elements(parties) == Elements(recipients)
        ensures FullOk(crypto, c.value, env, parties)
      {
        EmittedVerifies(crypto, id, env, recipients, acks, parties);
      }
    }
  }

  /** A collector for the recipients in any order; a repeated or zero one is refused. */
  method NewCollector(crypto: Crypto, id: Identity, parties: seq<Party>) returns (ok: bool, c: Collector?)
    ensures ok <==> id.protocol != "" && id.session != 0 && id.from != BROADCAST && id.payloadType != ""
                    && parties != [] && NoDuplicates(parties) && BROADCAST !in parties
    ensures ok ==> c != null && fresh(c) && c.Valid() && c.crypto == crypto && c.id == id && c.committed == None && c.acks == map[]
                   && c.recipients == Sort(parties) && Elements(c.recipients) == Elements(parties)
  {
    c := null;
    if id.protocol == "" || id.session == 0 || id.from == BROADCAST || id.payloadType == "" { return false, c; }
    var sorted := Sort(parties);
    SortElements(parties);
    if sorted == [] { return false, c; }
    for i := 0 to |sorted|
      invariant forall j | 0 <= j < i :: sorted[j] != BROADCAST
      invariant forall j, k | 0 <= j < k < i :: sorted[j] < sorted[k]
    {
      if sorted[i] == BROADCAST {
        assert sorted[i] in Elements(parties);
        return false, c;
      }
      if i > 0 && sorted[i] == sorted[i - 1] {
        if NoDuplicates(parties) {
          DistinctSize(parties);
          ElementsBound(sorted);
          assert false;
        }
        return false, c;
      }
    }
    DistinctSize(sorted);
    ElementsBound(parties);
    assert BROADCAST !in Elements(sorted);
    c := new Collector(crypto, id, sorted);
    ok := true;
  }

  predicate Usable(id: Identity, parties: seq<Party>) {
    && id.protocol != "" && id.session != 0 && id.from != BROADCAST && id.payloadType != ""
    && parties != [] && NoDuplicates(parties) && BROADCAST !in parties
  }

  /** A whole collection: an envelope is committed and acknowledgements arrive. A
      certificate comes of it exactly when every party acknowledged once and nobody
      else did, and it passes the full verification of that envelope. */
  method CollectCertificate(crypto: Crypto, env: Envelope, parties: seq<Party>, list: seq<Ack>) returns (c: Option<Certificate>)
    ensures c.Some? <==>
              && Usable(env.id, parties) && env.to == BROADCAST && NoDuplicates(Senders(list))
              && (forall a | a in list :: a.party in parties && AckVerifies(crypto, env, a)) && (forall p | p in parties :: p in Senders(list))
    ensures c.Some? ==>
              && FullOk(crypto, c.value, env, parties)
              && (forall i | 0 <= i < |Sort(parties)| :: Sort(parties)[i] in Collected(list))
              && c.value == CertificateOf(env.id, crypto.payloadHash(env), crypto.digest(env), Sort(parties), Collected(list))
  {
    hide FullOk, AckVerifies, Held, Sort, Collected;
    var ok, collector := NewCollector(crypto, env.id, parties);
    if !ok { return None; }
    forall p ensures p in collector.recipients <==> p in parties { assert p in Elements(collector.recipients) <==> p in Elements(parties); }
    var verdict := collector.Commit(env);
    if !verdict.Fresh? { return None; }
    var collected := collector.Collect(env, list);
    if !collected { return None; }
    CollectedHolds(list);
    c := collector.Certify();
  }

  /** Two orders of the same acknowledgements make the same certificate. */
  lemma SameCertificate(id: Identity, payloadHash: Hash, digest: Hash, recipients: seq<Party>, a: seq<Ack>, b: seq<Ack>)
    requires NoDuplicates(Senders(a)) && NoDuplicates(Senders(b)) && forall x :: x in a <==> x in b
    requires forall i | 0 <= i < |recipients| :: recipients[i] in Collected(a)
    ensures forall i | 0 <= i < |recipients| :: recipients[i] in Collected(b)
    ensures CertificateOf(id, payloadHash, digest, recipients, Collected(a)) == CertificateOf(id, payloadHash, digest, recipients, Collected(b))
  {
    hide Collected;
    ArrivalOrderImmaterial(a, b);
  }
}
