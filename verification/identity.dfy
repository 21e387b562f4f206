/** Versioned keyed digests and proofs (examples/run_gateway/domain.py, the identity classes).

    The MAC is a parameter.  `IdealMac` is the only thing assumed of it: under one secret, two
    different messages never share a digest. */
module Identity {
  import opened Outcomes
  import opened Domain

  type Secret = Bytes
  type Mac = (Secret, Bytes) -> Bytes

  ghost predicate IdealMac(mac: Mac) {
    forall k: Secret, a: Bytes, b: Bytes :: mac(k, a) == mac(k, b) ==> a == b
  }

  datatype IdentityKind = IdempotencyKind | DesktopKind | TaskKind

  /** The ASCII bytes of the enumeration values "idempotency", "desktop" and "task". */
  function KindBytes(k: IdentityKind): Bytes {
    match k
    case IdempotencyKind => [105, 100, 101, 109, 112, 111, 116, 101, 110, 99, 121]
    case DesktopKind => [100, 101, 115, 107, 116, 111, 112]
    case TaskKind => [116, 97, 115, 107]
  }

  /** "modal-computer-use/run-admission/v1" */
  const DOMAIN: Bytes := [
    109, 111, 100, 97, 108, 45, 99, 111, 109, 112, 117, 116, 101, 114, 45, 117, 115, 101, 47,
    114, 117, 110, 45, 97, 100, 109, 105, 115, 115, 105, 111, 110, 47, 118, 49]

  // ---------------------------------------------------------------- length-prefixed framing

  const PREFIX_WIDTH: nat := 8

  function Power256(n: nat): nat {
    if n == 0 then 1 else 256 * Power256(n - 1)
  }

  /** `int.to_bytes(width, "big")`, for a number that fits. */
  function BigEndian(n: nat, width: nat): (s: Bytes)
    ensures |s| == width
  {
    if width == 0 then [] else BigEndian(n / 256, width - 1) + [n % 256]
  }

  function FromBigEndian(s: Bytes): nat {
    if s == [] then 0 else 256 * FromBigEndian(s[..|s| - 1]) + s[|s| - 1]
  }

  lemma {:induction false} BigEndianRoundTrip(n: nat, width: nat)
    requires n < Power256(width)
    ensures FromBigEndian(BigEndian(n, width)) == n
  {
    if width > 0 {
      BigEndianRoundTrip(n / 256, width - 1);
      var s := BigEndian(n, width);
      assert s[..width - 1] == BigEndian(n / 256, width - 1);
    }
  }

  /** The joined frames, or the OverflowError of `to_bytes` on a component of 2^64 bytes or more. */
  function Frames(components: seq<Bytes>): Result<Bytes, Error> {
    if components == [] then
      Ok([])
    else if |components[0]| >= Power256(PREFIX_WIDTH) then
      Err(OverflowError)
    else
      match Frames(components[1..])
      case Err(e) => Err(e)
      case Ok(rest) => Ok(BigEndian(|components[0]|, PREFIX_WIDTH) + components[0] + rest)
  }

  /** A reader of framed messages: it has no counterpart in the gateway and serves as the inverse
      that shows a message determines its components. */
  function Unframe(message: Bytes): Option<seq<Bytes>>
    decreases |message|
  {
    if message == [] then
      Some([])
    else if |message| < PREFIX_WIDTH then
      None
    else
      var n := FromBigEndian(message[..PREFIX_WIDTH]);
      if |message| < PREFIX_WIDTH + n then
        None
      else
        match Unframe(message[PREFIX_WIDTH + n..])
        case None => None
        case Some(rest) => Some([message[PREFIX_WIDTH..PREFIX_WIDTH + n]] + rest)
  }

  lemma {:induction false} UnframeInvertsFrames(components: seq<Bytes>)
    ensures Frames(components).Ok? <==> forall i :: 0 <= i < |components| ==> |components[i]| < Power256(PREFIX_WIDTH)
    ensures Frames(components).Ok? ==> Unframe(Frames(components).value) == Some(components)
  {
    if components != [] {
      var head, tail := components[0], components[1..];
      UnframeInvertsFrames(tail);
      assert forall i :: 0 <= i < |tail| ==> tail[i] == components[i + 1];
      if Frames(components).Ok? {
        var rest := Frames(tail).value;
        var prefix := BigEndian(|head|, PREFIX_WIDTH);
        var message := prefix + head + rest;
        BigEndianRoundTrip(|head|, PREFIX_WIDTH);
        assert message[..PREFIX_WIDTH] == prefix;
        assert message[PREFIX_WIDTH..PREFIX_WIDTH + |head|] == head;
        assert message[PREFIX_WIDTH + |head|..] == rest;
        assert [head] + tail == components;
        forall i | 0 <= i < |components| ensures |components[i]| < Power256(PREFIX_WIDTH) {
          if i > 0 { assert components[i] == tail[i - 1]; }
        }
      }
    }
  }

  function Message(tenant: TenantId, kind: IdentityKind, value: Bytes): Result<Bytes, Error> {
    Frames([DOMAIN, tenant.utf8, KindBytes(kind), value])
  }

  /** The message binds the tenant, the purpose and the value without ambiguity. */
  lemma MessageInjective(t1: TenantId, k1: IdentityKind, v1: Bytes, t2: TenantId, k2: IdentityKind, v2: Bytes)
    requires Message(t1, k1, v1).Ok? && Message(t1, k1, v1) == Message(t2, k2, v2)
    ensures t1 == t2 && k1 == k2 && v1 == v2
  {
    var c1, c2 := [DOMAIN, t1.utf8, KindBytes(k1), v1], [DOMAIN, t2.utf8, KindBytes(k2), v2];
    UnframeInvertsFrames(c1);
    UnframeInvertsFrames(c2);
    assert c1 == c2;
    assert c1[1] == c2[1] && c1[2] == c2[2] && c1[3] == c2[3];
    assert KindBytes(k1)[0] == KindBytes(k2)[0];
  }

  // ---------------------------------------------------------------- keys, digests, proofs

  datatype IdentityKey = IdentityKey(keyId: KeyId, secret: Secret)

  datatype IdentityKeyring = IdentityKeyring(active: IdentityKey, retiring: seq<IdentityKey>)

  function Keys(ring: IdentityKeyring): seq<IdentityKey> {
    [ring.active] + ring.retiring
  }

  /** The uniqueness check of `IdentityKeyring.__post_init__`. */
  predicate ValidKeyring(ring: IdentityKeyring) {
    forall i, j :: 0 <= i < j < |Keys(ring)| ==> Keys(ring)[i].keyId != Keys(ring)[j].keyId
  }

  predicate HasKeyId(ring: IdentityKeyring, id: KeyId) {
    exists i :: 0 <= i < |Keys(ring)| && Keys(ring)[i].keyId == id
  }

  datatype IdentityProof = IdentityProof(mint: KeyedDigest, candidates: seq<KeyedDigest>)

  /** The checks of `IdentityProof.__post_init__`. */
  predicate ValidProof(p: IdentityProof) {
    && |p.candidates| > 0
    && (forall i, j :: 0 <= i < j < |p.candidates| ==> p.candidates[i].keyId != p.candidates[j].keyId)
    && p.mint == p.candidates[0]
  }

  predicate Matches(p: IdentityProof, stored: KeyedDigest) {
    stored in p.candidates
  }

  predicate Recognizes(p: IdentityProof, stored: KeyedDigest) {
    exists i :: 0 <= i < |p.candidates| && p.candidates[i].keyId == stored.keyId
  }

  /** `IdentityProof.matches`: the accumulating loop that never stops early. */
  method MatchesInConstantTime(p: IdentityProof, stored: KeyedDigest) returns (matched: bool)
    ensures matched <==> Matches(p, stored)
  {
    matched := false;
    for i := 0 to |p.candidates|
      invariant matched <==> stored in p.candidates[..i]
    {
      var candidate := p.candidates[i];
      var sameKey := candidate.keyId == stored.keyId;
      var sameDigest := candidate.digest == stored.digest;
      matched := matched || (sameKey && sameDigest);
    }
    assert p.candidates[..|p.candidates|] == p.candidates;
  }

  function Digest(mac: Mac, key: IdentityKey, message: Bytes): KeyedDigest {
    KeyedDigest(key.keyId, mac(key.secret, message))
  }

  /** `IdentityKeyring.prove`, with the ValueError for empty inputs and the overflow of framing. */
  function Prove(mac: Mac, ring: IdentityKeyring, tenant: TenantId, kind: IdentityKind, value: Bytes)
    : Result<IdentityProof, Error>
  {
    if tenant.utf8 == [] || value == [] then
      Err(ValueError)
    else
      match Message(tenant, kind, value)
      case Err(e) => Err(e)
      case Ok(m) =>
        var candidates := seq(|Keys(ring)|, i requires 0 <= i < |Keys(ring)| => Digest(mac, Keys(ring)[i], m));
        var proof := IdentityProof(candidates[0], candidates);
        if ValidProof(proof) then Ok(proof) else Err(ValueError)
  }

  /** `stored` is the digest of (tenant, kind, value) under some key of the catalogue of secrets. */
  predicate Binds(mac: Mac, secrets: map<KeyId, Secret>, stored: KeyedDigest,
                  tenant: TenantId, kind: IdentityKind, value: Bytes)
  {
    && stored.keyId in secrets
    && Message(tenant, kind, value).Ok?
    && stored.digest == mac(secrets[stored.keyId], Message(tenant, kind, value).value)
  }

  /** Every key of the ring is the catalogue's key of that id: a key id is never reused. */
  predicate FromCatalogue(ring: IdentityKeyring, secrets: map<KeyId, Secret>) {
    forall i :: 0 <= i < |Keys(ring)| ==>
      Keys(ring)[i].keyId in secrets && secrets[Keys(ring)[i].keyId] == Keys(ring)[i].secret
  }

  /** A valid ring's proof raises only for empty or oversized inputs, and its mint binds them. */
  lemma ProveIsSound(mac: Mac, ring: IdentityKeyring, secrets: map<KeyId, Secret>,
                     tenant: TenantId, kind: IdentityKind, value: Bytes)
    requires ValidKeyring(ring) && FromCatalogue(ring, secrets)
    ensures Prove(mac, ring, tenant, kind, value).Ok? <==>
            tenant.utf8 != [] && value != [] && |tenant.utf8| < Power256(PREFIX_WIDTH)
            && |value| < Power256(PREFIX_WIDTH)
    ensures Prove(mac, ring, tenant, kind, value).Ok? ==>
              && Matches(Prove(mac, ring, tenant, kind, value).value, Prove(mac, ring, tenant, kind, value).value.mint)
              && Binds(mac, secrets, Prove(mac, ring, tenant, kind, value).value.mint, tenant, kind, value)
  {
    var components := [DOMAIN, tenant.utf8, KindBytes(kind), value];
    UnframeInvertsFrames(components);
    SmallComponents(kind);
    assert components[1] == tenant.utf8 && components[3] == value;
    assert components[0] == DOMAIN && components[2] == KindBytes(kind);
  }

  lemma SmallComponents(kind: IdentityKind)
    ensures |DOMAIN| < Power256(PREFIX_WIDTH) && |KindBytes(kind)| < Power256(PREFIX_WIDTH)
  {
    assert Power256(8) == 256 * Power256(7) && Power256(7) >= 1;
  }

  /** Recognition depends on the key alone, and a recognized binding matches exactly when it was
      made from the same tenant, purpose and value. */
  lemma ProofMatchesExactly(mac: Mac, ring: IdentityKeyring, secrets: map<KeyId, Secret>,
                            tenant: TenantId, kind: IdentityKind, value: Bytes,
                            stored: KeyedDigest, tenant': TenantId, kind': IdentityKind, value': Bytes)
    requires IdealMac(mac) && FromCatalogue(ring, secrets)
    requires Prove(mac, ring, tenant, kind, value).Ok?
    requires Binds(mac, secrets, stored, tenant', kind', value')
    ensures Recognizes(Prove(mac, ring, tenant, kind, value).value, stored) <==> HasKeyId(ring, stored.keyId)
    ensures Matches(Prove(mac, ring, tenant, kind, value).value, stored) <==>
            HasKeyId(ring, stored.keyId) && (tenant, kind, value) == (tenant', kind', value')
  {
    var p := Prove(mac, ring, tenant, kind, value).value;
    var m, m' := Message(tenant, kind, value).value, Message(tenant', kind', value').value;
    assert |p.candidates| == |Keys(ring)|;
    assert forall i :: 0 <= i < |p.candidates| ==> p.candidates[i].keyId == Keys(ring)[i].keyId;
    if Matches(p, stored) {
      var i :| 0 <= i < |p.candidates| && p.candidates[i] == stored;
      assert mac(Keys(ring)[i].secret, m) == mac(Keys(ring)[i].secret, m');
      MessageInjective(tenant, kind, value, tenant', kind', value');
    }
    if HasKeyId(ring, stored.keyId) {
      var i :| 0 <= i < |Keys(ring)| && Keys(ring)[i].keyId == stored.keyId;
      assert p.candidates[i].keyId == stored.keyId;
      if m == m' {
        assert p.candidates[i] == stored;
      }
    }
  }

  /** Rotation: what one ring mints, another ring that still holds its active key accepts, for the
      same inputs and for no others. */
  lemma RotationKeepsBindings(mac: Mac, before: IdentityKeyring, after: IdentityKeyring,
                              secrets: map<KeyId, Secret>, tenant: TenantId, kind: IdentityKind,
                              value: Bytes, value': Bytes)
    requires IdealMac(mac)
    requires ValidKeyring(before) && ValidKeyring(after)
    requires FromCatalogue(before, secrets) && FromCatalogue(after, secrets)
    requires Prove(mac, before, tenant, kind, value).Ok? && Prove(mac, after, tenant, kind, value').Ok?
    ensures Matches(Prove(mac, after, tenant, kind, value').value, Prove(mac, before, tenant, kind, value).value.mint)
            <==> HasKeyId(after, before.active.keyId) && value == value'
  {
    ProveIsSound(mac, before, secrets, tenant, kind, value);
    var minted := Prove(mac, before, tenant, kind, value).value.mint;
    assert minted.keyId == before.active.keyId;
    ProofMatchesExactly(mac, after, secrets, tenant, kind, value', minted, tenant, kind, value);
  }
}
