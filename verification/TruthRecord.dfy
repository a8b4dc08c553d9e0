/** The printed forms the validate-truth cache compares: a lease's fingerprint and the truth record. */
module TruthRecord {
  import opened Domain
  import Text

  const UINT64 := 0x1_0000_0000_0000_0000

  /** generation|revoked|expiry|hash|kind:id|proxy */
  function Fingerprint(l: Lease): string {
    Text.ShowInt(l.generation) + ['|'] + ((if l.revoked then "1" else "0") + ['|'] + (Text.ShowInt(l.expiresAt) + ['|'] +
    (l.passwordHash + ['|'] + ((l.resource.kind + [':'] + l.resource.id) + ['|'] + l.proxyId))))
  }

  /** The hash and the proxy id contain no field separator. */
  predicate Separable(l: Lease) { '|' !in l.passwordHash && '|' !in l.proxyId }

  /** Everything a fingerprint can tell apart. */
  predicate SameTruth(a: Lease, b: Lease) {
    && a.generation == b.generation && a.revoked == b.revoked && a.expiresAt == b.expiresAt
    && a.passwordHash == b.passwordHash && a.proxyId == b.proxyId
    && a.resource.kind + [':'] + a.resource.id == b.resource.kind + [':'] + b.resource.id
  }

  lemma NumeralNoBar(n: int)
    ensures '|' !in Text.ShowInt(n)
  {
    if '|' in Text.ShowInt(n) { Text.ShowIntPlain(n, '|'); }
  }

  /** Exactly when two fingerprints agree. */
  lemma FingerprintIff(a: Lease, b: Lease)
    requires Separable(a) && Separable(b)
    ensures Fingerprint(a) == Fingerprint(b) <==> SameTruth(a, b)
  {
    hide Text.ShowInt;
    if Fingerprint(a) == Fingerprint(b) {
      NumeralNoBar(a.generation);
      NumeralNoBar(b.generation);
      NumeralNoBar(a.expiresAt);
      NumeralNoBar(b.expiresAt);
      var resA, resB := a.resource.kind + [':'] + a.resource.id, b.resource.kind + [':'] + b.resource.id;
      var tailA, tailB := resA + ['|'] + a.proxyId, resB + ['|'] + b.proxyId;
      var hashA, hashB := a.passwordHash + ['|'] + tailA, b.passwordHash + ['|'] + tailB;
      var expA, expB := Text.ShowInt(a.expiresAt) + ['|'] + hashA, Text.ShowInt(b.expiresAt) + ['|'] + hashB;
      var revA, revB := if a.revoked then "1" else "0", if b.revoked then "1" else "0";
      Text.JoinInjective(Text.ShowInt(a.generation), revA + ['|'] + expA, Text.ShowInt(b.generation), revB + ['|'] + expB, '|');
      Text.JoinInjective(revA, expA, revB, expB, '|');
      Text.JoinInjective(Text.ShowInt(a.expiresAt), hashA, Text.ShowInt(b.expiresAt), hashB, '|');
      Text.JoinInjective(a.passwordHash, tailA, b.passwordHash, tailB, '|');
      Text.JoinInjectiveRight(resA, a.proxyId, resB, b.proxyId, '|');
      Text.ShowIntInjective(a.generation, b.generation);
      Text.ShowIntInjective(a.expiresAt, b.expiresAt);
    }
  }

  /** The numeric fields and the revoked flag are always told apart, whatever the other fields contain. */
  lemma FingerprintTellsRevoked(a: Lease, b: Lease)
    requires Fingerprint(a) == Fingerprint(b)
    ensures a.generation == b.generation && a.revoked == b.revoked && a.expiresAt == b.expiresAt
  {
    hide Text.ShowInt;
    NumeralNoBar(a.generation);
    NumeralNoBar(b.generation);
    NumeralNoBar(a.expiresAt);
    NumeralNoBar(b.expiresAt);
    var hashA := a.passwordHash + ['|'] + ((a.resource.kind + [':'] + a.resource.id) + ['|'] + a.proxyId);
    var hashB := b.passwordHash + ['|'] + ((b.resource.kind + [':'] + b.resource.id) + ['|'] + b.proxyId);
    var expA, expB := Text.ShowInt(a.expiresAt) + ['|'] + hashA, Text.ShowInt(b.expiresAt) + ['|'] + hashB;
    var revA, revB := if a.revoked then "1" else "0", if b.revoked then "1" else "0";
    Text.JoinInjective(Text.ShowInt(a.generation), revA + ['|'] + expA, Text.ShowInt(b.generation), revB + ['|'] + expB, '|');
    Text.JoinInjective(revA, expA, revB, expB, '|');
    Text.JoinInjective(Text.ShowInt(a.expiresAt), hashA, Text.ShowInt(b.expiresAt), hashB, '|');
    Text.ShowIntInjective(a.generation, b.generation);
    Text.ShowIntInjective(a.expiresAt, b.expiresAt);
  }

  /** So is the password hash, which holds no bar, whatever the resource and the proxy id contain. */
  lemma FingerprintTellsHash(a: Lease, b: Lease)
    requires Fingerprint(a) == Fingerprint(b) && '|' !in a.passwordHash && '|' !in b.passwordHash
    ensures a.generation == b.generation && a.revoked == b.revoked && a.expiresAt == b.expiresAt && a.passwordHash == b.passwordHash
  {
    FingerprintTellsRevoked(a, b);
    var restA, restB := (a.resource.kind + [':'] + a.resource.id) + ['|'] + a.proxyId, (b.resource.kind + [':'] + b.resource.id) + ['|'] + b.proxyId;
    var prefix := Text.ShowInt(a.generation) + ['|'] + ((if a.revoked then "1" else "0") + ['|'] + (Text.ShowInt(a.expiresAt) + ['|']));
    assert Fingerprint(a) == prefix + (a.passwordHash + ['|'] + restA);
    assert Fingerprint(b) == prefix + (b.passwordHash + ['|'] + restB);
    SameRest(prefix, a.passwordHash + ['|'] + restA, b.passwordHash + ['|'] + restB);
    Text.JoinInjective(a.passwordHash, restA, b.passwordHash, restB, '|');
  }

  lemma SameRest(p: string, s: string, t: string)
    requires p + s == p + t
    ensures s == t
  {
    assert s == (p + s)[|p|..] && t == (p + t)[|p|..];
  }

  /** One kind goes on as the other does after a colon. */
  predicate KindsCollide(k: string, k': string) { k != k' && (k + [':'] <= k' || k' + [':'] <= k) }

  function Printed(r: ResourceRef): string { r.kind + [':'] + r.id }

  lemma SamePrintCollides(a: ResourceRef, b: ResourceRef)
    requires Printed(a) == Printed(b) && |a.kind| <= |b.kind|
    ensures (a.kind == b.kind && a.id == b.id) || a.kind + [':'] <= b.kind
  {
    var s := Printed(a);
    assert s[..|a.kind|] == a.kind && s[..|b.kind|] == b.kind && s[|a.kind|] == ':';
    if |a.kind| == |b.kind| {
      assert s[|a.kind| + 1..] == a.id && s[|b.kind| + 1..] == b.id;
    } else {
      assert s[..|a.kind| + 1] == a.kind + [':'] && b.kind[..|a.kind| + 1] == s[..|a.kind| + 1];
    }
  }

  /** Equal fingerprints mean equal kinds and resource ids too, when the two kinds do not collide. */
  lemma FingerprintDeterminesLease(a: Lease, b: Lease)
    requires Separable(a) && Separable(b) && !KindsCollide(a.resource.kind, b.resource.kind)
    requires Fingerprint(a) == Fingerprint(b)
    ensures SameTruth(a, b) && a.resource.kind == b.resource.kind && a.resource.id == b.resource.id
  {
    FingerprintIff(a, b);
    hide Fingerprint;
    if |a.resource.kind| <= |b.resource.kind| { SamePrintCollides(a.resource, b.resource); } else { SamePrintCollides(b.resource, a.resource); }
  }

  /** Two kinds of which one goes on after the other and a colon always have resources with one
      fingerprint, whatever their scopes and labels. */
  lemma ColonInKindCollides(l: Lease, k: string, rest: string, id: string, r: ResourceRef, r': ResourceRef)
    ensures var a, b := l.(resource := r.(kind := k + [':'] + rest, id := id)), l.(resource := r'.(kind := k, id := rest + [':'] + id));
            Fingerprint(a) == Fingerprint(b) && a.resource.kind != b.resource.kind
  {
    assert k + [':'] + rest + [':'] + id == k + [':'] + (rest + [':'] + id);
    assert |k + [':'] + rest| != |k|;
  }

  /** Leases of these kinds and one fingerprint always have one kind and one resource id. */
  ghost predicate KindAndIdTold(k: string, k': string) {
    forall a: Lease, b: Lease :: Separable(a) && Separable(b) && a.resource.kind == k && b.resource.kind == k' && Fingerprint(a) == Fingerprint(b)
      ==> a.resource.kind == b.resource.kind && a.resource.id == b.resource.id
  }

  const BLANK := Lease("", "", 0, ResourceRef("", "", "", map[]), "", "", "", 0, 0, false)

  lemma CollidingNotTold(k: string, k': string)
    requires k + [':'] <= k'
    ensures !KindAndIdTold(k, k') && !KindAndIdTold(k', k)
  {
    var rest := k'[|k| + 1..];
    assert k' == k + [':'] + rest;
    ColonInKindCollides(BLANK, k, rest, "", BLANK.resource, BLANK.resource);
    var a := BLANK.(resource := BLANK.resource.(kind := k', id := ""));
    var b := BLANK.(resource := BLANK.resource.(kind := k, id := rest + [':'] + ""));
    assert Separable(a) && Separable(b);
    hide Fingerprint;
  }

  /** The exact condition on two kinds for fingerprints to tell kind and resource id. */
  lemma KindAndIdToldIff(k: string, k': string)
    ensures KindAndIdTold(k, k') <==> !KindsCollide(k, k')
  {
    if KindsCollide(k, k') {
      if k + [':'] <= k' { CollidingNotTold(k, k'); } else { CollidingNotTold(k', k); }
    } else {
      hide Fingerprint, SameTruth;
      forall a: Lease, b: Lease | Separable(a) && Separable(b) && a.resource.kind == k && b.resource.kind == k' && Fingerprint(a) == Fingerprint(b)
        ensures a.resource.kind == b.resource.kind && a.resource.id == b.resource.id
      {
        FingerprintDeterminesLease(a, b);
      }
    }
  }

  /** Leases of these kinds and one fingerprint are always of one resource. */
  ghost predicate ResourcesTold(k: string, k': string) {
    forall a: Lease, b: Lease :: Separable(a) && Separable(b) && a.resource.kind == k && b.resource.kind == k' && Fingerprint(a) == Fingerprint(b)
      ==> a.resource == b.resource
  }

  /** A fingerprint says nothing about the resource's scope and labels. */
  lemma ScopeNeverTold(l: Lease, scope: string, labels: map<string, string>)
    ensures Fingerprint(l.(resource := l.resource.(scope := scope, labels := labels))) == Fingerprint(l)
  {
  }

  /** Fingerprints tell whole resources of two kinds only when they rule out that such leases agree at all:
      for different kinds that do not collide. Two resources of one kind may differ in their scopes. */
  lemma ResourcesToldIff(k: string, k': string)
    ensures ResourcesTold(k, k') <==> k != k' && !KindsCollide(k, k')
    ensures ResourcesTold(k, k') ==> forall a: Lease, b: Lease :: Separable(a) && Separable(b) && a.resource.kind == k && b.resource.kind == k'
                                       ==> Fingerprint(a) != Fingerprint(b)
  {
    KindAndIdToldIff(k, k');
    hide Fingerprint;
    if k == k' {
      var a := BLANK.(resource := BLANK.resource.(kind := k));
      var b := a.(resource := a.resource.(scope := "a", labels := map[]));
      ScopeNeverTold(a, "a", map[]);
      assert Separable(a) && Separable(b) && a.resource != b.resource;
    }
  }

  function Encode(version: nat, fingerprint: string): string {
    Text.ShowInt(version) + ['|'] + fingerprint
  }

  /** The version and fingerprint of a record, if it has both: strconv.ParseUint with 64 bits. */
  function Decode(raw: string): Option<(nat, string)> {
    match Text.Cut(raw, '|')
    case None => None
    case Some((versionText, fingerprint)) =>
      if fingerprint == "" then None
      else match Text.ParseNat(versionText)
        case None => None
        case Some(v) => if v < UINT64 then Some((v, fingerprint)) else None
  }

  lemma FingerprintNotEmpty(l: Lease)
    ensures Fingerprint(l) != ""
  {
  }

  /** A record decodes to what was encoded exactly when its version is a uint64 and its fingerprint
      is not empty; every lease's fingerprint qualifies. */
  lemma TruthRoundTrip(version: nat, fingerprint: string)
    ensures Decode(Encode(version, fingerprint)) ==
            if version < UINT64 && fingerprint != "" then Some((version, fingerprint)) else None
  {
    NumeralNoBar(version);
    Text.CutJoined(Text.ShowInt(version), '|', fingerprint);
    Text.ParseShow(version);
  }

  lemma LeaseRecordRoundTrip(version: nat, l: Lease)
    requires version < UINT64
    ensures Decode(Encode(version, Fingerprint(l))) == Some((version, Fingerprint(l)))
  {
    TruthRoundTrip(version, Fingerprint(l));
    FingerprintNotEmpty(l);
  }
}
