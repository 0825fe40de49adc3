/** internal/engine/naming.go: names of provider and host children and of liveness records. */
module Naming {
  import opened Text

  const MAX_NAME_LEN := 253
  const CHILD_HASH_LEN := 12
  const RECORD_HASH_LEN := 16
  const NUL: char := '\0'

  /** SHA-256 rendered in hexadecimal, left uninterpreted. */
  type Digest = string -> string

  predicate Hex(c: char) { '0' <= c <= '9' || 'a' <= c <= 'f' }

  predicate Alnum(c: char) { '0' <= c <= '9' || 'a' <= c <= 'z' }

  ghost predicate HexDigest(h: Digest) {
    forall s :: |h(s)| == 64 && forall i :: 0 <= i < 64 ==> Hex(h(s)[i])
  }

  /** A DNS-1123 subdomain of any length: dot-separated labels of lower-case
      alphanumerics and inner hyphens. */
  predicate DnsShape(s: string) {
    && |s| > 0 && Alnum(s[0]) && Alnum(s[|s| - 1])
    && (forall i :: 0 <= i < |s| ==> Alnum(s[i]) || s[i] == '-' || s[i] == '.')
    && (forall i :: 0 < i < |s| - 1 && s[i] == '.' ==> Alnum(s[i - 1]) && Alnum(s[i + 1]))
  }

  predicate DnsSubdomain(s: string) { DnsShape(s) && |s| <= MAX_NAME_LEN }

  /** What qualifies a child name: the consumer's logical cluster, the instance
      name and the name the blueprint renders. */
  datatype Tuple = Tuple(cluster: string, instance: string, original: string)

  function HashInput(t: Tuple): string {
    t.cluster + [NUL] + (t.instance + [NUL] + t.original)
  }

  function ReadablePrefix(t: Tuple): string {
    var base := t.cluster + "-" + t.instance + "-" + t.original;
    if |base| + 1 + CHILD_HASH_LEN > MAX_NAME_LEN
    then TrimRight(base[..MAX_NAME_LEN - 1 - CHILD_HASH_LEN], {'-', '.'})
    else base
  }

  function ChildHash(h: Digest, t: Tuple): string
    requires HexDigest(h)
  {
    h(HashInput(t))[..CHILD_HASH_LEN]
  }

  function ProviderChildName(h: Digest, t: Tuple): string
    requires HexDigest(h)
  {
    ReadablePrefix(t) + "-" + ChildHash(h, t)
  }

  function LivenessRecordName(h: Digest, cluster: string, uid: string): string
    requires HexDigest(h)
  {
    "krop-live-" + h(cluster + [NUL] + uid)[..RECORD_HASH_LEN]
  }

  predicate NulFree(t: Tuple) {
    NUL !in t.cluster && NUL !in t.instance && NUL !in t.original
  }

  predicate DnsTuple(t: Tuple) {
    DnsSubdomain(t.cluster) && DnsSubdomain(t.instance) && DnsSubdomain(t.original)
  }

  lemma DnsIsNulFree(s: string)
    requires DnsShape(s)
    ensures NUL !in s
  {
    assert forall i :: 0 <= i < |s| ==> s[i] != NUL;
  }

  lemma HyphenJoinKeepsShape(a: string, b: string)
    requires DnsShape(a) && DnsShape(b)
    ensures DnsShape(a + "-" + b)
  {
    var s := a + "-" + b;
    forall i | 0 < i < |s| - 1 && s[i] == '.'
      ensures Alnum(s[i - 1]) && Alnum(s[i + 1])
    {
      if i < |a| {
        assert a[i] == '.' && i != |a| - 1;
      } else {
        assert b[i - |a| - 1] == '.' && 0 < i - |a| - 1 < |b| - 1;
      }
    }
    assert forall i :: |a| < i < |s| ==> s[i] == b[i - |a| - 1];
  }

  lemma PrefixKeepsShape(t: Tuple)
    requires DnsShape(t.cluster) && DnsShape(t.instance) && DnsShape(t.original)
    ensures DnsShape(ReadablePrefix(t))
  {
    HyphenJoinKeepsShape(t.cluster, t.instance);
    HyphenJoinKeepsShape(t.cluster + "-" + t.instance, t.original);
    var base := t.cluster + "-" + t.instance + "-" + t.original;
    var p := ReadablePrefix(t);
    assert p <= base;
    assert base[0] !in {'-', '.'};
    assert p[|p| - 1] == base[|p| - 1];
    forall i | 0 < i < |p| - 1 && p[i] == '.'
      ensures Alnum(p[i - 1]) && Alnum(p[i + 1])
    {
      assert base[i] == '.' && p[i - 1] == base[i - 1] && p[i + 1] == base[i + 1];
    }
  }

  /** For DNS-1123 inputs the derived name is again a DNS-1123 subdomain of at most 253
      characters. Its last 12 are the hash of the null-joined tuple, before them stands
      a hyphen after an alphanumeric, truncated or not; and what is before that is
      cluster-instance-original or, if that would be too long, a prefix of it of which
      nothing but hyphens and dots is missing up to the limit. */
  lemma ProviderChildNameIsDns(h: Digest, t: Tuple)
    requires HexDigest(h) && DnsTuple(t)
    ensures var n, base := ProviderChildName(h, t), t.cluster + "-" + t.instance + "-" + t.original;
      && DnsShape(n) && 13 < |n| <= 253
      && n[|n| - 12..] == h(t.cluster + "\0" + t.instance + "\0" + t.original)[..12]
      && n[|n| - 13] == '-' && Alnum(n[|n| - 14])
      && n[..|n| - 13] <= base
      && (|base| <= 240 ==> n[..|n| - 13] == base)
      && (|base| > 240 ==> forall i :: |n| - 13 <= i < 240 ==> base[i] in "-.")
  {
    PrefixKeepsShape(t);
    var s := ChildHash(h, t);
    assert forall i :: 0 <= i < 64 ==> Hex(h(HashInput(t))[i]);
    assert DnsShape(s);
    HyphenJoinKeepsShape(ReadablePrefix(t), s);
    ChildNameParts(h, t);
  }

  lemma ChildNameParts(h: Digest, t: Tuple)
    requires HexDigest(h)
    ensures var n, p := ProviderChildName(h, t), ReadablePrefix(t);
      && |n| == |p| + 13 && n[..|p|] == p && n[|p|] == '-'
      && n[|p| + 1..] == h(t.cluster + "\0" + t.instance + "\0" + t.original)[..12]
  {
    assert HashInput(t) == t.cluster + "\0" + t.instance + "\0" + t.original;
    var n, p, s := ProviderChildName(h, t), ReadablePrefix(t), ChildHash(h, t);
    assert n == (p + "-") + s;
  }

  /** The null-joined hash input determines the tuple. */
  lemma HashInputInjective(t: Tuple, t': Tuple)
    requires NulFree(t) && NulFree(t')
    requires HashInput(t) == HashInput(t')
    ensures t == t'
  {
    CutUnique(t.cluster, t.instance + [NUL] + t.original, t'.cluster, t'.instance + [NUL] + t'.original, NUL);
    CutUnique(t.instance, t.original, t'.instance, t'.original, NUL);
  }

  lemma ChildNameHash(h: Digest, t: Tuple)
    requires HexDigest(h)
    ensures var n := ProviderChildName(h, t);
      && |n| >= CHILD_HASH_LEN
      && n[|n| - CHILD_HASH_LEN..] == ChildHash(h, t)
  {
  }

  /** Two distinct tuples share a child name only if the digest itself gives two
      distinct strings the same first 12 characters. */
  lemma ProviderChildNameInjective(h: Digest, t: Tuple, t': Tuple)
    requires HexDigest(h) && NulFree(t) && NulFree(t')
    requires ProviderChildName(h, t) == ProviderChildName(h, t')
    ensures t == t' ||
            (HashInput(t) != HashInput(t') && h(HashInput(t))[..CHILD_HASH_LEN] == h(HashInput(t'))[..CHILD_HASH_LEN])
  {
    ChildNameHash(h, t);
    ChildNameHash(h, t');
    if HashInput(t) == HashInput(t') { HashInputInjective(t, t'); }
  }

  /** For DNS-1123 inputs, which hold no null byte, the names are injective relative to
      the digest outright. */
  lemma DnsChildNamesInjective(h: Digest, t: Tuple, t': Tuple)
    requires HexDigest(h) && DnsTuple(t) && DnsTuple(t')
    ensures ProviderChildName(h, t) == ProviderChildName(h, t') ==>
      t == t' || (HashInput(t) != HashInput(t') && ChildHash(h, t) == ChildHash(h, t'))
  {
    DnsIsNulFree(t.cluster);
    DnsIsNulFree(t.instance);
    DnsIsNulFree(t'.cluster);
    DnsIsNulFree(t'.instance);
    DnsIsNulFree(t.original);
    DnsIsNulFree(t'.original);
    if ProviderChildName(h, t) == ProviderChildName(h, t') { ProviderChildNameInjective(h, t, t'); }
  }

  /** The readable prefix alone is not injective: the collision naming.go warns of. */
  lemma ReadablePrefixCollides()
    ensures var t, t' := Tuple("a", "b-c", "d"), Tuple("a-b", "c", "d");
      t != t' && ReadablePrefix(t) == ReadablePrefix(t')
  {
    assert "a" + "-" + "b-c" + "-" + "d" == "a-b-c-d";
    assert "a-b" + "-" + "c" + "-" + "d" == "a-b-c-d";
  }

  /** Record names are DNS-1123 subdomains of one form and one length. */
  lemma LivenessRecordNameIsDns(h: Digest, cluster: string, uid: string)
    requires HexDigest(h)
    ensures var n := LivenessRecordName(h, cluster, uid);
      DnsShape(n) && |n| == 26 && n[..10] == "krop-live-" && n[10..] == h(cluster + "\0" + uid)[..16]
  {
    var s := h(cluster + [NUL] + uid)[..RECORD_HASH_LEN];
    assert forall i :: 0 <= i < 64 ==> Hex(h(cluster + [NUL] + uid)[i]);
    assert DnsShape(s) && DnsShape("krop-live");
    HyphenJoinKeepsShape("krop-live", s);
    assert "krop-live" + "-" + s == LivenessRecordName(h, cluster, uid);
  }

  /** Records of two instances share a name only if the digest collides. */
  lemma LivenessRecordNameInjective(h: Digest, c: string, u: string, c': string, u': string)
    requires HexDigest(h) && NUL !in c && NUL !in c'
    requires LivenessRecordName(h, c, u) == LivenessRecordName(h, c', u')
    ensures (c == c' && u == u') ||
            (c + [NUL] + u != c' + [NUL] + u' &&
             h(c + [NUL] + u)[..RECORD_HASH_LEN] == h(c' + [NUL] + u')[..RECORD_HASH_LEN])
  {
    var n, n' := LivenessRecordName(h, c, u), LivenessRecordName(h, c', u');
    assert n[10..] == h(c + [NUL] + u)[..RECORD_HASH_LEN];
    assert n'[10..] == h(c' + [NUL] + u')[..RECORD_HASH_LEN];
    if c + [NUL] + u == c' + [NUL] + u' { CutUnique(c, u, c', u', NUL); }
  }

  /** No child is ever named like a liveness record, whatever the inputs and the
      digest: the last hyphen stands 13 characters from the end of the one and 17
      from the end of the other. */
  lemma ChildNameIsNoRecordName(h: Digest, t: Tuple, cluster: string, uid: string)
    requires HexDigest(h)
    ensures ProviderChildName(h, t) != LivenessRecordName(h, cluster, uid)
  {
    var n, r := ProviderChildName(h, t), LivenessRecordName(h, cluster, uid);
    var d := h(cluster + [NUL] + uid);
    assert n[|n| - CHILD_HASH_LEN - 1] == '-';
    assert r[|r| - CHILD_HASH_LEN - 1] == d[RECORD_HASH_LEN - CHILD_HASH_LEN - 1];
    assert Hex(d[RECORD_HASH_LEN - CHILD_HASH_LEN - 1]);
  }
}
