/** internal/registrar/claims.go: the permission claims a published export carries. */
module Claims {
  import opened Text
  import opened Routing
  import opened GvkCodec

  datatype GroupResource = GR(group: string, resource: string)

  datatype NodeKind = Template | Collection | External | ExternalCollection

  /** A node of the compiled graph. */
  datatype Node = Node(id: string, kind: NodeKind, gvk: GVK, gr: GroupResource, namespaced: bool)

  datatype Claim = Claim(gr: GroupResource, verbs: seq<string>, identityHash: string)

  const CLAIM_VERBS := ["get", "list", "watch", "create", "update", "patch", "delete"]
  const READ_ONLY_VERBS := ["get", "list", "watch"]

  predicate IsExternal(n: Node) { n.kind.External? || n.kind.ExternalCollection? }

  predicate Before(a: GroupResource, b: GroupResource) {
    Less(a.group, b.group) || (a.group == b.group && Less(a.resource, b.resource))
  }

  lemma BeforeIrreflexive(a: GroupResource)
    ensures !Before(a, a)
  {
    LessIrreflexive(a.group);
    LessIrreflexive(a.resource);
  }

  lemma BeforeTransitive(a: GroupResource, b: GroupResource, c: GroupResource)
    requires Before(a, b) && Before(b, c)
    ensures Before(a, c)
  {
    if Less(a.group, b.group) && Less(b.group, c.group) { LessTransitive(a.group, b.group, c.group); }
    if Less(a.resource, b.resource) && Less(b.resource, c.resource) {
      LessTransitive(a.resource, b.resource, c.resource);
    }
  }

  lemma BeforeTotal(a: GroupResource, b: GroupResource)
    ensures Before(a, b) || a == b || Before(b, a)
  {
    LessTotal(a.group, b.group);
    LessTotal(a.resource, b.resource);
  }

  // ---- Sorting. The sources call sort.Slice and slices.SortStableFunc. ----

  function Insert<T>(x: T, s: seq<T>, key: T -> GroupResource): seq<T> {
    if s == [] || !Before(key(s[0]), key(x)) then [x] + s
    else [s[0]] + Insert(x, s[1..], key)
  }

  function StableSort<T>(s: seq<T>, key: T -> GroupResource): seq<T> {
    if s == [] then [] else Insert(s[0], StableSort(s[1..], key), key)
  }

  predicate Sorted<T>(s: seq<T>, key: T -> GroupResource) {
    forall i, j :: 0 <= i < j < |s| ==> !Before(key(s[j]), key(s[i]))
  }

  /** The elements with key `g`, in order. A sort is stable when it keeps these. */
  function Of<T>(s: seq<T>, key: T -> GroupResource, g: GroupResource): seq<T> {
    if s == [] then [] else (if key(s[0]) == g then [s[0]] else []) + Of(s[1..], key, g)
  }

  lemma {:induction false} InsertPermutes<T>(x: T, s: seq<T>, key: T -> GroupResource)
    ensures multiset(Insert(x, s, key)) == multiset(s) + multiset{x}
  {
    if s != [] && Before(key(s[0]), key(x)) {
      InsertPermutes(x, s[1..], key);
      assert s == [s[0]] + s[1..];
    }
  }

  lemma {:induction false} InsertKeepsOrder<T>(x: T, s: seq<T>, key: T -> GroupResource)
    requires Sorted(s, key)
    ensures Sorted(Insert(x, s, key), key)
  {
    if s == [] {
    } else if !Before(key(s[0]), key(x)) {
      forall j | 0 <= j < |s| ensures !Before(key(s[j]), key(x)) {
        if Before(key(s[j]), key(x)) {
          BeforeTotal(key(s[0]), key(s[j]));
          if Before(key(s[0]), key(s[j])) { BeforeTransitive(key(s[0]), key(s[j]), key(x)); }
        }
      }
    } else {
      InsertKeepsOrder(x, s[1..], key);
      InsertPermutes(x, s[1..], key);
      var t := Insert(x, s[1..], key);
      if Before(key(x), key(s[0])) { BeforeTransitive(key(x), key(s[0]), key(x)); }
      BeforeIrreflexive(key(x));
      forall y | y in multiset(t) ensures !Before(key(y), key(s[0])) {
        assert y == x || y in s[1..];
      }
      assert forall j :: 0 <= j < |t| ==> t[j] in multiset(t);
    }
  }

  lemma {:induction false} InsertIsStable<T>(x: T, s: seq<T>, key: T -> GroupResource, g: GroupResource)
    ensures Of(Insert(x, s, key), key, g) == Of([x] + s, key, g)
  {
    assert ([x] + s)[1..] == s;
    if s != [] && Before(key(s[0]), key(x)) {
      InsertIsStable(x, s[1..], key, g);
      BeforeIrreflexive(key(x));
      var t := Insert(x, s[1..], key);
      assert ([s[0]] + t)[1..] == t && ([x] + s[1..])[1..] == s[1..];
    }
  }

  /** The sort orders, permutes, and keeps claims for one resource in order. */
  lemma {:induction false} StableSortSound<T>(s: seq<T>, key: T -> GroupResource)
    ensures Sorted(StableSort(s, key), key)
    ensures multiset(StableSort(s, key)) == multiset(s)
    ensures forall g :: Of(StableSort(s, key), key, g) == Of(s, key, g)
  {
    if s != [] {
      var t := StableSort(s[1..], key);
      StableSortSound(s[1..], key);
      InsertPermutes(s[0], t, key);
      InsertKeepsOrder(s[0], t, key);
      assert s == [s[0]] + s[1..];
      forall g ensures Of(Insert(s[0], t, key), key, g) == Of(s, key, g) { StableOneMore(s, t, key, g); }
    }
  }

  lemma StableOneMore<T>(s: seq<T>, t: seq<T>, key: T -> GroupResource, g: GroupResource)
    requires s != [] && Sorted(t, key) && Of(t, key, g) == Of(s[1..], key, g)
    ensures Of(Insert(s[0], t, key), key, g) == Of(s, key, g)
  {
    InsertIsStable(s[0], t, key, g);
    assert ([s[0]] + t)[1..] == t;
  }

  lemma SortMembers<T>(s: seq<T>, key: T -> GroupResource, y: T)
    ensures y in StableSort(s, key) <==> y in s
  {
    StableSortSound(s, key);
    assert y in StableSort(s, key) <==> y in multiset(StableSort(s, key));
    assert y in s <==> y in multiset(s);
  }

  // ---- Which resources need a claim. ----

  /** `n` works in the consumer workspace on a type other than the instance's own. */
  predicate Foreign(n: Node, own: GroupResource, routing: map<string, Target>) {
    TargetForNode(n.id, routing) == Consumer && n.gr != own
  }

  /** Some template of the consumer workspace has this type, not the instance's own. */
  ghost predicate Writes(nodes: map<string, Node>, own: GroupResource, routing: map<string, Target>,
                         gr: GroupResource) {
    exists id :: id in nodes && nodes[id].gr == gr != own && TargetForNode(nodes[id].id, routing) == Consumer
      && !IsExternal(nodes[id])
  }

  /** Some external reference to the consumer workspace has it. */
  ghost predicate Reads(nodes: map<string, Node>, own: GroupResource, routing: map<string, Target>, gr: GroupResource) {
    exists id :: id in nodes && nodes[id].gr == gr != own && TargetForNode(nodes[id].id, routing) == Consumer
      && IsExternal(nodes[id])
  }

  predicate Distinct<T(==)>(s: seq<T>) {
    forall i, j :: 0 <= i < j < |s| ==> s[i] != s[j]
  }

  /** The foreign consumer-target resources, without repetition, split by node kind.
      The node map is iterated in an arbitrary order. */
  method ForeignConsumerGRs(nodes: map<string, Node>, own: GroupResource, routing: map<string, Target>)
    returns (writable: seq<GroupResource>, external: seq<GroupResource>)
    ensures Distinct(writable) && Distinct(external)
    ensures forall gr :: gr in writable <==> Writes(nodes, own, routing, gr)
    ensures forall gr :: gr in external <==> Reads(nodes, own, routing, gr)
  {
    writable, external := [], [];
    var seenWritable: set<GroupResource>, seenExternal: set<GroupResource> := {}, {};
    var todo := nodes.Keys;
    while todo != {}
      invariant todo <= nodes.Keys
      invariant Distinct(writable) && Distinct(external)
      invariant forall gr :: gr in seenWritable <==> gr in writable
      invariant forall gr :: gr in seenExternal <==> gr in external
      invariant forall gr :: gr in writable ==> Writes(nodes, own, routing, gr)
      invariant forall gr :: gr in external ==> Reads(nodes, own, routing, gr)
      invariant forall id :: id in nodes && id !in todo && Foreign(nodes[id], own, routing) ==>
                  if IsExternal(nodes[id]) then nodes[id].gr in external else nodes[id].gr in writable
    {
      var id :| id in todo;
      todo := todo - {id};
      var node := nodes[id];
      if TargetForNode(node.id, routing) != Consumer { continue; }
      if node.gr == own { continue; }
      if IsExternal(node) {
        if node.gr !in seenExternal {
          seenExternal := seenExternal + {node.gr};
          external := external + [node.gr];
        }
        continue;
      }
      if node.gr !in seenWritable {
        seenWritable := seenWritable + {node.gr};
        writable := writable + [node.gr];
      }
    }
  }

  function IdentityOf(identity: map<GroupResource, string>, gr: GroupResource): string {
    if gr in identity then identity[gr] else ""
  }

  /** One claim per resource, sorted. */
  method DeriveClaims(foreign: seq<GroupResource>, verbs: seq<string>, identity: map<GroupResource, string>)
    returns (claims: seq<Claim>)
    ensures Sorted(claims, (c: Claim) => c.gr)
    ensures forall c :: c in claims <==> c.gr in foreign && c == Claim(c.gr, verbs, IdentityOf(identity, c.gr))
  {
    var sorted := StableSort(foreign, (g: GroupResource) => g);
    ResourcesInOrder(foreign);
    claims := [];
    for i := 0 to |sorted|
      invariant |claims| == i
      invariant forall j :: 0 <= j < i ==> claims[j] == Claim(sorted[j], verbs, IdentityOf(identity, sorted[j]))
    {
      claims := claims + [Claim(sorted[i], verbs, IdentityOf(identity, sorted[i]))];
    }
    OneClaimEach(sorted, claims, verbs, identity);
    ClaimsInOrder(sorted, claims);
  }

  lemma ResourcesInOrder(grs: seq<GroupResource>)
    ensures var sorted := StableSort(grs, (g: GroupResource) => g);
      Sorted(sorted, (g: GroupResource) => g) && forall g :: g in sorted <==> g in grs
  {
    StableSortSound(grs, (g: GroupResource) => g);
    forall g ensures g in StableSort(grs, (g: GroupResource) => g) <==> g in grs {
      SortMembers(grs, (g: GroupResource) => g, g);
    }
  }

  lemma ClaimsInOrder(grs: seq<GroupResource>, claims: seq<Claim>)
    requires Sorted(grs, (g: GroupResource) => g) && |claims| == |grs| && forall j :: 0 <= j < |grs| ==>
      claims[j].gr == grs[j]
    ensures Sorted(claims, (c: Claim) => c.gr)
  {
    forall i, j | 0 <= i < j < |claims| ensures !Before(claims[j].gr, claims[i].gr) {
      assert !Before(grs[j], grs[i]);
    }
  }

  lemma OneClaimEach(grs: seq<GroupResource>, claims: seq<Claim>, verbs: seq<string>,
                     identity: map<GroupResource, string>)
    requires |claims| == |grs| && forall j :: 0 <= j < |grs| ==>
      claims[j] == Claim(grs[j], verbs, IdentityOf(identity, grs[j]))
    ensures forall c :: c in claims <==> c.gr in grs && c == Claim(c.gr, verbs, IdentityOf(identity, c.gr))
  {
    forall c: Claim | c.gr in grs && c == Claim(c.gr, verbs, IdentityOf(identity, c.gr)) ensures c in claims {
      var j :| 0 <= j < |grs| && grs[j] == c.gr;
      assert claims[j] == c;
    }
  }

  predicate StrictlySorted(claims: seq<Claim>) {
    forall i, j :: 0 <= i < j < |claims| ==> Before(claims[i].gr, claims[j].gr)
  }

  function ByGR(): Claim -> GroupResource { (c: Claim) => c.gr }

  datatype Merged = Panic | Claims(claims: seq<Claim>)

  lemma {:induction false} OfMembers(s: seq<Claim>, g: GroupResource)
    ensures forall c :: c in Of(s, ByGR(), g) <==> c in s && c.gr == g
  {
    if s != [] { OfMembers(s[1..], g); assert s == [s[0]] + s[1..]; }
  }

  lemma {:induction false} OfNone(s: seq<Claim>, g: GroupResource)
    requires forall c :: c in s ==> c.gr != g
    ensures Of(s, ByGR(), g) == []
  {
    if s != [] { OfNone(s[1..], g); assert s == [s[0]] + s[1..]; }
  }

  lemma {:induction false} OfAppend(s: seq<Claim>, x: Claim, g: GroupResource)
    ensures Of(s + [x], ByGR(), g) == Of(s, ByGR(), g) + (if x.gr == g then [x] else [])
  {
    if s != [] {
      OfAppend(s[1..], x, g);
      assert (s + [x])[1..] == s[1..] + [x];
    } else {
      assert (s + [x])[1..] == [];
    }
  }

  /** `c` is the first claim of `s` for its resource. */
  predicate Kept(s: seq<Claim>, c: Claim) {
    var same := Of(s, ByGR(), c.gr);
    same != [] && c == same[0]
  }

  ghost predicate Claimed(claims: seq<Claim>, gr: GroupResource) {
    exists c :: c in claims && c.gr == gr
  }

  /** The loop of mergeClaims after the sorted claims `s`. */
  ghost predicate MergedSoFar(s: seq<Claim>, out: seq<Claim>) {
    && (forall c :: c in out ==> c in s && Kept(s, c))
    && (forall c :: c in s ==> Claimed(out, c.gr))
  }

  /** mergeClaims: the input is indexed at 0 before it is known to be non-empty, so
      an empty one panics; otherwise one claim per resource remains, in strict order,
      and it is the FIRST one given for that resource: the union of verbs the source
      computes goes into a copy and is dropped. */
  method MergeClaims(all: seq<Claim>) returns (m: Merged)
    ensures m.Panic? <==> all == []
    ensures m.Claims? ==> StrictlySorted(m.claims)
    ensures m.Claims? ==> forall c :: c in m.claims <==> c in all && Kept(all, c)
  {
    if all == [] { return Panic; }
    var sorted := StableSort(all, ByGR());
    StableSortSound(all, ByGR());
    forall c ensures c in sorted <==> c in all { SortMembers(all, ByGR(), c); }
    assert all[0] in sorted;
    var out := [sorted[0]];
    MergeFirst(sorted);
    for i := 1 to |sorted|
      invariant |out| > 0 && StrictlySorted(out) && out[|out| - 1].gr == sorted[i - 1].gr
      invariant MergedSoFar(sorted[..i], out)
    {
      var last := out[|out| - 1];
      if last.gr != sorted[i].gr {
        NewGroup(sorted, i, out);
        MergeNew(sorted, i, out);
        out := out + [sorted[i]];
      } else {
        MergeSame(sorted, i, out);
      }
    }
    assert sorted[..|sorted|] == sorted;
    forall c | c in all && Kept(all, c) ensures c in out {
      assert Claimed(out, c.gr);
      var d :| d in out && d.gr == c.gr;
      assert Kept(sorted, d);
    }
    assert forall c :: c in out ==> Kept(sorted, c) && Kept(all, c);
    return Claims(out);
  }

  lemma MergeFirst(sorted: seq<Claim>)
    requires |sorted| > 0
    ensures MergedSoFar(sorted[..1], [sorted[0]]) && StrictlySorted([sorted[0]])
  {
    var c := sorted[0];
    OfAppend([], c, c.gr);
    assert sorted[..1] == [c] && [] + [c] == [c];
    assert Kept([c], c) && c in [c] && Claimed([c], c.gr);
  }

  lemma MergeSame(sorted: seq<Claim>, i: nat, out: seq<Claim>)
    requires i < |sorted| && MergedSoFar(sorted[..i], out) && Claimed(out, sorted[i].gr)
    ensures MergedSoFar(sorted[..i + 1], out)
  {
    var s, s', next := sorted[..i], sorted[..i + 1], sorted[i];
    assert s' == s + [next];
    forall c | c in out ensures c in s' && Kept(s', c) {
      assert Kept(s, c);
      OfAppend(s, next, c.gr);
    }
  }

  lemma MergeNew(sorted: seq<Claim>, i: nat, out: seq<Claim>)
    requires i < |sorted| && MergedSoFar(sorted[..i], out)
    requires forall c :: c in sorted[..i] ==> c.gr != sorted[i].gr
    ensures MergedSoFar(sorted[..i + 1], out + [sorted[i]])
  {
    var s, s', next := sorted[..i], sorted[..i + 1], sorted[i];
    var out' := out + [next];
    assert s' == s + [next];
    assert forall c :: c in out' <==> c in out || c == next;
    assert Kept(s', next) by {
      OfAppend(s, next, next.gr);
      OfNone(s, next.gr);
    }
    forall c | c in out ensures c in s' && Kept(s', c) {
      assert Kept(s, c);
      OfAppend(s, next, c.gr);
    }
    forall c | c in s' ensures Claimed(out', c.gr) {
      if c != next {
        assert Claimed(out, c.gr);
        var d :| d in out && d.gr == c.gr;
        assert d in out';
      }
    }
  }

  /** In a sorted list a key that differs from the previous one is new, and comes
      after every key kept so far. */
  lemma NewGroup(sorted: seq<Claim>, i: nat, out: seq<Claim>)
    requires Sorted(sorted, ByGR()) && 0 < i < |sorted|
    requires |out| > 0 && StrictlySorted(out)
    requires out[|out| - 1].gr == sorted[i - 1].gr != sorted[i].gr
    ensures forall c :: c in sorted[..i] ==> c.gr != sorted[i].gr
    ensures StrictlySorted(out + [sorted[i]])
  {
    var last, next := sorted[i - 1], sorted[i];
    BeforeTotal(last.gr, next.gr);
    assert !Before(ByGR()(sorted[i]), ByGR()(sorted[i - 1]));
    assert Before(last.gr, next.gr);
    forall j | 0 <= j < i - 1 ensures sorted[j].gr != next.gr {
      assert !Before(ByGR()(sorted[i - 1]), ByGR()(sorted[j]));
    }
    forall j | 0 <= j < |out| ensures Before(out[j].gr, next.gr) {
      if j < |out| - 1 { BeforeTransitive(out[j].gr, last.gr, next.gr); }
    }
  }

  // ---- What the registrar publishes. ----

  /** The claims a graph calls for, said without naming how they are computed. */
  ghost predicate ClaimsFor(claims: seq<Claim>, nodes: map<string, Node>, own: GroupResource,
                            routing: map<string, Target>, identity: map<GroupResource, string>)
  {
    StrictlySorted(claims) && ContentsFor(claims, nodes, own, routing, identity)
  }

  /** Create, read, update and delete when some template node uses the resource. */
  ghost function VerbsFor(nodes: map<string, Node>, own: GroupResource, routing: map<string, Target>,
                          gr: GroupResource): seq<string> {
    if Writes(nodes, own, routing, gr) then CLAIM_VERBS else READ_ONLY_VERBS
  }

  ghost predicate ContentsFor(claims: seq<Claim>, nodes: map<string, Node>, own: GroupResource,
                              routing: map<string, Target>, identity: map<GroupResource, string>)
  {
    && (forall c :: c in claims ==>
          c.verbs == VerbsFor(nodes, own, routing, c.gr) && c.identityHash == IdentityOf(identity, c.gr))
    && (forall gr :: Claimed(claims, gr) <==> Writes(nodes, own, routing, gr) || Reads(nodes, own, routing, gr))
  }

  lemma {:induction false} OfConcat(a: seq<Claim>, b: seq<Claim>, g: GroupResource)
    ensures Of(a + b, ByGR(), g) == Of(a, ByGR(), g) + Of(b, ByGR(), g)
  {
    if a == [] {
      assert a + b == b;
    } else {
      OfConcat(a[1..], b, g);
      assert (a + b)[1..] == a[1..] + b;
      ConcatAssociates(if ByGR()(a[0]) == g then [a[0]] else [], Of(a[1..], ByGR(), g), Of(b, ByGR(), g));
    }
  }

  /** internal/registrar/registrar.go:180-184. For every node map and every order in
      which it is iterated, the merged claims are exactly those the graph calls for;
      the call panics exactly when no node is foreign and consumer-targeted. */
  method PublishedClaims(nodes: map<string, Node>, own: GroupResource, routing: map<string, Target>,
                         identity: map<GroupResource, string>)
    returns (m: Merged)
    ensures m.Panic? <==>
      forall id :: id in nodes && TargetForNode(nodes[id].id, routing) == Consumer ==> nodes[id].gr == own
    ensures m.Claims? ==> ClaimsFor(m.claims, nodes, own, routing, identity)
  {
    var writable, external := ForeignConsumerGRs(nodes, own, routing);
    var crud := DeriveClaims(writable, CLAIM_VERBS, identity);
    var read := DeriveClaims(external, READ_ONLY_VERBS, identity);
    var all := crud + read;
    m := MergeClaims(all);
    forall gr
      ensures Writes(nodes, own, routing, gr) ==> Kept(all, Claim(gr, CLAIM_VERBS, IdentityOf(identity, gr)))
      ensures !Writes(nodes, own, routing, gr) && Reads(nodes, own, routing, gr) ==>
        Kept(all, Claim(gr, READ_ONLY_VERBS, IdentityOf(identity, gr)))
    {
      FirstClaim(crud, read, gr);
      assert Writes(nodes, own, routing, gr) ==> Claim(gr, CLAIM_VERBS, IdentityOf(identity, gr)) in crud;
      assert Reads(nodes, own, routing, gr) ==> Claim(gr, READ_ONLY_VERBS, IdentityOf(identity, gr)) in read;
    }
    ClaimsFollow(all, m, nodes, own, routing, identity);
  }

  lemma KeptIsMember(s: seq<Claim>, c: Claim)
    requires Kept(s, c)
    ensures c in s
  {
    OfMembers(s, c.gr);
    assert c in Of(s, ByGR(), c.gr);
  }

  lemma ClaimsFollow(all: seq<Claim>, m: Merged, nodes: map<string, Node>, own: GroupResource,
                     routing: map<string, Target>,
                     identity: map<GroupResource, string>)
    requires m.Panic? <==> all == []
    requires m.Claims? ==> StrictlySorted(m.claims) && forall c :: c in m.claims <==> c in all && Kept(all, c)
    requires forall gr :: Writes(nodes, own, routing, gr) ==>
      Kept(all, Claim(gr, CLAIM_VERBS, IdentityOf(identity, gr)))
    requires forall gr :: !Writes(nodes, own, routing, gr) && Reads(nodes, own, routing, gr) ==>
               Kept(all, Claim(gr, READ_ONLY_VERBS, IdentityOf(identity, gr)))
    requires forall c :: c in all ==> Writes(nodes, own, routing, c.gr) || Reads(nodes, own, routing, c.gr)
    ensures m.Panic? <==> forall id :: id in nodes ==> !Foreign(nodes[id], own, routing)
    ensures m.Claims? ==> ClaimsFor(m.claims, nodes, own, routing, identity)
  {
    forall id | id in nodes && Foreign(nodes[id], own, routing) ensures all != [] {
      var gr := nodes[id].gr;
      assert Writes(nodes, own, routing, gr) || Reads(nodes, own, routing, gr);
      var c := if Writes(nodes, own, routing, gr) then Claim(gr, CLAIM_VERBS, IdentityOf(identity, gr))
               else Claim(gr, READ_ONLY_VERBS, IdentityOf(identity, gr));
      KeptIsMember(all, c);
    }
    if m.Claims? {
      assert Writes(nodes, own, routing, all[0].gr) || Reads(nodes, own, routing, all[0].gr);
      forall gr | Writes(nodes, own, routing, gr) || Reads(nodes, own, routing, gr) ensures Claimed(m.claims, gr) {
        var c := if Writes(nodes, own, routing, gr) then Claim(gr, CLAIM_VERBS, IdentityOf(identity, gr))
                 else Claim(gr, READ_ONLY_VERBS, IdentityOf(identity, gr));
        KeptIsMember(all, c);
        assert c in m.claims;
      }
    }
  }

  /** The first claim for a resource comes from the first list that has one. */
  lemma FirstClaim(crud: seq<Claim>, read: seq<Claim>, gr: GroupResource)
    ensures (exists c :: c in crud && c.gr == gr) ==>
              Of(crud + read, ByGR(), gr) != [] && Of(crud + read, ByGR(), gr)[0] in crud
                && Of(crud + read, ByGR(), gr)[0].gr == gr
    ensures (forall c :: c in crud ==> c.gr != gr) && (exists c :: c in read && c.gr == gr) ==>
              Of(crud + read, ByGR(), gr) != [] && Of(crud + read, ByGR(), gr)[0] in read
                && Of(crud + read, ByGR(), gr)[0].gr == gr
  {
    OfConcat(crud, read, gr);
    FirstOf(crud, gr);
    FirstOf(read, gr);
  }

  lemma FirstOf(s: seq<Claim>, gr: GroupResource)
    ensures Of(s, ByGR(), gr) == [] <==> forall c :: c in s ==> c.gr != gr
    ensures Of(s, ByGR(), gr) != [] ==> Of(s, ByGR(), gr)[0] in s && Of(s, ByGR(), gr)[0].gr == gr
  {
    OfMembers(s, gr);
    var of := Of(s, ByGR(), gr);
    if of != [] { assert of[0] in of; }
    if c :| c in s && c.gr == gr { assert c in of; }
  }

  /** The graph alone determines the claims: publications are stable across every
      map iteration order. */
  lemma {:induction false} ClaimsAreDetermined(a: seq<Claim>, b: seq<Claim>, nodes: map<string, Node>,
                                               own: GroupResource,
                                               routing: map<string, Target>, identity: map<GroupResource, string>)
    requires ClaimsFor(a, nodes, own, routing, identity) && ClaimsFor(b, nodes, own, routing, identity)
    ensures a == b
  {
    SameMembers(a, b, nodes, own, routing, identity);
    SameMembers(b, a, nodes, own, routing, identity);
    SortedSequencesAgree(a, b);
  }

  /** Claims are neither missing nor spare: a type is claimed exactly when some node
      works on it in the consumer workspace and it is not the instance's own, with the
      writing verbs exactly when one of those nodes is a template; in byte order of
      group and then resource. */
  lemma ClaimsAreExact(claims: seq<Claim>, nodes: map<string, Node>, own: GroupResource,
                       routing: map<string, Target>, identity: map<GroupResource, string>, gr: GroupResource)
    requires ClaimsFor(claims, nodes, own, routing, identity)
    ensures (exists c :: c in claims && c.gr == gr) <==>
      exists id :: id in nodes && nodes[id].gr == gr != own && TargetForNode(nodes[id].id, routing) == Consumer
    ensures forall c :: c in claims && c.gr == gr ==>
      && c.identityHash == (if gr in identity then identity[gr] else "")
      && (if exists id :: id in nodes && nodes[id].gr == gr && TargetForNode(nodes[id].id, routing) == Consumer
                          && (nodes[id].kind.Template? || nodes[id].kind.Collection?)
          then c.verbs == ["get", "list", "watch", "create", "update", "patch", "delete"]
          else c.verbs == ["get", "list", "watch"])
    ensures forall i, j :: 0 <= i < j < |claims| ==>
      var a, b := claims[i].gr, claims[j].gr;
      Less(a.group, b.group) || (a.group == b.group && Less(a.resource, b.resource))
  {
    assert Claimed(claims, gr) <==> Writes(nodes, own, routing, gr) || Reads(nodes, own, routing, gr);
  }

  lemma SameMembers(a: seq<Claim>, b: seq<Claim>, nodes: map<string, Node>, own: GroupResource,
                    routing: map<string, Target>, identity: map<GroupResource, string>)
    requires ContentsFor(a, nodes, own, routing, identity) && ContentsFor(b, nodes, own, routing, identity)
    ensures forall c :: c in a ==> c in b
  {
    forall c | c in a ensures c in b {
      assert Claimed(a, c.gr);
      assert Claimed(b, c.gr);
      var d :| d in b && d.gr == c.gr;
    }
  }

  lemma FirstsAgree(a: seq<Claim>, b: seq<Claim>)
    requires StrictlySorted(a) && StrictlySorted(b) && |a| > 0 && |b| > 0
    requires a[0] in b && b[0] in a
    ensures a[0] == b[0]
  {
    var i :| 0 <= i < |b| && b[i] == a[0];
    var j :| 0 <= j < |a| && a[j] == b[0];
    BeforeIrreflexive(a[0].gr);
    if Before(a[0].gr, b[0].gr) && Before(b[0].gr, a[0].gr) { BeforeTransitive(a[0].gr, b[0].gr, a[0].gr); }
  }

  lemma {:induction false} SortedSequencesAgree(a: seq<Claim>, b: seq<Claim>)
    requires StrictlySorted(a) && StrictlySorted(b)
    requires forall c :: c in a <==> c in b
    ensures a == b
  {
    assert |b| > 0 ==> b[0] in b;
    if a == [] {
    } else {
      assert a[0] in b;
      assert b != [] && b[0] in a;
      FirstsAgree(a, b);
      BeforeIrreflexive(a[0].gr);
      assert forall k :: 0 < k < |a| ==> Before(a[0].gr, a[k].gr);
      assert forall k :: 0 < k < |b| ==> Before(b[0].gr, b[k].gr);
      assert a == [a[0]] + a[1..] && b == [b[0]] + b[1..];
      forall c ensures c in a[1..] <==> c in b[1..] {
        assert c in a[1..] ==> c in a;
        assert c in b[1..] ==> c in b;
        assert a[0] !in a[1..] && b[0] !in b[1..];
      }
      SortedSequencesAgree(a[1..], b[1..]);
    }
  }

  predicate FirstUnresolved(claims: seq<Claim>, i: nat)
    requires i < |claims|
  {
    && claims[i].gr.group != "" && claims[i].identityHash == ""
    && (forall j :: 0 <= j < i ==> claims[j].gr.group == "" || claims[j].identityHash != "")
  }

  /** validateClaims: the first non-core claim without an identity, if any. */
  method ValidateClaims(claims: seq<Claim>) returns (bad: Option<GroupResource>)
    ensures bad.None? <==> forall c :: c in claims && c.gr.group != "" ==> c.identityHash != ""
    ensures bad.Some? ==> exists i :: 0 <= i < |claims| && claims[i].gr == bad.value && FirstUnresolved(claims, i)
  {
    for i := 0 to |claims|
      invariant forall j :: 0 <= j < i ==> claims[j].gr.group == "" || claims[j].identityHash != ""
    {
      if claims[i].gr.group != "" && claims[i].identityHash == "" {
        assert claims[i] in claims && FirstUnresolved(claims, i);
        return Some(claims[i].gr);
      }
    }
    return None;
  }
}
