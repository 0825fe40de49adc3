/** Where a blueprint's resources go: api/v1alpha1/routing.go splits the targets out
    of the spec, internal/registrar/registrar.go types them and
    internal/engine/route.go resolves a node's target. */
module Routing {

  datatype Target = Consumer | Provider | Host

  datatype Option<+T> = None | Some(value: T)

  /** A resource of the wrapper spec; `body` stands for the inlined kro resource. */
  datatype Resource = Resource(id: string, body: string, target: string)

  datatype KroResource = KroResource(id: string, body: string)

  function ParseTarget(s: string): Option<Target> {
    match s
    case "" => Some(Consumer)
    case "consumer" => Some(Consumer)
    case "provider" => Some(Provider)
    case "host" => Some(Host)
    case _ => None
  }

  function TargetForNode(id: string, routing: map<string, Target>): Target {
    if id in routing then routing[id] else Consumer
  }

  /** The non-nil resources of a spec, in order, stripped of their targets. */
  function Stripped(rs: seq<Option<Resource>>): seq<KroResource> {
    if rs == [] then []
    else
      var front := Stripped(rs[..|rs| - 1]);
      match rs[|rs| - 1]
      case None => front
      case Some(r) => front + [KroResource(r.id, r.body)]
  }

  /** The last non-empty target given to `id`, or "". */
  function DeclaredTarget(rs: seq<Option<Resource>>, id: string): string {
    if rs == [] then ""
    else
      var last := rs[|rs| - 1];
      if last.Some? && last.value.id == id && last.value.target != "" then last.value.target
      else DeclaredTarget(rs[..|rs| - 1], id)
  }

  predicate Names(rs: seq<Option<Resource>>, i: nat, id: string) {
    i < |rs| && rs[i].Some? && rs[i].value.id == id
  }

  lemma {:induction false} UndeclaredIsEmpty(rs: seq<Option<Resource>>, id: string)
    requires forall i :: 0 <= i < |rs| ==> !Names(rs, i, id)
    ensures DeclaredTarget(rs, id) == ""
  {
    if rs != [] {
      assert !Names(rs, |rs| - 1, id);
      var front := rs[..|rs| - 1];
      forall i | 0 <= i < |front| ensures !Names(front, i, id) {
        assert !Names(rs, i, id);
      }
      UndeclaredIsEmpty(front, id);
    }
  }

  lemma {:induction false} StrippedMembers(rs: seq<Option<Resource>>, x: KroResource)
    ensures x in Stripped(rs) <==>
      exists i :: 0 <= i < |rs| && rs[i].Some? && rs[i].value.id == x.id && rs[i].value.body == x.body
  {
    if rs != [] {
      var front := rs[..|rs| - 1];
      StrippedMembers(front, x);
      assert forall i :: 0 <= i < |front| ==> front[i] == rs[i];
    }
  }

  /** ToKro: the kro resources in order, and the declared non-empty targets. */
  method ToKro(rs: seq<Option<Resource>>) returns (res: seq<KroResource>, routing: map<string, string>)
    ensures res == Stripped(rs)
    ensures forall x :: x in res <==>
      exists i :: 0 <= i < |rs| && rs[i].Some? && rs[i].value.id == x.id && rs[i].value.body == x.body
    ensures forall id :: id in routing <==> DeclaredTarget(rs, id) != ""
    ensures forall id :: id in routing ==> routing[id] == DeclaredTarget(rs, id)
  {
    res, routing := [], map[];
    for i := 0 to |rs|
      invariant res == Stripped(rs[..i])
      invariant forall id :: id in routing <==> DeclaredTarget(rs[..i], id) != ""
      invariant forall id :: id in routing ==> routing[id] == DeclaredTarget(rs[..i], id)
    {
      assert rs[..i + 1][..i] == rs[..i];
      if rs[i].None? { continue; }
      var r := rs[i].value;
      res := res + [KroResource(r.id, r.body)];
      if r.target != "" {
        routing := routing[r.id := r.target];
      }
    }
    assert rs[..|rs|] == rs;
    forall x
      ensures x in res <==>
        exists i :: 0 <= i < |rs| && rs[i].Some? && rs[i].value.id == x.id && rs[i].value.body == x.body
    {
      StrippedMembers(rs, x);
    }
  }

  /** The registrar's typed copy of the raw routing map: it fails exactly when some
      entry is no known target. Map iteration order is arbitrary. */
  method TypedRouting(raw: map<string, string>) returns (routing: Option<map<string, Target>>)
    ensures routing.None? <==> exists id :: id in raw && raw[id] !in {"", "consumer", "provider", "host"}
    ensures routing.Some? ==> routing.value.Keys == raw.Keys
    ensures routing.Some? ==> forall id :: id in raw ==>
      && (raw[id] == "" || raw[id] == "consumer" <==> routing.value[id] == Consumer)
      && (raw[id] == "provider" <==> routing.value[id] == Provider)
      && (raw[id] == "host" <==> routing.value[id] == Host)
    ensures routing.None? <==> exists id :: id in raw && ParseTarget(raw[id]).None?
    ensures routing.Some? ==> forall id :: id in raw ==> ParseTarget(raw[id]) == Some(routing.value[id])
  {
    var todo := raw.Keys;
    var typed: map<string, Target> := map[];
    while todo != {}
      invariant todo <= raw.Keys && typed.Keys == raw.Keys - todo
      invariant forall id :: id in typed ==> ParseTarget(raw[id]) == Some(typed[id])
    {
      var id :| id in todo;
      var t := ParseTarget(raw[id]);
      if t.None? { return None; }
      typed := typed[id := t.value];
      todo := todo - {id};
    }
    return Some(typed);
  }

  predicate UniqueIds(rs: seq<Option<Resource>>) {
    forall i, j :: 0 <= i < j < |rs| && rs[i].Some? && rs[j].Some? ==> rs[i].value.id != rs[j].value.id
  }

  lemma {:induction false} DeclaredIsOwn(rs: seq<Option<Resource>>, i: nat)
    requires UniqueIds(rs) && i < |rs| && rs[i].Some?
    ensures DeclaredTarget(rs, rs[i].value.id) == rs[i].value.target
    decreases |rs|
  {
    var front, last := rs[..|rs| - 1], rs[|rs| - 1];
    if i < |rs| - 1 {
      assert front[i] == rs[i];
      DeclaredIsOwn(front, i);
    } else {
      forall j | 0 <= j < |front| ensures !Names(front, j, last.value.id) {
        assert front[j] == rs[j];
      }
      UndeclaredIsEmpty(front, last.value.id);
    }
  }

  /** The three routing steps compose: with unique resource ids the registrar rejects
      the spec exactly when some resource names an unknown target, and otherwise every
      consumer of the typed map (engine, garbage collection, claims) resolves each
      resource to the target its author wrote, the empty one meaning consumer. */
  method ResolveRouting(rs: seq<Option<Resource>>)
    returns (res: seq<KroResource>, routing: Option<map<string, Target>>)
    requires UniqueIds(rs)
    ensures res == Stripped(rs)
    ensures routing.None? <==>
      exists i :: 0 <= i < |rs| && rs[i].Some? && rs[i].value.target !in {"", "consumer", "provider", "host"}
    ensures routing.Some? ==> forall i :: 0 <= i < |rs| && rs[i].Some? ==>
      var r, t := rs[i].value, TargetForNode(rs[i].value.id, routing.value);
      && (r.target == "" || r.target == "consumer" <==> t == Consumer)
      && (r.target == "provider" <==> t == Provider)
      && (r.target == "host" <==> t == Host)
  {
    var raw;
    res, raw := ToKro(rs);
    routing := TypedRouting(raw);
    forall i | 0 <= i < |rs| && rs[i].Some?
      ensures DeclaredTarget(rs, rs[i].value.id) == rs[i].value.target
    {
      DeclaredIsOwn(rs, i);
    }
    if routing.None? {
      var id :| id in raw && raw[id] !in {"", "consumer", "provider", "host"};
      if forall i :: 0 <= i < |rs| ==> !Names(rs, i, id) {
        UndeclaredIsEmpty(rs, id);
        assert false;
      }
      var i :| 0 <= i < |rs| && Names(rs, i, id);
      assert rs[i].value.target == raw[id];
    } else {
      assert forall i :: 0 <= i < |rs| && rs[i].Some? ==> (rs[i].value.target != "" <==> rs[i].value.id in raw);
    }
  }
}
