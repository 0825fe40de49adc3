/** What every step of publishing keeps about schemas and exports. */
module PublishApi {
  import opened Text
  import opened Publish
  import opened PublishSafety
  import opened PublishStops

  ghost predicate SchemaFor(sn: string, x: string) {
    exists h :: '.' !in h && sn == SchemaName(h, x)
  }

  lemma SchemaNameInjective(h: string, x: string, h': string, x': string)
    requires '.' !in h && '.' !in h' && SchemaName(h, x) == SchemaName(h', x')
    ensures h == h' && x == x'
  {
    assert SchemaName(h, x)[1..] == h + ['.'] + x && SchemaName(h', x')[1..] == h' + ['.'] + x';
    CutUnique(h, x, h', x', '.');
  }

  lemma SchemasApart(sn: string, x: string, x': string)
    requires SchemaFor(sn, x) && SchemaFor(sn, x')
    ensures x == x'
  {
    var h :| '.' !in h && sn == SchemaName(h, x);
    var h' :| '.' !in h' && sn == SchemaName(h', x');
    SchemaNameInjective(h, x, h', x');
  }

  /** A schema of a blueprint's name is the one its graph converts to. */
  ghost predicate SchemaOk(w: World, schemas: map<string, Graph>, n: string, a: Spec) {
    a in w.specs && w.build(n, a).Some? ==>
      var sn := SchemaName(w.hash(a), w.build(n, a).value.ApiExport());
      sn in schemas ==> schemas[sn] == w.build(n, a).value
  }

  ghost predicate SchemasOk(w: World, schemas: map<string, Graph>) {
    forall n, a :: SchemaOk(w, schemas, n, a)
  }

  ghost predicate RefsOk(api: Api) {
    && (forall x :: x in api.exports ==> x in api.referenced && api.exports[x] == api.referenced[x])
    && (forall x, sn :: x in api.referenced && sn in api.referenced[x] ==> SchemaFor(sn, x))
  }

  /** The export is there with every schema it references. */
  ghost predicate Whole(api: Api, x: string) {
    x in api.exports && forall sn :: sn in api.exports[x] ==> sn in api.schemas
  }

  /** The export is gone, and before it every schema it referenced. */
  ghost predicate Gone(api: Api, x: string) {
    x !in api.exports && x in api.referenced && forall sn :: sn in api.referenced[x] ==> sn !in api.schemas
  }

  ghost predicate Standing(bps: Bps, api: Api) {
    forall n :: n in bps && bps[n].exported != "" ==>
      bps[n].exported in api.exports || (bps[n].deleting && Gone(api, bps[n].exported))
  }

  ghost predicate Condemned(bps: Bps, x: string) {
    x != "" && exists n :: n in bps && bps[n].deleting && bps[n].exported == x
  }

  ghost predicate Present(bps: Bps, api: Api) {
    forall x :: x in api.exports ==> Whole(api, x) || Condemned(bps, x)
  }

  predicate Upserted(pc: Pc) { pc.Setting? || pc.Taking? || pc.Cancelling? || pc.Ensuring? || pc.Committing? }

  ghost predicate StandsWhole(bps: Bps, api: Api, n: string) {
    n in bps && bps[n].exported != "" ==> Whole(api, bps[n].exported)
  }

  /** What remains to be erased. */
  ghost predicate ErasingOk(api: Api, x: string, todo: seq<string>) {
    && x in api.exports && (forall sn :: sn in todo ==> sn in api.exports[x])
    && (forall sn :: sn in api.exports[x] ==> sn in todo || sn !in api.schemas)
  }

  ghost predicate PcApi(w: World, bps: Bps, api: Api, pc: Pc) {
    && (pc.Building? ==> StandsWhole(bps, api, pc.name))
    && (OnJob(pc) ==> StandsWhole(bps, api, pc.job.name))
    && (pc.Upserting? ==> SchemaOf(w, pc.job) in api.schemas)
    && (Upserted(pc) ==> ExportOf(pc.job) in api.exports)
    && (pc.Fetching? || pc.Erasing? ==> pc.x != "")
    && (pc.Erasing? ==> ErasingOk(api, pc.x, pc.todo))
    && ((Purged(pc) || pc.Purging?) && pc.x != "" ==> Gone(api, pc.x))
  }

  ghost predicate ApiOk(w: World, s: State) {
    && SchemasOk(w, s.api.schemas) && RefsOk(s.api)
    && Standing(s.bps, s.api) && Present(s.bps, s.api)
    && PcApi(w, s.bps, s.api, s.pc)
  }

  // ---- Publishing ----

  lemma OwnSchema(w: World, s: State)
    requires WorldOk(w) && Core(w, s) && OnJob(s.pc)
    ensures SchemaFor(SchemaOf(w, s.pc.job), ExportOf(s.pc.job))
  {
    assert '.' !in w.hash(s.pc.job.spec);
  }

  lemma NewSchemaOk(w: World, s: State, n: string, a: Spec)
    requires WorldOk(w) && Core(w, s) && s.pc.Applying? && SchemaOk(w, s.api.schemas, n, a)
    ensures SchemaOk(w, s.api.schemas[SchemaOf(w, s.pc.job) := s.pc.job.served.graph], n, a)
  {
    var job := s.pc.job;
    if a in w.specs && w.build(n, a).Some?
      && SchemaName(w.hash(a), w.build(n, a).value.ApiExport()) == SchemaOf(w, job) {
      SchemaNameInjective(w.hash(a), w.build(n, a).value.ApiExport(), w.hash(job.spec), ExportOf(job));
      assert SameExport(w, n, a, job.name, job.spec);
    }
  }

  /** A schema that is already there is the one the pass would have created. */
  lemma ExistingSchemaIsRight(w: World, s: State)
    requires Core(w, s) && SchemasOk(w, s.api.schemas) && s.pc.Applying? && SchemaOf(w, s.pc.job) in s.api.schemas
    ensures s.api.schemas[SchemaOf(w, s.pc.job)] == s.pc.job.served.graph
  {
    assert SchemaOk(w, s.api.schemas, s.pc.job.name, s.pc.job.spec);
  }

  lemma ApplyKeepsApi(w: World, s: State, op: Op)
    requires WorldOk(w) && Core(w, s) && ApiOk(w, s) && s.pc.Applying?
    ensures ApiOk(w, DoPublish(w, s, op))
  {
    var s', job := DoPublish(w, s, op), s.pc.job;
    var x := ExportOf(job);
    forall n, a ensures SchemaOk(w, s'.api.schemas, n, a) {
      assert SchemaOk(w, s.api.schemas, n, a);
      NewSchemaOk(w, s, n, a);
    }
    OwnSchema(w, s);
    forall n | n in s.bps && s.bps[n].exported != "" && s.bps[n].exported !in s.api.exports
      ensures Gone(s'.api, s.bps[n].exported)
    {
      if SchemaOf(w, job) in s.api.referenced[s.bps[n].exported] {
        SchemasApart(SchemaOf(w, job), s.bps[n].exported, x);
        JobOwnsExport(w, s, n);
        assert false;
      }
    }
    forall y | y in s.api.exports
      ensures Whole(s'.api, y) || Condemned(s.bps, y)
    {
      assert Whole(s.api, y) || Condemned(s.bps, y);
    }
  }

  lemma UpsertKeepsApi(w: World, s: State, op: Op)
    requires WorldOk(w) && Core(w, s) && ApiOk(w, s) && s.pc.Upserting?
    ensures ApiOk(w, DoPublish(w, s, op))
  {
    var s' := DoPublish(w, s, op);
    OwnSchema(w, s);
    forall n | n in s.bps && s.bps[n].exported != "" && s.bps[n].exported !in s'.api.exports
      ensures Gone(s'.api, s.bps[n].exported)
    {
      assert Gone(s.api, s.bps[n].exported);
    }
    forall y | y in s'.api.exports ensures Whole(s'.api, y) || Condemned(s.bps, y) {
      if y != ExportOf(s.pc.job) { assert Whole(s.api, y) || Condemned(s.bps, y); }
    }
  }

  lemma CommitKeepsApi(w: World, s: State)
    requires Core(w, s) && ApiOk(w, s) && s.pc.Committing?
    ensures ApiOk(w, DoCommit(w, s))
  {
    var s', n := DoCommit(w, s), s.pc.job.name;
    forall y | y in s.api.exports ensures Whole(s.api, y) || Condemned(s'.bps, y) {
      assert Whole(s.api, y) || Condemned(s.bps, y);
      if !Whole(s.api, y) {
        var m :| m in s.bps && s.bps[m].deleting && s.bps[m].exported == y;
        assert m != n && s'.bps[m] == s.bps[m];
      }
    }
  }

  // ---- Withdrawal ----

  lemma FetchKeepsApi(w: World, s: State, op: Op)
    requires Core(w, s) && ApiOk(w, s) && s.pc.Fetching?
    ensures ApiOk(w, DoWithdraw(s, op))
  {
  }

  /** Erasing a schema of one export touches no other. */
  lemma EraseKeepsApi(w: World, s: State, op: Op)
    requires Core(w, s) && ApiOk(w, s) && s.pc.Erasing? && s.pc.todo != []
    ensures ApiOk(w, DoWithdraw(s, op))
  {
    var s', x, sn := DoWithdraw(s, op), s.pc.x, s.pc.todo[0];
    forall n, a ensures SchemaOk(w, s'.api.schemas, n, a) { assert SchemaOk(w, s.api.schemas, n, a); }
    assert SchemaFor(sn, x) && Condemned(s.bps, x) by { assert WithdrawOk(s.bps, s.pc.name, x); }
    forall y | y in s.api.exports ensures Whole(s'.api, y) || Condemned(s.bps, y) {
      assert Whole(s.api, y) || Condemned(s.bps, y);
      if sn in s.api.exports[y] { SchemasApart(sn, x, y); }
    }
    forall n | n in s.bps && s.bps[n].exported != "" && s.bps[n].exported !in s.api.exports
      ensures Gone(s'.api, s.bps[n].exported)
    {
      assert Gone(s.api, s.bps[n].exported);
    }
  }

  lemma UnexportKeepsApi(w: World, s: State, op: Op)
    requires WorldOk(w) && Core(w, s) && ApiOk(w, s) && s.pc.Erasing? && s.pc.todo == []
    ensures ApiOk(w, DoWithdraw(s, op))
  {
    var s', x := DoWithdraw(s, op), s.pc.x;
    assert Gone(s'.api, x);
    forall n | n in s.bps && s.bps[n].exported != "" && s.bps[n].exported !in s'.api.exports
      ensures s.bps[n].deleting && Gone(s'.api, s.bps[n].exported)
    {
      if s.bps[n].exported == x { NamesakeIsSame(w, s, n, s.pc.name); }
      else { assert Gone(s.api, s.bps[n].exported); }
    }
    forall y | y in s'.api.exports
      ensures Whole(s'.api, y) || Condemned(s.bps, y)
    {
      assert Whole(s.api, y) || Condemned(s.bps, y);
    }
  }

  lemma ReleaseKeepsApi(w: World, s: State)
    requires Core(w, s) && ApiOk(w, s) && s.pc.Releasing?
    ensures ApiOk(w, DoWithdraw(s, Go))
  {
    var s' := DoWithdraw(s, Go);
    forall y | y in s.api.exports ensures Whole(s.api, y) || Condemned(s'.bps, y) {
      assert Whole(s.api, y) || Condemned(s.bps, y);
      if !Whole(s.api, y) {
        var m :| m in s.bps && s.bps[m].deleting && s.bps[m].exported == y;
        assert m in s'.bps && s'.bps[m] == s.bps[m];
      }
    }
  }

  lemma WithdrawKeepsApi(w: World, s: State, op: Op)
    requires WorldOk(w) && Core(w, s) && ApiOk(w, s) && (s.pc.Fetching? || s.pc.Erasing? || s.pc.Releasing?)
    ensures ApiOk(w, DoWithdraw(s, op))
  {
    if s.pc.Fetching? { FetchKeepsApi(w, s, op); }
    else if s.pc.Releasing? { ReleaseKeepsApi(w, s); }
    else if s.pc.todo == [] { UnexportKeepsApi(w, s, op); }
    else { EraseKeepsApi(w, s, op); }
  }

  // ---- The other steps ----

  lemma GuardKeepsApi(w: World, s: State, op: Op)
    requires Core(w, s) && ApiOk(w, s) && s.pc.Guarding?
    ensures ApiOk(w, DoGuard(s, op))
  {
    var s' := DoGuard(s, op);
    if s.pc.name in s.bps { assert BpOk(w, s.marks.committed, s.pc.name, s.bps[s.pc.name]); }
    SameStatusKeepsApi(w, s, s');
  }

  /** Blueprints come, change or go without touching a published status. */
  lemma SameStatusKeepsApi(w: World, s: State, s': State)
    requires ApiOk(w, s) && s'.api == s.api && PcApi(w, s'.bps, s'.api, s'.pc)
    requires forall n :: n in s'.bps && s'.bps[n].exported != "" ==>
      n in s.bps && s.bps[n].exported == s'.bps[n].exported && (s.bps[n].deleting ==> s'.bps[n].deleting)
    requires forall n :: n in s.bps && s.bps[n].exported != "" && s.bps[n].deleting ==>
      n in s'.bps && s'.bps[n].exported == s.bps[n].exported
    ensures ApiOk(w, s')
  {
    forall y | y in s.api.exports ensures Whole(s.api, y) || Condemned(s'.bps, y) {
      assert Whole(s.api, y) || Condemned(s.bps, y);
      if !Whole(s.api, y) {
        var m :| m in s.bps && s.bps[m].deleting && s.bps[m].exported == y;
        assert m in s'.bps && s'.bps[m].deleting;
      }
    }
  }

  lemma BuildKeepsApi(w: World, s: State)
    requires ApiOk(w, s) && s.pc.Building?
    ensures ApiOk(w, DoBuild(w, s, s.pc.name, s.pc.spec, s.pc.changed))
  {
  }

  lemma CallKeepsApi(w: World, s: State, op: Op)
    requires WorldOk(w) && Core(w, s) && ApiOk(w, s) && IsCall(s.pc)
    ensures ApiOk(w, DoCall(w, s, op))
  {
    if op.Fails? { SameStatusKeepsApi(w, s, s.(pc := Idle)); }
    else if s.pc.Guarding? { GuardKeepsApi(w, s, op); }
    else if s.pc.Building? { BuildKeepsApi(w, s); }
    else if s.pc.Applying? { ApplyKeepsApi(w, s, op); }
    else if s.pc.Upserting? { UpsertKeepsApi(w, s, op); }
    else if s.pc.Committing? { CommitKeepsApi(w, s); }
    else { WithdrawKeepsApi(w, s, op); }
  }

  lemma LocalKeepsApi(w: World, s: State)
    requires ApiOk(w, s) && !IsCall(s.pc)
    ensures ApiOk(w, DoLocal(w, s))
  {
  }

  lemma LiveStandsWhole(w: World, s: State, n: string)
    requires WorldOk(w) && Core(w, s) && ApiOk(w, s) && n in s.bps && !s.bps[n].deleting
    ensures StandsWhole(s.bps, s.api, n)
  {
    var x := s.bps[n].exported;
    if x != "" && Condemned(s.bps, x) {
      var m :| m in s.bps && s.bps[m].deleting && s.bps[m].exported == x;
      NamesakeIsSame(w, s, n, m);
      assert false;
    }
  }

  lemma BeginKeepsApi(w: World, s: State, n: string)
    requires WorldOk(w) && Core(w, s) && ApiOk(w, s)
    ensures ApiOk(w, BeginPass(w, s, n))
  {
    if n in s.bps && !s.bps[n].deleting { LiveStandsWhole(w, s, n); }
    SameStatusKeepsApi(w, s, BeginPass(w, s, n));
  }

  lemma CreateKeepsApi(w: World, s: State, n: string, a: Spec)
    requires Core(w, s) && ApiOk(w, s)
    ensures ApiOk(w, DoEdit(w, s, Create(n, a)))
  {
    SameStatusKeepsApi(w, s, DoEdit(w, s, Create(n, a)));
  }

  lemma EditKeepsApi(w: World, s: State, n: string, a: Spec)
    requires Core(w, s) && ApiOk(w, s)
    ensures ApiOk(w, DoEdit(w, s, Edit(n, a)))
  {
    SameStatusKeepsApi(w, s, DoEdit(w, s, Edit(n, a)));
  }

  lemma DeleteKeepsApi(w: World, s: State, n: string)
    requires Core(w, s) && ApiOk(w, s)
    ensures ApiOk(w, DoEdit(w, s, Delete(n)))
  {
    if n in s.bps { assert BpOk(w, s.marks.committed, n, s.bps[n]); }
    SameStatusKeepsApi(w, s, DoEdit(w, s, Delete(n)));
  }

  lemma ApiKeeps(w: World, s: State, step: Step)
    requires WorldOk(w) && Core(w, s) && ApiOk(w, s)
    ensures ApiOk(w, Do(w, s, step))
  {
    match step
    case Work(op) => if IsCall(s.pc) { CallKeepsApi(w, s, op); } else { LocalKeepsApi(w, s); }
    case Begin(n) => BeginKeepsApi(w, s, n);
    case Create(n, a) => CreateKeepsApi(w, s, n, a);
    case Edit(n, a) => EditKeepsApi(w, s, n, a);
    case Delete(n) => DeleteKeepsApi(w, s, n);
    case _ => assert Do(w, s, step).api == s.api && Do(w, s, step).bps == s.bps;
  }
}
