/** The list of child kinds inside a liveness record: written by `childGVKString`
    (internal/controller/reconciler.go) and read back by the sweeper
    (internal/controller/sweeper.go). */
module GvkCodec {
  import opened Text

  datatype GVK = GVK(group: string, version: string, kind: string)

  const CONFIG_MAP := GVK("", "v1", "ConfigMap")

  function Token(g: GVK): string {
    g.group + ['/'] + (g.version + ['/'] + g.kind)
  }

  function Tokens(gs: seq<GVK>): (ts: seq<string>)
    ensures |ts| == |gs| && forall i :: 0 <= i < |gs| ==> ts[i] == Token(gs[i])
  {
    seq(|gs|, i requires 0 <= i < |gs| => Token(gs[i]))
  }

  function GvkString(gs: seq<GVK>): string { Join(Tokens(gs), ',') }

  datatype Parsed = Malformed | Kind(gvk: GVK)

  function ParseToken(token: string): Parsed {
    var parts := SplitN(token, '/', 3);
    if |parts| != 3 || parts[1] == "" || parts[2] == "" then Malformed
    else Kind(GVK(parts[0], parts[1], parts[2]))
  }

  /** The kinds the sweeper visits for a list of raw tokens: trimmed, the empty and
      the malformed ones skipped. */
  function Visit(tokens: seq<string>): seq<GVK> {
    if tokens == [] then [] else VisitOne(tokens[0]) + Visit(tokens[1..])
  }

  function VisitOne(token: string): seq<GVK> {
    var t := TrimSpace(token);
    if t == "" || ParseToken(t).Malformed? then [] else [ParseToken(t).gvk]
  }

  function Visited(raw: string): seq<GVK> { Visit(Split(raw, ',')) }

  predicate CleanPart(s: string) {
    forall i :: 0 <= i < |s| ==> s[i] != '/' && s[i] != ',' && !IsSpace(s[i])
  }

  predicate Clean(g: GVK) {
    CleanPart(g.group) && CleanPart(g.version) && CleanPart(g.kind) && g.version != "" && g.kind != ""
  }

  lemma {:induction false} SplitNFirst(a: string, b: string, n: nat)
    requires '/' !in a && n > 1
    ensures SplitN(a + ['/'] + b, '/', n) == [a] + SplitN(b, '/', n - 1)
  {
    var s := a + ['/'] + b;
    if a == [] {
      assert s[1..] == b;
    } else {
      assert s[1..] == a[1..] + ['/'] + b;
      SplitNFirst(a[1..], b, n);
      assert a == [a[0]] + a[1..];
    }
  }

  lemma {:induction false} SplitNPieces(s: string, n: nat)
    requires n > 0
    ensures Join(SplitN(s, '/', n), '/') == s
    ensures forall i :: 0 <= i < |SplitN(s, '/', n)| - 1 ==> '/' !in SplitN(s, '/', n)[i]
    decreases s
  {
    if s == [] || n == 1 {
    } else if s[0] == '/' {
      SplitNPieces(s[1..], n - 1);
      var rest := SplitN(s[1..], '/', n - 1);
      assert ([""] + rest)[1..] == rest;
      assert s == ['/'] + s[1..];
    } else {
      SplitNPieces(s[1..], n);
      var rest := SplitN(s[1..], '/', n);
      var parts := [[s[0]] + rest[0]] + rest[1..];
      assert parts[1..] == rest[1..];
      assert s == [s[0]] + s[1..];
    }
  }

  /** Parsing inverts printing, exactly: a token parses to `g` if and only if it is
      the token of `g` and `g` is printable unambiguously. */
  lemma ParseTokenExact(token: string, g: GVK)
    ensures ParseToken(token) == Kind(g) <==>
            token == Token(g) && '/' !in g.group && '/' !in g.version && g.version != "" && g.kind != ""
  {
    var parts := SplitN(token, '/', 3);
    if token == Token(g) && '/' !in g.group && '/' !in g.version {
      SplitNFirst(g.group, g.version + ['/'] + g.kind, 3);
      SplitNFirst(g.version, g.kind, 2);
      assert parts == [g.group, g.version, g.kind];
    }
    if |parts| == 3 {
      SplitNPieces(token, 3);
      assert parts == [parts[0], parts[1], parts[2]];
      assert Join(parts, '/') == parts[0] + ['/'] + Join(parts[1..], '/');
      assert Join(parts[1..], '/') == parts[1] + ['/'] + Join(parts[1..][1..], '/');
      assert Join(parts[1..][1..], '/') == parts[2];
    }
  }

  lemma CleanToken(g: GVK)
    requires Clean(g)
    ensures ',' !in Token(g) && VisitOne(Token(g)) == [g]
  {
    ParseTokenExact(Token(g), g);
  }

  /** Space around a token is no part of it. */
  lemma PaddingIsSkipped(token: string, c: char)
    requires IsSpace(c)
    ensures VisitOne([c] + token) == VisitOne(token) && VisitOne(token + [c]) == VisitOne(token)
  {
    TrimIgnoresPadding(token, c);
  }

  lemma {:induction false} VisitTokens(gs: seq<GVK>)
    requires forall g :: g in gs ==> Clean(g)
    ensures Visit(Tokens(gs)) == gs
  {
    if gs != [] {
      CleanToken(gs[0]);
      VisitTokens(gs[1..]);
      assert Tokens(gs)[0] == Token(gs[0]) && Tokens(gs)[1..] == Tokens(gs[1..]);
      assert gs == [gs[0]] + gs[1..];
    }
  }

  /** What the sweeper visits for a recorded list is exactly the list that was
      recorded: same kinds, same order, none skipped, the empty list included. */
  lemma GvkStringRoundTrip(gs: seq<GVK>)
    requires forall g :: g in gs ==> Clean(g)
    ensures Visited(GvkString(gs)) == gs
  {
    if gs == [] {
      assert Split("", ',') == [""];
    } else {
      forall p | p in Tokens(gs) ensures ',' !in p {
        var i :| 0 <= i < |gs| && p == Tokens(gs)[i];
        CleanToken(gs[i]);
      }
      SplitJoin(Tokens(gs), ',');
      VisitTokens(gs);
    }
  }
}
