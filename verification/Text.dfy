/** String facilities the Go sources take from the standard library: the byte-wise
    order behind `<` and `cmp.Compare`, `strings.Split`, `strings.Join`,
    `strings.TrimRight` and `strings.TrimSpace`. */
module Text {

  /** Go's order on strings. Comparing UTF-8 bytes and comparing code points agree. */
  predicate Less(a: string, b: string) {
    if b == [] then false
    else if a == [] then true
    else a[0] < b[0] || (a[0] == b[0] && Less(a[1..], b[1..]))
  }

  lemma {:induction false} LessIrreflexive(a: string)
    ensures !Less(a, a)
  {
    if a != [] { LessIrreflexive(a[1..]); }
  }

  lemma {:induction false} LessTransitive(a: string, b: string, c: string)
    requires Less(a, b) && Less(b, c)
    ensures Less(a, c)
  {
    if a != [] && a[0] == b[0] == c[0] { LessTransitive(a[1..], b[1..], c[1..]); }
  }

  lemma {:induction false} LessTotal(a: string, b: string)
    ensures Less(a, b) || a == b || Less(b, a)
  {
    if a != [] && b != [] && a[0] == b[0] {
      LessTotal(a[1..], b[1..]);
      assert a == [a[0]] + a[1..] && b == [b[0]] + b[1..];
    }
  }

  /** The first difference decides; a proper prefix comes first. */
  lemma {:induction false} LessExactly(a: string, b: string)
    ensures Less(a, b) <==>
      exists n :: 0 <= n <= |a| && n < |b| && a[..n] == b[..n] && (n == |a| || a[n] < b[n])
  {
    if a == [] {
      assert b != [] ==> a[..0] == b[..0];
    } else if b != [] && a[0] == b[0] {
      LessExactly(a[1..], b[1..]);
      if Less(a, b) {
        var c, d := a[1..], b[1..];
        var n :| 0 <= n <= |c| && n < |d| && c[..n] == d[..n] && (n == |c| || c[n] < d[n]);
        assert a[..n + 1] == [a[0]] + c[..n] && b[..n + 1] == [b[0]] + d[..n];
      }
      forall n | 0 <= n <= |a| && n < |b| && a[..n] == b[..n] && (n == |a| || a[n] < b[n]) ensures Less(a, b) {
        assert n > 0;
        assert a[1..][..n - 1] == a[..n][1..] && b[1..][..n - 1] == b[..n][1..];
      }
    } else if b != [] {
      assert a[0] < b[0] ==> a[..0] == b[..0];
      forall n | 0 <= n <= |a| && n < |b| && a[..n] == b[..n] && (n == |a| || a[n] < b[n]) ensures Less(a, b) {}
    }
  }

  /** `strings.Split(s, sep)` for a one-character separator: never empty. */
  function Split(s: string, sep: char): (parts: seq<string>)
    ensures |parts| > 0
  {
    if s == [] then [""]
    else
      var rest := Split(s[1..], sep);
      if s[0] == sep then [""] + rest
      else [[s[0]] + rest[0]] + rest[1..]
  }

  /** `strings.SplitN(s, sep, n)`: at most `n` parts, the last one unsplit. */
  function SplitN(s: string, sep: char, n: nat): (parts: seq<string>)
    requires n > 0
    ensures 0 < |parts| <= n
  {
    if s == [] || n == 1 then [s]
    else if s[0] == sep then [""] + SplitN(s[1..], sep, n - 1)
    else
      var rest := SplitN(s[1..], sep, n);
      [[s[0]] + rest[0]] + rest[1..]
  }

  /** `strings.Join(parts, sep)` for a one-character separator. */
  function Join(parts: seq<string>, sep: char): string {
    if |parts| == 0 then ""
    else if |parts| == 1 then parts[0]
    else parts[0] + [sep] + Join(parts[1..], sep)
  }

  lemma {:induction false} SplitFree(s: string, sep: char)
    requires sep !in s
    ensures Split(s, sep) == [s]
  {
    if s != [] {
      SplitFree(s[1..], sep);
      assert s == [s[0]] + s[1..];
    }
  }

  lemma {:induction false} SplitAtSeparator(a: string, sep: char, b: string)
    requires sep !in a
    ensures Split(a + [sep] + b, sep) == [a] + Split(b, sep)
  {
    var s := a + [sep] + b;
    if a == [] {
      assert s[1..] == b;
    } else {
      assert s[1..] == a[1..] + [sep] + b;
      SplitAtSeparator(a[1..], sep, b);
      assert a == [a[0]] + a[1..];
    }
  }

  /** Splitting undoes joining when no part holds the separator. */
  lemma {:induction false} SplitJoin(parts: seq<string>, sep: char)
    requires |parts| > 0
    requires forall p :: p in parts ==> sep !in p
    ensures Split(Join(parts, sep), sep) == parts
  {
    if |parts| == 1 {
      SplitFree(parts[0], sep);
    } else {
      SplitJoin(parts[1..], sep);
      SplitAtSeparator(parts[0], sep, Join(parts[1..], sep));
    }
  }

  /** `strings.TrimRight` with a cutset. */
  function TrimRight(s: string, cutset: set<char>): (t: string)
    ensures t <= s
    ensures t == [] || t[|t| - 1] !in cutset
    ensures forall i :: |t| <= i < |s| ==> s[i] in cutset
  {
    if s != [] && s[|s| - 1] in cutset then TrimRight(s[..|s| - 1], cutset) else s
  }

  /** The White_Space characters `strings.TrimSpace` removes. */
  predicate IsSpace(c: char) {
    var n := c as int;
    9 <= n <= 13 || n == 0x20 || n == 0x85 || n == 0xA0 || n == 0x1680
    || 0x2000 <= n <= 0x200A || n == 0x2028 || n == 0x2029 || n == 0x202F
    || n == 0x205F || n == 0x3000
  }

  function TrimSpace(s: string): (t: string)
    ensures t == [] || (!IsSpace(t[0]) && !IsSpace(t[|t| - 1]))
    ensures (forall i :: 0 <= i < |s| ==> !IsSpace(s[i])) ==> t == s
    decreases |s|
  {
    if s != [] && IsSpace(s[0]) then TrimSpace(s[1..])
    else if s != [] && IsSpace(s[|s| - 1]) then TrimSpace(s[..|s| - 1])
    else s
  }

  /** Space at the ends does not matter. */
  lemma {:induction false} TrimIgnoresPadding(s: string, c: char)
    requires IsSpace(c)
    ensures TrimSpace([c] + s) == TrimSpace(s) && TrimSpace(s + [c]) == TrimSpace(s)
    decreases |s|
  {
    assert ([c] + s)[1..] == s && (s + [c])[..|s|] == s;
    if s == [] {
      assert s + [c] == [c] + s;
    } else if IsSpace(s[0]) {
      assert (s + [c])[1..] == s[1..] + [c];
      TrimIgnoresPadding(s[1..], c);
    }
  }

  /** Two strings cut at the first separator are equal only piecewise. */
  lemma {:induction false} CutUnique(a: string, b: string, a': string, b': string, sep: char)
    requires sep !in a && sep !in a'
    requires a + [sep] + b == a' + [sep] + b'
    ensures a == a' && b == b'
  {
    var s := a + [sep] + b;
    assert s == a' + [sep] + b';
    assert s[|a|] == sep && s[|a'|] == sep;
    assert forall i :: 0 <= i < |a| ==> s[i] == a[i];
    assert forall i :: 0 <= i < |a'| ==> s[i] == a'[i];
    assert |a| == |a'|;
    assert a == s[..|a|] && a' == s[..|a|];
    assert b == s[|a| + 1..] && b' == s[|a| + 1..];
  }

  lemma ConcatAssociates<T>(a: seq<T>, b: seq<T>, c: seq<T>)
    ensures (a + b) + c == a + (b + c)
  {
  }

  lemma DropFirst<T>(a: seq<T>, b: seq<T>)
    requires a != []
    ensures (a + b)[0] == a[0] && (a + b)[1..] == a[1..] + b
  {
  }
}
