/** driftHash: the byte stream it feeds to SHA-256, and what that stream determines. */
module Fingerprint {
  import opened Drift
  import opened Ordering

  /** Any function from byte streams to 64 hex digits: SHA-256 (FIPS 180-4) stays uninterpreted. */
  type Sha = f: string -> string | forall s :: |f(s)| == 64 witness _ => seq(64, _ => '0')

  const NUL := '\0'
  const BAR := '|'

  function KeyOf(d: DriftedResource): string {
    d.apiVersion + [BAR] + d.kind + [BAR] + d.namespace + [BAR] + d.name + [BAR] + d.status.Text()
  }

  function KeysOf(ds: seq<DriftedResource>): seq<string> {
    seq(|ds|, i requires 0 <= i < |ds| => KeyOf(ds[i]))
  }

  /** Every key followed by one NUL. */
  function Stream(keys: seq<string>): string {
    if keys == [] then "" else Stream(keys[..|keys| - 1]) + keys[|keys| - 1] + [NUL]
  }

  /** The bytes hashed for a drift list. */
  function Preimage(ds: seq<DriftedResource>): string {
    Stream(Sort(KeysOf(ds)))
  }

  /** The format of a key. */
  predicate Formats(key: string, d: DriftedResource) {
    && (d.status == Changed ==>
          key == d.apiVersion + "|" + d.kind + "|" + d.namespace + "|" + d.name + "|changed")
    && (d.status == New ==>
          key == d.apiVersion + "|" + d.kind + "|" + d.namespace + "|" + d.name + "|new")
    && (d.status == Deleted ==>
          key == d.apiVersion + "|" + d.kind + "|" + d.namespace + "|" + d.name + "|deleted")
  }

  /** The hash is taken of the formatted keys in ascending order, each followed by a zero byte. */
  lemma HashOfFormatted(sha: Sha, ds: seq<DriftedResource>) returns (keys: seq<string>, sorted: seq<string>)
    ensures |keys| == |ds| && forall i | 0 <= i < |ds| :: Formats(keys[i], ds[i])
    ensures multiset(sorted) == multiset(keys) && Ascending(sorted)
    ensures DriftHash(sha, ds) == sha(Terminated(sorted))
  {
    keys, sorted := KeysOf(ds), Sort(KeysOf(ds));
    SortAscending(KeysOf(ds));
    forall i | 0 <= i < |ds| ensures Formats(keys[i], ds[i]) {
      KeyFormat(ds[i]);
    }
    hide Sort, KeyOf;
    StreamTerminates(sorted);
  }

  lemma KeyFormat(d: DriftedResource)
    ensures Formats(KeyOf(d), d)
  {
    var head := d.apiVersion + "|" + d.kind + "|" + d.namespace + "|" + d.name;
    assert KeyOf(d) == head + "|" + d.status.Text();
    assert "|" + "changed" == "|changed" && "|" + "new" == "|new" && "|" + "deleted" == "|deleted";
    assert KeyOf(d) == head + ("|" + d.status.Text());
  }

  /** The keys one after the other, from the front, each with a zero byte behind it. */
  function Terminated(keys: seq<string>): string {
    if keys == [] then "" else keys[0] + "\0" + Terminated(keys[1..])
  }

  lemma {:induction false} StreamTerminates(keys: seq<string>)
    ensures Stream(keys) == Terminated(keys)
  {
    if keys != [] {
      var n := |keys| - 1;
      StreamTerminates(keys[..n]);
      TerminatedSnoc(keys[..n], keys[n]);
      assert keys[..n] + [keys[n]] == keys;
    }
  }

  lemma {:induction false} TerminatedSnoc(keys: seq<string>, k: string)
    ensures Terminated(keys + [k]) == Terminated(keys) + k + "\0"
  {
    if keys == [] {
      assert ([] + [k])[1..] == [];
      assert Terminated([k]) == k + "\0" + "";
    } else {
      assert (keys + [k])[1..] == keys[1..] + [k];
      TerminatedSnoc(keys[1..], k);
    }
  }

  lemma PreimageOf(ds: seq<DriftedResource>)
    ensures Preimage(ds) == Stream(Sort(KeysOf(ds)))
  {
    hide Stream, Sort;
  }

  function DriftHash(sha: Sha, ds: seq<DriftedResource>): string {
    sha(Preimage(ds))
  }

  /** The controller's code: format into a slice, sort it in place, stream it into the hash. */
  method ComputeDriftHash(sha: Sha, drifted: seq<DriftedResource>) returns (hash: string)
    ensures hash == DriftHash(sha, drifted)
  {
    PreimageOf(drifted);
    hide Sort, Preimage, KeysOf, Stream;
    var keys := FormatKeys(drifted);
    SortStrings(keys);
    var h := WriteStream(keys);
    hash := sha(h);
  }

  method FormatKeys(drifted: seq<DriftedResource>) returns (keys: array<string>)
    ensures fresh(keys) && keys[..] == KeysOf(drifted)
  {
    keys := new string[|drifted|];
    for i := 0 to |drifted|
      invariant forall j | 0 <= j < i :: keys[j] == KeyOf(drifted[j])
    {
      var d := drifted[i];
      keys[i] := d.apiVersion + "|" + d.kind + "|" + d.namespace + "|" + d.name + "|" + d.status.Text();
    }
  }

  /** What the hash is fed: each key, then a NUL. */
  method WriteStream(keys: array<string>) returns (h: string)
    ensures h == Stream(keys[..])
  {
    h := "";
    for i := 0 to keys.Length
      invariant h == Stream(keys[..i])
    {
      assert keys[..i + 1][..i] == keys[..i];
      h := h + keys[i];
      h := h + [NUL];
    }
    assert keys[..keys.Length] == keys[..];
  }

  /** No field contains NUL, only the name may contain the field separator, and the status is one
      that summarize puts on a drift list. */
  predicate Clean(d: DriftedResource) {
    && NUL !in d.apiVersion && NUL !in d.kind && NUL !in d.namespace && NUL !in d.name
    && BAR !in d.apiVersion && BAR !in d.kind && BAR !in d.namespace
    && d.status.IsDrift()
  }

  predicate AllClean(ds: seq<DriftedResource>) {
    forall d | d in ds :: Clean(d)
  }

  /** A string is cut uniquely at its first separator. */
  lemma CutFirst(c: char, x: string, y: string, u: string, v: string)
    requires c !in x && c !in u
    requires x + [c] + y == u + [c] + v
    ensures x == u && y == v
  {
    var s := x + [c] + y;
    assert s[|x|] == c && forall i | 0 <= i < |x| :: s[i] == x[i] != c;
    assert s[|u|] == c && forall i | 0 <= i < |u| :: s[i] == u[i] != c;
    assert x == s[..|x|] && u == s[..|u|];
    assert y == s[|x| + 1..] && v == s[|u| + 1..];
  }

  /** And at its last one. */
  lemma CutLast(c: char, x: string, y: string, u: string, v: string)
    requires c !in y && c !in v
    requires x + [c] + y == u + [c] + v
    ensures x == u && y == v
  {
    var s := x + [c] + y;
    assert s[|x|] == c && forall i | |x| < i < |s| :: s[i] == y[i - |x| - 1] != c;
    assert s[|u|] == c && forall i | |u| < i < |s| :: s[i] == v[i - |u| - 1] != c;
    assert x == s[..|x|] && u == s[..|u|];
    assert y == s[|x| + 1..] && v == s[|u| + 1..];
  }

  /** One field in front of the rest of a key. */
  function Field(f: string, rest: string): string {
    f + [BAR] + rest
  }

  lemma KeyShape(d: DriftedResource)
    ensures KeyOf(d) == Field(d.apiVersion, Field(d.kind, Field(d.namespace, Field(d.name, d.status.Text()))))
  {
    var st := d.status.Text();
    Reassociate(d.namespace, d.name, st);
    Reassociate(d.kind, d.namespace, Field(d.name, st));
    Reassociate(d.apiVersion, d.kind, Field(d.namespace, Field(d.name, st)));
    assert KeyOf(d) == d.apiVersion + [BAR] + d.kind + [BAR] + d.namespace + [BAR] + Field(d.name, st);
  }

  lemma Reassociate(a: string, b: string, c: string)
    ensures a + [BAR] + b + [BAR] + c == Field(a, Field(b, c))
  {
  }

  lemma KeyInjective(d: DriftedResource, e: DriftedResource)
    requires Clean(d) && Clean(e)
    requires KeyOf(d) == KeyOf(e)
    ensures d == e
  {
    KeyShape(d);
    KeyShape(e);
    var dn, en := Field(d.name, d.status.Text()), Field(e.name, e.status.Text());
    CutFirst(BAR, d.apiVersion, Field(d.kind, Field(d.namespace, dn)), e.apiVersion, Field(e.kind, Field(e.namespace, en)));
    CutFirst(BAR, d.kind, Field(d.namespace, dn), e.kind, Field(e.namespace, en));
    CutFirst(BAR, d.namespace, dn, e.namespace, en);
    TextWithout(BAR, d.status);
    TextWithout(BAR, e.status);
    CutLast(BAR, d.name, d.status.Text(), e.name, e.status.Text());
    TextInjective(d.status, e.status);
  }

  lemma TextWithout(c: char, s: Status)
    requires s.IsDrift() && (c == BAR || c == NUL)
    ensures c !in s.Text()
  {
  }

  lemma KeyWithoutNul(d: DriftedResource)
    requires Clean(d)
    ensures NUL !in KeyOf(d)
  {
  }

  /** A NUL-terminated stream decodes uniquely. */
  lemma {:induction false} StreamInjective(a: seq<string>, b: seq<string>)
    requires forall k | k in a + b :: NUL !in k
    requires Stream(a) == Stream(b)
    ensures a == b
  {
    if a != [] && b != [] {
      var a', b' := a[..|a| - 1], b[..|b| - 1];
      var x, y := a[|a| - 1], b[|b| - 1];
      assert a == a' + [x] && b == b' + [y];
      assert x in a + b && y in a + b;
      assert Stream(a') + x == Stream(a)[..|Stream(a)| - 1];
      assert Stream(b') + y == Stream(b)[..|Stream(b)| - 1];
      SplitLastKey(a', x, b', y);
      StreamInjective(a', b');
    }
  }

  lemma StreamEnds(a: seq<string>)
    ensures Stream(a) == "" || Stream(a)[|Stream(a)| - 1] == NUL
  {
  }

  lemma SplitLastKey(a: seq<string>, x: string, b: seq<string>, y: string)
    requires NUL !in x && NUL !in y
    requires Stream(a) + x == Stream(b) + y
    ensures x == y && Stream(a) == Stream(b)
  {
    hide Stream;
    StreamEnds(a);
    StreamEnds(b);
    CutTail(Stream(a), x, Stream(b), y);
  }

  /** Two strings are cut alike where the last NUL ends. */
  lemma CutTail(p: string, x: string, q: string, y: string)
    requires p + x == q + y && NUL !in x && NUL !in y
    requires p == "" || p[|p| - 1] == NUL
    requires q == "" || q[|q| - 1] == NUL
    ensures p == q && x == y
  {
    NotShorter(p, x, q, y);
    NotShorter(q, y, p, x);
    var s := p + x;
    assert p == s[..|p|] && q == s[..|q|] && x == s[|p|..] && y == s[|q|..];
  }

  lemma NotShorter(p: string, x: string, q: string, y: string)
    requires p + x == q + y && NUL !in x
    requires q == "" || q[|q| - 1] == NUL
    ensures |q| <= |p|
  {
    var s := p + x;
    assert forall i | |p| <= i < |s| :: s[i] == x[i - |p|] != NUL;
    assert q != "" ==> s[|q| - 1] == NUL;
  }

  function Remove<T>(s: seq<T>, j: nat): (r: seq<T>)
    requires j < |s|
    ensures multiset(r) == multiset(s) - multiset{s[j]}
    ensures |r| == |s| - 1 && forall x | x in r :: x in s
  {
    assert s == s[..j] + [s[j]] + s[j + 1..];
    s[..j] + s[j + 1..]
  }

  lemma RemoveKey(ds: seq<DriftedResource>, j: nat)
    requires j < |ds|
    ensures KeysOf(Remove(ds, j)) == Remove(KeysOf(ds), j)
  {
  }

  /** Permuting the resources permutes the keys. */
  lemma {:induction false} KeysOfPermutation(a: seq<DriftedResource>, b: seq<DriftedResource>)
    requires multiset(a) == multiset(b)
    ensures multiset(KeysOf(a)) == multiset(KeysOf(b))
  {
    SameMembers(a, b);
    if a != [] {
      assert a[0] in b;
      var j :| 0 <= j < |b| && b[j] == a[0];
      KeysOfPermutation(Remove(a, 0), Remove(b, j));
      RemoveKey(a, 0);
      RemoveKey(b, j);
      PutBack(KeysOf(a), 0, KeysOf(b), j);
    }
  }

  lemma PutBack<T>(a: seq<T>, i: nat, b: seq<T>, j: nat)
    requires i < |a| && j < |b| && a[i] == b[j]
    ensures multiset(Remove(a, i)) == multiset(Remove(b, j)) <==> multiset(a) == multiset(b)
  {
    assert multiset(a) == multiset(Remove(a, i)) + multiset{a[i]};
    assert multiset(b) == multiset(Remove(b, j)) + multiset{b[j]};
  }

  /** For clean resources the keys determine the resources. */
  lemma {:induction false} KeysDetermine(a: seq<DriftedResource>, b: seq<DriftedResource>)
    requires AllClean(a) && AllClean(b)
    requires multiset(KeysOf(a)) == multiset(KeysOf(b))
    ensures multiset(a) == multiset(b)
  {
    SameMembers(KeysOf(a), KeysOf(b));
    if a != [] {
      assert KeysOf(a)[0] in KeysOf(b);
      var j :| 0 <= j < |b| && KeysOf(b)[j] == KeysOf(a)[0];
      KeyInjective(a[0], b[j]);
      RemoveKey(a, 0);
      RemoveKey(b, j);
      PutBack(KeysOf(a), 0, KeysOf(b), j);
      KeysDetermine(Remove(a, 0), Remove(b, j));
      PutBack(a, 0, b, j);
    }
  }

  /** No key contains the terminator. */
  predicate NulFree(ds: seq<DriftedResource>) {
    forall k | k in KeysOf(ds) :: NUL !in k
  }

  /** Without NUL in the keys, two drift lists hash the same bytes exactly when they have the same keys,
      with multiplicity. */
  lemma PreimageExactly(a: seq<DriftedResource>, b: seq<DriftedResource>)
    requires NulFree(a) && NulFree(b)
    ensures Preimage(a) == Preimage(b) <==> multiset(KeysOf(a)) == multiset(KeysOf(b))
  {
    var ka, kb := Sort(KeysOf(a)), Sort(KeysOf(b));
    SortCanonical(KeysOf(a), KeysOf(b));
    SameMembers(ka, KeysOf(a));
    SameMembers(kb, KeysOf(b));
    hide Sort, Stream, KeysOf;
    if Preimage(a) == Preimage(b) {
      assert forall k | k in ka + kb :: NUL !in k;
      StreamInjective(ka, kb);
    }
  }

  lemma CleanIsNulFree(ds: seq<DriftedResource>)
    requires AllClean(ds)
    ensures NulFree(ds)
  {
    hide Clean, KeyOf;
    forall k | k in KeysOf(ds) ensures NUL !in k {
      var i :| 0 <= i < |ds| && KeysOf(ds)[i] == k;
      assert ds[i] in ds;
      KeyWithoutNul(ds[i]);
    }
  }

  /** The hashed bytes are a canonical form of the drift list taken as a multiset. */
  lemma PreimageCanonical(a: seq<DriftedResource>, b: seq<DriftedResource>)
    requires AllClean(a) && AllClean(b)
    ensures Preimage(a) == Preimage(b) <==> multiset(a) == multiset(b)
  {
    hide Preimage, KeysOf, AllClean;
    CleanIsNulFree(a);
    CleanIsNulFree(b);
    PreimageExactly(a, b);
    if multiset(a) == multiset(b) {
      KeysOfPermutation(a, b);
    }
    if multiset(KeysOf(a)) == multiset(KeysOf(b)) {
      KeysDetermine(a, b);
    }
  }

  /** Engine order never matters, clean or not. */
  lemma OrderIrrelevant(a: seq<DriftedResource>, b: seq<DriftedResource>)
    requires multiset(a) == multiset(b)
    ensures Preimage(a) == Preimage(b)
    ensures forall sha: Sha :: DriftHash(sha, a) == DriftHash(sha, b)
  {
    KeysOfPermutation(a, b);
    SortCanonical(KeysOf(a), KeysOf(b));
  }

  /** The cleanness premise is needed: a separator inside a kind makes two drift sets collide
      for every digest, although the second of them is clean. */
  lemma SeparatorCollides(sha: Sha)
    ensures var a := DriftedResource("v1", "A|B", "n", "", Changed);
            var b := DriftedResource("v1", "A", "|n", "B", Changed);
            a != b && Clean(b) && DriftHash(sha, [a]) == DriftHash(sha, [b])
  {
    var a := DriftedResource("v1", "A|B", "n", "", Changed);
    var b := DriftedResource("v1", "A", "|n", "B", Changed);
    assert KeyOf(a) == "v1|A|B||n|changed" == KeyOf(b);
    assert KeysOf([a]) == [KeyOf(a)] == KeysOf([b]);
  }

  /** The resource whose name spells out the end of one key, the terminator and the start of another. */
  function Fused(x: DriftedResource, y: DriftedResource): DriftedResource {
    DriftedResource(x.apiVersion, x.kind,
                    x.name + "|" + x.status.Text() + [NUL] + y.apiVersion + "|" + y.kind + "|" + y.namespace + "|" + y.name,
                    x.namespace, y.status)
  }

  lemma FusedKey(x: DriftedResource, y: DriftedResource)
    ensures KeyOf(Fused(x, y)) == KeyOf(x) + [NUL] + KeyOf(y)
  {
    var head := x.apiVersion + "|" + x.kind + "|" + x.namespace + "|";
    var tail := "|" + y.status.Text();
    assert KeyOf(x) == head + (x.name + "|" + x.status.Text());
    assert KeyOf(Fused(x, y)) == head + Fused(x, y).name + tail;
    assert KeyOf(y) == (y.apiVersion + "|" + y.kind + "|" + y.namespace + "|" + y.name) + tail;
  }

  /** And so is the absence of NUL: any two resources, in key order, hash like a single one. */
  lemma TerminatorCollides(sha: Sha, x: DriftedResource, y: DriftedResource)
    requires Leq(KeyOf(x), KeyOf(y))
    ensures DriftHash(sha, [x, y]) == DriftHash(sha, [Fused(x, y)])
  {
    var kx, ky, kb := KeyOf(x), KeyOf(y), KeyOf(Fused(x, y));
    assert KeysOf([x, y]) == [kx, ky] && KeysOf([Fused(x, y)]) == [kb];
    FusedKey(x, y);
    TwoSorted(kx, ky);
    OneSorted(kb);
    TwoStreamed(kx, ky);
    OneStreamed(kb);
    hide Sort, KeyOf, Stream, KeysOf, Fused, Leq;
    assert kb + [NUL] == kx + [NUL] + ky + [NUL];
  }

  lemma OneSorted(k: string)
    ensures Sort([k]) == [k]
  {
    SortAscending([k]);
    SortedUnique(Sort([k]), [k]);
  }

  lemma TwoSorted(k: string, l: string)
    requires Leq(k, l)
    ensures Sort([k, l]) == [k, l]
  {
    SortAscending([k, l]);
    SortedUnique(Sort([k, l]), [k, l]);
  }

  lemma OneStreamed(k: string)
    ensures Stream([k]) == k + "\0"
  {
    assert [k][..0] == [];
    assert "" + k + [NUL] == k + [NUL];
  }

  lemma TwoStreamed(k: string, l: string)
    ensures Stream([k, l]) == k + "\0" + l + "\0"
  {
    OneStreamed(k);
    assert [k, l][..1] == [k];
  }

  /** The digest of the empty set is not the "never notified" sentinel. */
  lemma NeverSentinel(sha: Sha, ds: seq<DriftedResource>)
    ensures DriftHash(sha, ds) != ""
  {
    assert |DriftHash(sha, ds)| == 64;
  }
}
