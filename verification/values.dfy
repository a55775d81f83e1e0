/** Helm values and their layered merge (mergeValues), as trees. */
module Values {

  /** A value is a map, or anything else: scalars and lists alike are leaves. */
  datatype Value<S> = Leaf(scalar: S) | Tree(entries: map<string, Value<S>>)

  type Entries<S> = map<string, Value<S>>

  /** The deep merge: src wins, except that two maps under one key are merged. */
  function Merge<S>(dst: Entries<S>, src: Entries<S>): (r: Entries<S>)
    ensures r.Keys == dst.Keys + src.Keys
    decreases Tree(src), 0
  {
    map k | k in dst.Keys + src.Keys :: if k in src then Under(dst, k, src[k]) else dst[k]
  }

  /** What key k holds after value v has been merged into it. */
  function Under<S>(dst: Entries<S>, k: string, v: Value<S>): Value<S>
    decreases v, 1
  {
    if v.Tree? && k in dst && dst[k].Tree? then Tree(Merge(dst[k].entries, v.entries)) else v
  }

  // ---- identity and idempotence

  lemma EmptyIdentity<S>(a: Entries<S>)
    ensures Merge(map[], a) == a && Merge(a, map[]) == a
  {
  }

  lemma {:induction false} Idempotent<S>(a: Entries<S>)
    ensures Merge(a, a) == a
    decreases Tree(a)
  {
    forall k | k in a ensures Merge(a, a)[k] == a[k] {
      if a[k].Tree? { Idempotent(a[k].entries); }
    }
  }

  // ---- associativity

  /** c overrides everything in a: merging c into a yields c. */
  predicate Absorbs<S>(c: Entries<S>, a: Entries<S>)
    decreases Tree(a)
  {
    forall k | k in a :: k in c && (a[k].Tree? && c[k].Tree? ==> Absorbs(c[k].entries, a[k].entries))
  }

  lemma {:induction false} AbsorbsExactly<S>(a: Entries<S>, c: Entries<S>)
    ensures Merge(a, c) == c <==> Absorbs(c, a)
    decreases Tree(a)
  {
    forall k | k in a && k in c && a[k].Tree? && c[k].Tree?
      ensures Merge(a, c)[k] == c[k] <==> Absorbs(c[k].entries, a[k].entries)
    {
      AbsorbsExactly(a[k].entries, c[k].entries);
      assert Under(a, k, c[k]) == Tree(Merge(a[k].entries, c[k].entries));
    }
    assert forall k | k in a :: k in Merge(a, c).Keys;
    if Absorbs(c, a) {
      assert Merge(a, c).Keys == c.Keys;
      forall k | k in c ensures Merge(a, c)[k] == c[k] {
        assert Merge(a, c)[k] == Under(a, k, c[k]);
      }
    }
  }

  /** Where all three layers share a path and a and c hold maps there, b holds a map as well, or what
      c holds absorbs what a holds. */
  predicate Associates<S>(a: Entries<S>, b: Entries<S>, c: Entries<S>)
    decreases Tree(c)
  {
    forall k | k in a && k in b && k in c && a[k].Tree? && c[k].Tree? ::
      if b[k].Tree? then Associates(a[k].entries, b[k].entries, c[k].entries)
      else Absorbs(c[k].entries, a[k].entries)
  }

  /** Merging layers can be regrouped exactly when Associates holds. */
  lemma {:induction false} AssociativeExactly<S>(a: Entries<S>, b: Entries<S>, c: Entries<S>)
    ensures Merge(Merge(a, b), c) == Merge(a, Merge(b, c)) <==> Associates(a, b, c)
    decreases Tree(c)
  {
    var l, r := Merge(Merge(a, b), c), Merge(a, Merge(b, c));
    assert l.Keys == r.Keys;
    forall k | k in l.Keys ensures l[k] == r[k] <==> AssociatesAt(a, b, c, k) {
      AssociativeAt(a, b, c, k);
    }
    if Associates(a, b, c) {
      assert forall k | k in l.Keys :: AssociatesAt(a, b, c, k);
    }
    if l == r {
      assert forall k | k in l.Keys :: AssociatesAt(a, b, c, k);
    }
  }

  predicate AssociatesAt<S>(a: Entries<S>, b: Entries<S>, c: Entries<S>, k: string) {
    k in a && k in b && k in c && a[k].Tree? && c[k].Tree? ==>
      if b[k].Tree? then Associates(a[k].entries, b[k].entries, c[k].entries)
      else Absorbs(c[k].entries, a[k].entries)
  }

  lemma {:induction false} AssociativeAt<S>(a: Entries<S>, b: Entries<S>, c: Entries<S>, k: string)
    requires k in a.Keys + b.Keys + c.Keys
    ensures Merge(Merge(a, b), c)[k] == Merge(a, Merge(b, c))[k] <==> AssociatesAt(a, b, c, k)
    decreases Tree(c), 0
  {
    if k in a && k in b && k in c && a[k].Tree? && c[k].Tree? {
      if b[k].Tree? {
        AssociativeExactly(a[k].entries, b[k].entries, c[k].entries);
      } else {
        AbsorbsExactly(a[k].entries, c[k].entries);
      }
    }
  }

  /** No path has a map in a, a non-map in b, and a map in c. */
  predicate NoBlockade<S>(a: Entries<S>, b: Entries<S>, c: Entries<S>)
    decreases Tree(c)
  {
    forall k | k in a && k in b && k in c && a[k].Tree? && c[k].Tree? ::
      b[k].Tree? && NoBlockade(a[k].entries, b[k].entries, c[k].entries)
  }

  lemma {:induction false} NoBlockadeAssociates<S>(a: Entries<S>, b: Entries<S>, c: Entries<S>)
    requires NoBlockade(a, b, c)
    ensures Associates(a, b, c)
    ensures Merge(Merge(a, b), c) == Merge(a, Merge(b, c))
    decreases Tree(c)
  {
    forall k | k in a && k in b && k in c && a[k].Tree? && c[k].Tree?
      ensures b[k].Tree? && Associates(a[k].entries, b[k].entries, c[k].entries)
    {
      NoBlockadeAssociates(a[k].entries, b[k].entries, c[k].entries);
    }
    AssociativeExactly(a, b, c);
  }

  /** A map, a scalar and a map under one key do not regroup. */
  lemma Blockade<S>(s: S)
    ensures var a, b, c := map["k" := Tree(map["x" := Leaf(s)])], map["k" := Leaf(s)], map["k" := Tree(map[])];
            Merge(Merge(a, b), c) != Merge(a, Merge(b, c))
  {
    var a: Entries<S>, b: Entries<S>, c: Entries<S> :=
      map["k" := Tree(map["x" := Leaf(s)])], map["k" := Leaf(s)], map["k" := Tree(map[])];
    assert "x" in a["k"].entries && "x" !in c["k"].entries;
    AssociativeExactly(a, b, c);
  }

  // ---- layers

  /** renderHelmChart's fold: the layers merged in order into an empty map. */
  function Fold<S>(layers: seq<Entries<S>>): Entries<S> {
    if layers == [] then map[] else Merge(Fold(layers[..|layers| - 1]), layers[|layers| - 1])
  }

  /** What a layer says about a path: nothing, a leaf, a map, or a non-map at a proper prefix. */
  datatype Finding<S> = Absent | HasLeaf(scalar: S) | HasMap | Blocks

  function At<S>(m: Entries<S>, path: seq<string>): Finding<S>
    requires path != []
    decreases |path|
  {
    if path[0] !in m then Absent
    else match m[path[0]]
      case Leaf(s) => if |path| == 1 then HasLeaf(s) else Blocks
      case Tree(e) => if |path| == 1 then HasMap else At(e, path[1..])
  }

  predicate Settles<S>(f: Finding<S>) {
    f.HasLeaf? || f.HasMap?
  }

  /** A later layer that says something about a path decides what is there; one that says nothing
      neither adds nor removes a leaf or map. */
  lemma {:induction false} MergeAt<S>(a: Entries<S>, b: Entries<S>, path: seq<string>)
    requires path != []
    ensures !At(b, path).Absent? ==> At(Merge(a, b), path) == At(b, path)
    ensures At(b, path).Absent? && Settles(At(a, path)) ==> At(Merge(a, b), path) == At(a, path)
    ensures At(b, path).Absent? && !Settles(At(a, path)) ==> !Settles(At(Merge(a, b), path))
    decreases |path|
  {
    var k := path[0];
    if |path| > 1 && k in a && k in b && a[k].Tree? && b[k].Tree? {
      MergeAt(a[k].entries, b[k].entries, path[1..]);
    }
  }

  /** The last layer with something to say about the path. */
  function LastSaying<S>(layers: seq<Entries<S>>, path: seq<string>): Finding<S>
    requires path != []
  {
    if layers == [] then Absent
    else
      var f := At(layers[|layers| - 1], path);
      if f.Absent? then LastSaying(layers[..|layers| - 1], path) else f
  }

  /** Layer precedence: the merged values have a leaf, or a map, at a path exactly when the last layer
      that is not absent there has that leaf, or a map. */
  lemma {:induction false} LayerPrecedence<S>(layers: seq<Entries<S>>, path: seq<string>)
    requires path != []
    ensures forall s :: At(Fold(layers), path) == HasLeaf(s) <==> LastSaying(layers, path) == HasLeaf(s)
    ensures At(Fold(layers), path).HasMap? <==> LastSaying(layers, path).HasMap?
  {
    if layers != [] {
      var n := |layers| - 1;
      LayerPrecedence(layers[..n], path);
      MergeAt(Fold(layers[..n]), layers[n], path);
    }
  }
}
