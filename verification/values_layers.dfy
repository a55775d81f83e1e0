/** renderHelmChart's values: the files in order, the inline values on top, each freshly parsed. */
module ValuesLayers {
  import opened Text
  import opened Values
  import opened ValuesHeap

  datatype Fault = Unresolvable | Unreadable | Unparsable

  /** What resolving, reading and parsing one values document comes to. */
  datatype Document = Broken(fault: Fault) | Parsed(values: Entries<Scalar>)

  datatype Merging = Merged(root: MapNode) | FileFailed(at: nat, why: Fault) | InlineFailed(why: Fault)

  predicate AllParsed(files: seq<Document>) {
    forall i | 0 <= i < |files| :: files[i].Parsed?
  }

  /** The layers of a render, in order. */
  function Layers(files: seq<Document>, inline: Option<Document>): seq<Entries<Scalar>>
    requires AllParsed(files) && (inline.Some? ==> inline.value.Parsed?)
  {
    FileLayers(files) + if inline.Some? then [inline.value.values] else []
  }

  function FileLayers(files: seq<Document>): (layers: seq<Entries<Scalar>>)
    requires AllParsed(files)
    ensures |layers| == |files|
  {
    seq(|files|, i requires 0 <= i < |files| => files[i].values)
  }

  /** chartutil.ReadValues: a tree of maps nobody else holds. */
  method ReadValues(e: Entries<Scalar>) returns (m: MapNode)
    ensures m.Valid() && fresh(m.Repr) && m.Abs() == e
    decreases Tree(e), 1
  {
    m := new MapNode();
    var todo := e.Keys;
    while todo != {}
      invariant todo <= e.Keys
      invariant m.Valid() && fresh(m.Repr) && m.Abs() == e - todo
      decreases todo
    {
      var k :| k in todo;
      ReadEntry(m, k, e);
      assert (e - todo)[k := e[k]] == e - (todo - {k});
      todo := todo - {k};
    }
  }

  method ReadEntry(m: MapNode, k: string, e: Entries<Scalar>)
    requires m.Valid() && k in e
    modifies m
    ensures m.Valid() && fresh(m.Repr - old(m.Repr)) && m.Abs() == old(m.Abs())[k := e[k]]
    decreases Tree(e), 0
  {
    var v := ReadSlot(e, k);
    PutSlot(m, k, v, e[k]);
  }

  method PutSlot(m: MapNode, k: string, v: Slot, ghost value: Value<Scalar>)
    requires m.Valid() && (v.Nested? ==> v.node.Valid() && v.node.Repr !! m.Repr)
    requires value == ValueOf(LinkOf(v))
    modifies m
    ensures m.Valid() && m.Abs() == old(m.Abs())[k := value]
    ensures m.Repr == old(m.Repr) + if v.Nested? then v.node.Repr else {}
  {
    hide ValuesOf, ValueOf, ValidBut, Fits;
    ghost var before := m.Links();
    Replaceable(m, k, v);
    SetEntry(m, k, v);
    assert forall j | j in old(m.entries) && j != k :: m.LinkAt(j) == old(m.LinkAt(j));
    NowHolds(m, k, before, LinkOf(v));
  }

  lemma NowHolds(m: MapNode, k: string, before: LinkMap, l: Link)
    requires m.Valid() && m.entries.Keys == before.Keys + {k} && m.LinkAt(k) == l
    requires forall j | j in before && j != k :: m.LinkAt(j) == before[j]
    ensures m.Abs() == ValuesOf(before)[k := ValueOf(l)]
  {
    assert m.Links() == before[k := l];
    OneMoreValue(before, k, l);
  }

  lemma OneMoreValue(links: LinkMap, k: string, l: Link)
    ensures ValuesOf(links[k := l]) == ValuesOf(links)[k := ValueOf(l)]
  {
  }

  method ReadSlot(e: Entries<Scalar>, k: string) returns (v: Slot)
    requires k in e
    ensures v.Nested? ==> v.node.Valid() && fresh(v.node.Repr)
    ensures e[k] == ValueOf(LinkOf(v))
    decreases Tree(e), 0, 0
  {
    match e[k]
    case Leaf(s) => v := Plain(s);
    case Tree(below) =>
      var n := ReadValues(below);
      v := Nested(n);
  }

  /** One more layer: parsed into maps of its own, and merged into the values so far. */
  method MergeDocument(vals: MapNode, e: Entries<Scalar>) returns (r: MapNode)
    requires vals.Valid()
    modifies vals.Repr
    ensures r == vals && r.Valid() && fresh(r.Repr - old(vals.Repr)) && r.Abs() == Merge(old(vals.Abs()), e)
  {
    hide Merge;
    var m := ReadValues(e);
    r := MergeValues(vals, m);
  }

  lemma OneMoreLayer(files: seq<Document>, i: nat)
    requires i < |files| && AllParsed(files[..i + 1])
    ensures AllParsed(files[..i])
    ensures files[i].Parsed?
    ensures Fold(FileLayers(files[..i + 1])) == Merge(Fold(FileLayers(files[..i])), files[i].values)
  {
    assert forall j | 0 <= j <= i :: files[j] == files[..i + 1][j];
    assert forall j | 0 <= j < i :: files[j] == files[..i][j];
    assert FileLayers(files[..i + 1])[..i] == FileLayers(files[..i]);
  }

  lemma LayersInOrder(files: seq<Document>, inline: Option<Document>)
    requires AllParsed(files) && (inline.Some? ==> inline.value.Parsed?)
    ensures var layers := Layers(files, inline);
            && |layers| == |files| + (if inline.Some? then 1 else 0)
            && (forall i | 0 <= i < |files| :: files[i] == Parsed(layers[i]))
            && (inline.Some? ==> inline.value == Parsed(layers[|files|]))
  {
  }

  lemma InlineOnTop(files: seq<Document>, inline: Option<Document>)
    requires AllParsed(files) && (inline.Some? ==> inline.value.Parsed?)
    ensures Fold(Layers(files, inline)) ==
            if inline.Some? then Merge(Fold(FileLayers(files)), inline.value.values) else Fold(FileLayers(files))
  {
    if inline.Some? {
      assert Layers(files, inline)[..|files|] == FileLayers(files);
    } else {
      assert Layers(files, inline) == FileLayers(files);
    }
  }

  /** The values a chart is rendered with, or the first document that could not be had. */
  method MergeLayers(files: seq<Document>, inline: Option<Document>) returns (r: Merging)
    ensures r.FileFailed? <==> !AllParsed(files)
    ensures r.FileFailed? ==> r.at < |files| && files[r.at] == Broken(r.why) && AllParsed(files[..r.at])
    ensures r.InlineFailed? ==> inline == Some(Broken(r.why))
    ensures r.Merged? <==> AllParsed(files) && (inline.Some? ==> inline.value.Parsed?)
    ensures r.Merged? ==> r.root.Valid() && fresh(r.root.Repr) && r.root.Abs() == Fold(Layers(files, inline))
    ensures r.Merged? ==>
              var layers := Layers(files, inline);
              && |layers| == |files| + (if inline.Some? then 1 else 0)
              && (forall i | 0 <= i < |files| :: files[i] == Parsed(layers[i]))
              && (inline.Some? ==> inline.value == Parsed(layers[|files|]))
  {
    var vals := new MapNode();
    assert vals.Abs() == map[] == Fold(FileLayers(files[..0]));
    hide Merge, Fold, FileLayers, Layers;
    var i := 0;
    while i < |files|
      invariant 0 <= i <= |files| && AllParsed(files[..i])
      invariant vals.Valid() && fresh(vals.Repr) && vals.Abs() == Fold(FileLayers(files[..i]))
    {
      if files[i].Broken? {
        return FileFailed(i, files[i].fault);
      }
      assert AllParsed(files[..i + 1]);
      OneMoreLayer(files, i);
      vals := MergeDocument(vals, files[i].values);
      i := i + 1;
    }
    assert files[..i] == files;
    if inline.Some? {
      if inline.value.Broken? {
        return InlineFailed(inline.value.fault);
      }
      vals := MergeDocument(vals, inline.value.values);
    }
    InlineOnTop(files, inline);
    LayersInOrder(files, inline);
    return Merged(vals);
  }

  /** Why layers must be freshly parsed. A layer merged into empty values shares its nested maps with
      them, so the next merge writes into the layer: what was parsed as {k: {x: s}} now holds
      {k: {x: t}}. */
  method SharedLayerIsOverwritten(s: Scalar, t: Scalar) returns (shared: MapNode)
    requires s != t
    ensures shared.entries.Keys == {"k"} && shared.entries["k"].Nested?
    ensures shared.entries["k"].node.Valid() && shared.entries["k"].node.Abs() == map["x" := Leaf(t)]
  {
    hide Merge, OneLeaf;
    shared := ReadValues(OneLeaf(s));
    ShapeOfOne(shared, s);
    var vals := MergeFirst(shared);
    ShapeOfOne(vals, s);
    MergeSecond(vals, s, t);
  }

  /** The second layer: the map already there is written, and stays in place. */
  method MergeSecond(vals: MapNode, ghost s: Scalar, t: Scalar)
    requires vals.Valid() && vals.Abs() == OneLeaf(s)
    modifies vals.Repr
    ensures vals.entries == old(vals.entries) && "k" in vals.entries && vals.entries["k"].Nested?
    ensures vals.entries["k"].node.Valid() && vals.entries["k"].node.Abs() == map["x" := Leaf(t)]
  {
    hide MergeLinks, OneLeaf, ValuesOf, Merge;
    var other := ReadValues(OneLeaf(t));
    Overwrite(vals, other, s, t);
  }

  method Overwrite(vals: MapNode, other: MapNode, ghost s: Scalar, ghost t: Scalar)
    requires vals.Valid() && vals.Abs() == OneLeaf(s) && other.Valid() && other.Abs() == OneLeaf(t) && vals.Repr !! other.Repr
    modifies vals.Repr
    ensures vals.Valid() && vals.entries == old(vals.entries) && "k" in vals.entries && vals.entries["k"].Nested?
    ensures vals.entries["k"].node.Abs() == map["x" := Leaf(t)]
  {
    hide MergeLinks, LinkUnder, ValuesOf, OneLeaf, Merge;
    ghost var before, added := vals.Links(), other.Links();
    ShapeOfOne(vals, s);
    ShapeOfOne(other, t);
    SameNode(before, added);
    var r := MergeValues(vals, other);
    OneLeafWins(s, t);
    ShapeOfOne(r, t);
  }

  /** Where a map meets a map, the one already there stays. */
  lemma SameNode(dst: LinkMap, src: LinkMap)
    requires "k" in dst && dst["k"].Down? && "k" in src && src["k"].Down?
    ensures MergeLinks(dst, src)["k"].Down? && MergeLinks(dst, src)["k"].node == dst["k"].node
  {
  }

  /** The first layer of a fold: its entries are the layer's own. */
  method MergeFirst(layer: MapNode) returns (vals: MapNode)
    requires layer.Valid()
    ensures vals.Valid() && fresh(vals) && layer !in vals.Repr && vals.Repr <= layer.Repr + {vals}
    ensures vals.entries == layer.entries && vals.Abs() == layer.Abs()
  {
    EverythingNew(layer.Links());
    hide Merge, MergeLinks;
    vals := MergeValues(null, layer);
    SameEntries(vals, layer);
  }

  lemma EverythingNew(a: LinkMap)
    ensures MergeLinks(map[], a) == a
  {
  }

  lemma SameEntries(m: MapNode, n: MapNode)
    requires m.Valid() && n.Valid() && m.Links() == n.Links()
    ensures m.entries == n.entries
  {
    assert m.entries.Keys == m.Links().Keys == n.entries.Keys;
    forall k | k in m.entries ensures m.entries[k] == n.entries[k] {
      assert m.LinkAt(k) == m.Links()[k] == n.Links()[k] == n.LinkAt(k);
    }
  }

  function OneLeaf(s: Scalar): Entries<Scalar> {
    map["k" := Tree(map["x" := Leaf(s)])]
  }

  lemma OneLeafWins(s: Scalar, t: Scalar)
    ensures Merge(OneLeaf(s), OneLeaf(t)) == OneLeaf(t)
  {
    var a, b: Entries<Scalar> := map["x" := Leaf(s)], map["x" := Leaf(t)];
    assert Merge(a, b) == b;
    assert Merge(OneLeaf(s), OneLeaf(t))["k"] == Under(OneLeaf(s), "k", Tree(b)) == Tree(Merge(a, b));
  }

  lemma ShapeOfOne(m: MapNode, s: Scalar)
    requires m.Valid() && m.Abs() == OneLeaf(s)
    ensures m.entries.Keys == {"k"} && m.entries["k"].Nested? && m.entries["k"].node.Abs() == map["x" := Leaf(s)]
    ensures "k" in m.Links() && m.Links()["k"].Down? && m.Links()["k"].node == m.entries["k"].node
  {
    assert "k" in m.Abs() && m.Abs().Keys == m.entries.Keys;
    assert m.Abs()["k"] == ValueOf(m.LinkAt("k"));
  }
}
