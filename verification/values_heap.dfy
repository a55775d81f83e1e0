/** mergeValues on heap maps: it updates its destination in place and aliases its source. */
module ValuesHeap {
  import opened Values

  type Scalar = string

  /** An entry of a map[string]any: a nested map, or any other value. */
  datatype Slot = Plain(scalar: Scalar) | Nested(node: MapNode)

  /** A Go map. Repr is the footprint of the tree of maps below it. */
  class MapNode {
    var entries: map<string, Slot>
    ghost var Repr: set<MapNode>

    constructor ()
      ensures Valid() && fresh(this) && Repr == {this} && entries == map[]
    {
      entries := map[];
      Repr := {this};
    }

    /** The maps below form a tree: no sharing, no cycles. */
    ghost predicate Valid()
      reads this, Repr
      decreases Repr
    {
      && this in Repr
      && (forall k | k in entries && entries[k].Nested? ::
            && entries[k].node in Repr && entries[k].node.Repr <= Repr && this !in entries[k].node.Repr
            && entries[k].node.Valid())
      && (forall j, k | j in entries && k in entries && j != k && entries[j].Nested? && entries[k].Nested? ::
            entries[j].node.Repr !! entries[k].node.Repr)
    }

    /** Everything the tree refers to: which plain values and which maps, level by level. */
    ghost function Links(): LinkMap
      requires Valid()
      reads this, Repr
      decreases Repr
    {
      map k | k in entries :: LinkAt(k)
    }

    ghost function LinkAt(k: string): Link
      requires Valid() && k in entries
      reads this, Repr
      decreases Repr, 0
    {
      match entries[k]
      case Plain(s) => End(s)
      case Nested(n) => Down(n, n.Links())
    }

    /** The values the tree stands for. */
    ghost function Abs(): Entries<Scalar>
      requires Valid()
      reads this, Repr
    {
      ValuesOf(Links())
    }
  }

  /** What a key refers to: a plain value, or a map object with what its keys refer to. */
  datatype Link = End(scalar: Scalar) | Down(node: MapNode, below: LinkMap)

  type LinkMap = map<string, Link>

  ghost function LinkOf(v: Slot): Link
    requires v.Nested? ==> v.node.Valid()
    reads if v.Nested? then {v.node} + v.node.Repr else {}
  {
    match v
    case Plain(s) => End(s)
    case Nested(n) => Down(n, n.Links())
  }

  function ValuesOf(links: LinkMap): Entries<Scalar> {
    map k | k in links :: ValueOf(links[k])
  }

  function ValueOf(l: Link): Value<Scalar> {
    match l
    case End(s) => Leaf(s)
    case Down(_, below) => Tree(map k | k in below :: ValueOf(below[k]))
  }

  /** The merge of references: under a key of the source stands the source's own entry with everything
      below it, not a copy; only where a map meets a map does the destination's map stay, and the same
      holds below it. */
  function MergeLinks(dst: LinkMap, src: LinkMap): LinkMap {
    map k | k in dst.Keys + src.Keys :: if k in src then LinkUnder(dst, k, src[k]) else dst[k]
  }

  function LinkUnder(dst: LinkMap, k: string, v: Link): Link
    decreases v
  {
    if v.Down? && k in dst && dst[k].Down? then
      Down(dst[k].node,
           map j | j in dst[k].below.Keys + v.below.Keys ::
             if j in v.below then LinkUnder(dst[k].below, j, v.below[j]) else dst[k].below[j])
    else v
  }

  lemma LinkUnderMerges(dst: LinkMap, k: string, v: Link)
    requires v.Down? && k in dst && dst[k].Down?
    ensures LinkUnder(dst, k, v) == Down(dst[k].node, MergeLinks(dst[k].below, v.below))
  {
  }

  lemma NothingToMerge(a: LinkMap)
    ensures MergeLinks(a, map[]) == a
  {
  }

  /** Merging references merges the values they stand for. */
  lemma {:induction false} ValuesOfMerge(dst: LinkMap, src: LinkMap)
    ensures ValuesOf(MergeLinks(dst, src)) == Merge(ValuesOf(dst), ValuesOf(src))
  {
    forall k | k in src ensures ValueOf(LinkUnder(dst, k, src[k])) == Under(ValuesOf(dst), k, ValueOf(src[k])) {
      ValueOfUnder(dst, k, src[k]);
    }
  }

  lemma {:induction false} ValueOfUnder(dst: LinkMap, k: string, v: Link)
    ensures ValueOf(LinkUnder(dst, k, v)) == Under(ValuesOf(dst), k, ValueOf(v))
    decreases v
  {
    if v.Down? && k in dst && dst[k].Down? {
      var a, b := dst[k].below, v.below;
      forall j | j in b ensures ValueOf(LinkUnder(a, j, b[j])) == Under(ValuesOf(a), j, ValueOf(b[j])) {
        ValueOfUnder(a, j, b[j]);
      }
      assert ValueOf(dst[k]) == Tree(ValuesOf(a)) && ValueOf(v) == Tree(ValuesOf(b));
      assert ValueOf(LinkUnder(dst, k, v)).entries == Merge(ValuesOf(a), ValuesOf(b));
    }
  }

  ghost function LinksOf(n: MapNode?): LinkMap
    requires n != null ==> n.Valid()
    reads n, if n == null then {} else n.Repr
  {
    if n == null then map[] else n.Links()
  }

  ghost function AbsOf(n: MapNode?): Entries<Scalar>
    requires n != null ==> n.Valid()
    reads n, if n == null then {} else n.Repr
  {
    ValuesOf(LinksOf(n))
  }

  ghost function Footprint(n: MapNode?): set<MapNode>
    reads n
  {
    if n == null then {} else n.Repr
  }

  /** mergeValues. A nil destination is replaced by a new map; a nil source has no keys. */
  method MergeValues(dst: MapNode?, src: MapNode?) returns (r: MapNode)
    requires dst != null ==> dst.Valid()
    requires src != null ==> src.Valid()
    requires Footprint(dst) !! Footprint(src)
    modifies Footprint(dst)
    ensures r.Valid() && (dst != null ==> r == dst) && (dst == null ==> fresh(r))
    ensures r.Repr <= old(Footprint(dst)) + old(Footprint(src)) + {r}
    ensures r.Links() == MergeLinks(old(LinksOf(dst)), old(LinksOf(src)))
    ensures r.Abs() == Merge(old(AbsOf(dst)), old(AbsOf(src)))
    ensures src != null ==> src !in r.Repr
    decreases Footprint(src), 2
  {
    hide MergeLinks, Merge, ValuesOf;
    ValuesOfMerge(LinksOf(dst), LinksOf(src));
    if dst == null {
      r := new MapNode();
    } else {
      r := dst;
    }
    if src != null {
      MergeMaps(r, src);
    } else {
      NothingToMerge(r.Links());
    }
  }

  /** The loop over the keys of src, in any order. */
  method MergeMaps(r: MapNode, src: MapNode)
    requires r.Valid() && src.Valid() && r.Repr !! src.Repr
    modifies r.Repr
    ensures r.Valid() && r.Repr <= old(r.Repr) + src.Repr
    ensures r.Links() == MergeLinks(old(r.Links()), old(src.Links()))
    ensures src !in r.Repr
    decreases src.Repr, 1
  {
    hide MergeLinks, Apart, Merged;
    ghost var a, b, own := r.Links(), src.Links(), r.Repr;
    var todo := src.entries.Keys;
    Start(r, src, a, b);
    while todo != {}
      invariant todo <= src.entries.Keys && r in own
      invariant r.Valid() && src.Valid() && src.Links() == b && src.Repr !! own
      invariant Apart(r, src, own, todo) && Merged(r, src, a, b, todo)
      decreases todo
    {
      var k :| k in todo;
      MergeKey(r, src, k, a, b, own, todo);
      todo := todo - {k};
    }
    Finish(r, src, a, b, own);
  }

  lemma Start(r: MapNode, src: MapNode, a: LinkMap, b: LinkMap)
    requires r.Valid() && src.Valid() && r.Repr !! src.Repr && a == r.Links() && b == src.Links()
    ensures Apart(r, src, r.Repr, src.entries.Keys) && Merged(r, src, a, b, src.entries.Keys)
  {
  }

  lemma Finish(r: MapNode, src: MapNode, a: LinkMap, b: LinkMap, own: set<MapNode>)
    requires r.Valid() && Apart(r, src, own, {}) && Merged(r, src, a, b, {})
    ensures r.Links() == MergeLinks(a, b) && r.Repr <= own + src.Repr && src !in r.Repr
  {
  }

  /** The maps of keys still to visit are apart from the destination, and what the loop may still
      write lies in own, the destination's footprint at the start. */
  ghost predicate Apart(r: MapNode, src: MapNode, own: set<MapNode>, todo: set<string>)
    requires todo <= src.entries.Keys
    reads r, r.Repr, src, src.Repr
  {
    && r.Repr <= own + src.Repr && src !in r.Repr
    && (forall k | k in todo && src.entries[k].Nested? :: src.entries[k].node in src.Repr && src.entries[k].node.Repr !! r.Repr)
    && (forall k | k in todo && k in r.entries && r.entries[k].Nested? ::
          r.entries[k].node in r.Repr && r.entries[k].node.Repr <= own)
  }

  /** The visited keys hold the merge, the others what the destination held at the start. */
  ghost predicate Merged(r: MapNode, src: MapNode, a: LinkMap, b: LinkMap, todo: set<string>)
    requires r.Valid()
    reads r, r.Repr, src
  {
    && b.Keys == src.entries.Keys
    && r.entries.Keys == a.Keys + (b.Keys - todo)
    && (forall k | k in r.entries :: r.LinkAt(k) == if k in b && k !in todo then LinkUnder(a, k, b[k]) else a[k])
  }

  /** One turn of the loop. */
  method MergeKey(r: MapNode, src: MapNode, k: string, ghost a: LinkMap, ghost b: LinkMap,
                  ghost own: set<MapNode>, ghost todo: set<string>)
    requires r.Valid() && src.Valid() && k in todo && todo <= src.entries.Keys
    requires src.Links() == b && r in own && src.Repr !! own
    requires Apart(r, src, own, todo) && Merged(r, src, a, b, todo)
    modifies own
    ensures r.Valid() && src.Valid() && src.Links() == b
    ensures Apart(r, src, own, todo - {k}) && Merged(r, src, a, b, todo - {k})
    decreases src.Repr, 0
  {
    hide MergeLinks, Merged, LinkUnder, Apart;
    Known(r, src, a, b, todo, k);
    ContentsMerged(r, src, a, b, todo);
    ghost var before := Contents(r);
    if src.entries[k].Nested? && k in r.entries && r.entries[k].Nested? {
      NestedTurn(r, src, k, own, todo);
    } else {
      SetTurn(r, src, k, own, todo);
    }
    Visited(r, src, a, b, todo, k, before);
  }

  method NestedTurn(r: MapNode, src: MapNode, k: string, ghost own: set<MapNode>, ghost todo: set<string>)
    requires r.Valid() && src.Valid() && k in todo && todo <= src.entries.Keys && r in own && src.Repr !! own
    requires Apart(r, src, own, todo)
    requires src.entries[k].Nested? && k in r.entries && r.entries[k].Nested?
    modifies own
    ensures r.Valid() && src.Valid() && src.Links() == old(src.Links()) && Apart(r, src, own, todo - {k})
    ensures r.entries == old(r.entries)
    ensures r.LinkAt(k) == Down(r.entries[k].node, MergeLinks(old(r.entries[k].node.Links()), old(src.entries[k].node.Links())))
    ensures forall j | j in r.entries && j != k :: r.LinkAt(j) == old(r.LinkAt(j))
    decreases src.Repr, 0, 0
  {
    hide MergeLinks;
    Elsewhere(src, k);
    MergeNested(r, k, src.entries[k].node);
  }

  method SetTurn(r: MapNode, src: MapNode, k: string, ghost own: set<MapNode>, ghost todo: set<string>)
    requires r.Valid() && src.Valid() && k in todo && todo <= src.entries.Keys && r in own && src.Repr !! own
    requires Apart(r, src, own, todo)
    modifies own
    ensures r.Valid() && src.Valid() && src.Links() == old(src.Links()) && Apart(r, src, own, todo - {k})
    ensures r.entries == old(r.entries)[k := src.entries[k]]
    ensures r.LinkAt(k) == src.LinkAt(k)
    ensures forall j | j in old(r.entries) && j != k :: r.LinkAt(j) == old(r.LinkAt(j))
  {
    Elsewhere(src, k);
    Replaceable(r, k, src.entries[k]);
    SetEntry(r, k, src.entries[k]);
  }

  lemma Replaceable(r: MapNode, k: string, v: Slot)
    requires r.Valid() && (v.Nested? ==> v.node.Valid() && v.node.Repr !! r.Repr)
    ensures ValidBut(r, k) && Fits(r, k, v)
  {
  }

  ghost function Contents(r: MapNode): LinkMap
    requires r.Valid()
    reads r, r.Repr
  {
    map j | j in r.entries :: r.LinkAt(j)
  }

  lemma ContentsMerged(r: MapNode, src: MapNode, a: LinkMap, b: LinkMap, todo: set<string>)
    requires r.Valid() && Merged(r, src, a, b, todo)
    ensures b.Keys == src.entries.Keys && Contents(r).Keys == a.Keys + (b.Keys - todo)
    ensures forall j | j in Contents(r) :: Contents(r)[j] == if j in b && j !in todo then LinkUnder(a, j, b[j]) else a[j]
  {
  }

  /** The maps under two keys of a tree are apart. */
  lemma Elsewhere(src: MapNode, k: string)
    requires src.Valid() && k in src.entries
    ensures src.entries[k].Nested? ==>
              && src.entries[k].node.Valid() && src.entries[k].node.Repr <= src.Repr - {src}
              && forall j | j in src.entries && j != k && src.entries[j].Nested? ::
                   src.entries[j].node.Repr !! src.entries[k].node.Repr
  {
  }

  /** What is known of a key before its turn. */
  lemma Known(r: MapNode, src: MapNode, a: LinkMap, b: LinkMap, todo: set<string>, k: string)
    requires r.Valid() && src.Valid() && Merged(r, src, a, b, todo) && k in todo && k in src.entries && src.Links() == b
    ensures b[k] == src.LinkAt(k)
    ensures k in r.entries <==> k in a
    ensures k in r.entries ==> a[k] == r.LinkAt(k)
    ensures LinkUnder(a, k, b[k]) == if k in r.entries && r.entries[k].Nested? && src.entries[k].Nested?
                                 then Down(r.entries[k].node, MergeLinks(r.entries[k].node.Links(), src.entries[k].node.Links()))
                                 else src.LinkAt(k)
  {
  }

  lemma Visited(r: MapNode, src: MapNode, a: LinkMap, b: LinkMap, todo: set<string>, k: string,
                before: LinkMap)
    requires r.Valid() && b.Keys == src.entries.Keys && k in todo && k in b
    requires before.Keys == a.Keys + (b.Keys - todo)
    requires forall j | j in before :: before[j] == if j in b && j !in todo then LinkUnder(a, j, b[j]) else a[j]
    requires r.entries.Keys == before.Keys + {k} && r.LinkAt(k) == LinkUnder(a, k, b[k])
    requires forall j | j in before && j != k :: r.LinkAt(j) == before[j]
    ensures Merged(r, src, a, b, todo - {k})
  {
  }

  /** Valid, but for what key k holds. */
  ghost predicate ValidBut(r: MapNode, k: string)
    reads r, r.Repr
  {
    && r in r.Repr
    && (forall j | j in r.entries && j != k && r.entries[j].Nested? ::
          && r.entries[j].node in r.Repr && r.entries[j].node.Repr <= r.Repr && r !in r.entries[j].node.Repr
          && r.entries[j].node.Valid())
    && (forall i, j | i in r.entries && j in r.entries && i != j && i != k && j != k
                      && r.entries[i].Nested? && r.entries[j].Nested? ::
          r.entries[i].node.Repr !! r.entries[j].node.Repr)
  }

  /** v can stand under k. */
  ghost predicate Fits(r: MapNode, k: string, v: Slot)
    reads r, r.Repr, if v.Nested? then {v.node} + v.node.Repr else {}
  {
    v.Nested? ==>
      && v.node.Valid() && r !in v.node.Repr
      && forall j | j in r.entries && j != k && r.entries[j].Nested? && r.entries[j].node in r.Repr ::
           r.entries[j].node.Repr !! v.node.Repr
  }

  /** dst[k] = v, where a nested map is aliased, not copied. */
  method SetEntry(r: MapNode, k: string, v: Slot)
    requires ValidBut(r, k) && Fits(r, k, v)
    modifies r
    ensures r.Valid() && r.entries == old(r.entries)[k := v]
    ensures r.Repr == old(r.Repr) + if v.Nested? then v.node.Repr else {}
    ensures r.LinkAt(k) == LinkOf(v)
    ensures forall j | j in r.entries && j != k && r.entries[j].Nested? ::
              r.entries[j].node.Repr == old(r.entries[j].node.Repr) && r.LinkAt(j) == Down(r.entries[j].node, old(r.entries[j].node.Links()))
  {
    r.entries := r.entries[k := v];
    if v.Nested? {
      r.Repr := r.Repr + v.node.Repr;
    }
  }

  /** dst[k] = mergeValues(dst[k], src), for a nested map on both sides. */
  method MergeNested(r: MapNode, k: string, src: MapNode)
    requires r.Valid() && src.Valid() && src.Repr !! r.Repr
    requires k in r.entries && r.entries[k].Nested?
    modifies r, r.entries[k].node.Repr
    ensures r.Valid() && r.entries == old(r.entries)
    ensures old(r.Repr) <= r.Repr <= old(r.Repr) + src.Repr
    ensures r.LinkAt(k) == Down(r.entries[k].node, MergeLinks(old(r.entries[k].node.Links()), old(src.Links())))
    ensures forall j | j in r.entries && j != k && r.entries[j].Nested? ::
              r.entries[j].node.Repr == old(r.entries[j].node.Repr) && r.LinkAt(j) == old(r.LinkAt(j))
    decreases src.Repr, 4
  {
    hide MergeLinks, ValidBut, Fits;
    Elsewhere(r, k);
    var child := GrowChild(r, k, src);
    SetEntry(r, k, Nested(child));
  }

  /** The recursive call: the map under k grows, the rest of the tree is as it was. */
  method GrowChild(r: MapNode, k: string, src: MapNode) returns (child: MapNode)
    requires r.Valid() && src.Valid() && src.Repr !! r.Repr
    requires k in r.entries && r.entries[k].Nested?
    modifies r.entries[k].node.Repr
    ensures child == r.entries[k].node && child.Valid() && child.Repr <= old(child.Repr) + src.Repr
    ensures child.Links() == MergeLinks(old(child.Links()), old(src.Links()))
    ensures r.entries == old(r.entries) && r.Repr == old(r.Repr) && ValidBut(r, k) && Fits(r, k, r.entries[k])
    ensures forall j | j in r.entries && j != k && r.entries[j].Nested? ::
              && r.entries[j].node.Valid() && r.entries[j].node.Repr == old(r.entries[j].node.Repr)
              && r.entries[j].node.Links() == old(r.entries[j].node.Links())
    decreases src.Repr, 3
  {
    hide MergeLinks;
    Elsewhere(r, k);
    ghost var within := r.entries[k].node.Repr;
    child := MergeValues(r.entries[k].node, src);
    StillFits(r, k, within, src.Repr);
  }

  /** A map that grew by nodes from outside the tree still fits its place. */
  lemma StillFits(r: MapNode, k: string, within: set<MapNode>, added: set<MapNode>)
    requires ValidBut(r, k) && k in r.entries && r.entries[k].Nested?
    requires r !in within && added !! r.Repr
    requires r.entries[k].node.Valid() && r.entries[k].node.Repr <= within + added
    requires forall j | j in r.entries && j != k && r.entries[j].Nested? :: r.entries[j].node.Repr !! within
    ensures Fits(r, k, r.entries[k])
  {
  }
}
