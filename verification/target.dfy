/** spec.target: narrowing the desired manifests before comparison (applyTarget, NewTargetFilter). */
module Target {
  import opened Drift
  import opened Text

  type Labels = map<string, string>

  /** A desired manifest; labels are those of its object, None when it has no object. */
  datatype Manifest = Manifest(kind: string, name: string, namespace: string, labels: Option<Labels>)

  type Selector = Labels -> bool

  /** spec.target.labelSelector: left out, not convertible, or a predicate on label sets. */
  datatype SelectorSpec = Unset | Invalid | Valid(selector: Selector)

  /** A source of manifests: one that loads (or fails to, with None), or a targetFilter on another. */
  datatype Source =
    | Base(load: Option<seq<Manifest>>)
    | Filter(src: Source, namespaces: Option<map<string, bool>>, selector: Option<Selector>)

  // ---- what a target means

  function LabelsOf(m: Manifest): Labels {
    if m.labels.Some? then m.labels.value else map[]
  }

  /** The namespace list counts only when it is not empty, the selector only when there is one. */
  predicate Keeps(namespaces: seq<string>, selector: Option<Selector>, m: Manifest) {
    && (namespaces != [] ==> m.namespace in namespaces)
    && (selector.Some? ==> selector.value(LabelsOf(m)))
  }

  function Kept(namespaces: seq<string>, selector: Option<Selector>, all: seq<Manifest>): seq<Manifest> {
    if all == [] then []
    else
      var n := |all| - 1;
      Kept(namespaces, selector, all[..n]) + if Keeps(namespaces, selector, all[n]) then [all[n]] else []
  }

  function Narrowed(namespaces: seq<string>, selector: Option<Selector>, loaded: Option<seq<Manifest>>): Option<seq<Manifest>> {
    if loaded.None? then None else Some(Kept(namespaces, selector, loaded.value))
  }

  // ---- the filter as the code builds and runs it

  /** The map lookup of targetFilter.Load: a key that is not there reads as false. */
  predicate Listed(namespaces: map<string, bool>, ns: string) {
    ns in namespaces && namespaces[ns]
  }

  predicate Passes(f: Source, m: Manifest)
    requires f.Filter?
  {
    && (f.namespaces.Some? ==> Listed(f.namespaces.value, m.namespace))
    && (f.selector.Some? ==> f.selector.value(LabelsOf(m)))
  }

  function Passing(f: Source, all: seq<Manifest>): seq<Manifest>
    requires f.Filter?
  {
    if all == [] then []
    else Passing(f, all[..|all| - 1]) + if Passes(f, all[|all| - 1]) then [all[|all| - 1]] else []
  }

  /** What Load yields. */
  function Loaded(s: Source): Option<seq<Manifest>> {
    match s
    case Base(load) => load
    case Filter(src, _, _) =>
      var all := Loaded(src);
      if all.None? then None else Some(Passing(s, all.value))
  }

  method Load(s: Source) returns (r: Option<seq<Manifest>>)
    ensures r == Loaded(s)
    ensures s.Base? ==> r == s.load
    ensures s.Filter? ==> (r.None? <==> Loaded(s.src).None?)
  {
    if s.Base? {
      return s.load;
    }
    var all := Load(s.src);
    if all.None? {
      return None;
    }
    var kept := [];
    for i := 0 to |all.value|
      invariant kept == Passing(s, all.value[..i])
    {
      var m := all.value[i];
      assert all.value[..i + 1][..i] == all.value[..i];
      if s.namespaces.Some? && !(m.namespace in s.namespaces.value && s.namespaces.value[m.namespace]) {
        continue;
      }
      if s.selector.Some? {
        var labels := if m.labels.Some? then m.labels.value else map[];
        if !s.selector.value(labels) {
          continue;
        }
      }
      kept := kept + [m];
    }
    assert all.value[..|all.value|] == all.value;
    return Some(kept);
  }

  method NewTargetFilter(src: Source, namespaces: seq<string>, selector: Option<Selector>) returns (s: Source)
    ensures namespaces == [] && selector.None? ==> s == src
    ensures Loaded(s) == Narrowed(namespaces, selector, Loaded(src))
    ensures Loaded(s).None? <==> Loaded(src).None?
  {
    if |namespaces| == 0 && selector.None? {
      if Loaded(src).Some? { NoConstraintKeepsAll(Loaded(src).value); }
      return src;
    }
    var listed: Option<map<string, bool>> := None;
    if |namespaces| > 0 {
      var entries := map[];
      for i := 0 to |namespaces|
        invariant forall ns :: Listed(entries, ns) <==> ns in namespaces[..i]
      {
        assert namespaces[..i + 1] == namespaces[..i] + [namespaces[i]];
        entries := entries[namespaces[i] := true];
      }
      assert namespaces[..|namespaces|] == namespaces;
      listed := Some(entries);
    }
    s := Filter(src, listed, selector);
    if Loaded(src).Some? { PassingIsKept(s, namespaces, Loaded(src).value); }
  }

  lemma {:induction false} PassingIsKept(f: Source, namespaces: seq<string>, all: seq<Manifest>)
    requires f.Filter? && (f.namespaces.Some? <==> namespaces != [])
    requires f.namespaces.Some? ==> forall ns :: Listed(f.namespaces.value, ns) <==> ns in namespaces
    ensures Passing(f, all) == Kept(namespaces, f.selector, all)
  {
    if all != [] {
      PassingIsKept(f, namespaces, all[..|all| - 1]);
    }
  }

  lemma {:induction false} NoConstraintKeepsAll(all: seq<Manifest>)
    ensures Kept([], None, all) == all
  {
    if all != [] {
      NoConstraintKeepsAll(all[..|all| - 1]);
    }
  }

  /** applyTarget: a selector that cannot be converted is an error, whatever else the target says. */
  method ApplyTarget(src: Source, namespaces: seq<string>, spec: SelectorSpec) returns (r: Option<Source>)
    ensures r.None? <==> spec.Invalid?
    ensures r.Some? ==>
              Loaded(r.value) == Narrowed(namespaces, if spec.Valid? then Some(spec.selector) else None, Loaded(src))
  {
    var selector: Option<Selector> := None;
    match spec {
      case Unset =>
      case Invalid => return None;
      case Valid(s) => selector := Some(s);
    }
    var s := NewTargetFilter(src, namespaces, selector);
    return Some(s);
  }

  // ---- kept is an order-preserving subsequence

  /** The indices of the kept manifests. */
  function Positions(namespaces: seq<string>, selector: Option<Selector>, all: seq<Manifest>): seq<nat> {
    if all == [] then []
    else
      var n := |all| - 1;
      Positions(namespaces, selector, all[..n]) + if Keeps(namespaces, selector, all[n]) then [n] else []
  }

  lemma {:induction false} KeptInOrder(namespaces: seq<string>, selector: Option<Selector>, all: seq<Manifest>)
    ensures var p := Positions(namespaces, selector, all);
            && |p| == |Kept(namespaces, selector, all)|
            && (forall i | 0 <= i < |p| :: p[i] < |all| && Kept(namespaces, selector, all)[i] == all[p[i]])
            && (forall i, j | 0 <= i < j < |p| :: p[i] < p[j])
            && (forall k | 0 <= k < |all| :: k in p <==> Keeps(namespaces, selector, all[k]))
            && (forall k | 0 <= k < |all| :: k in p <==>
                  && (|namespaces| == 0 || all[k].namespace in namespaces)
                  && (selector.None?
                      || (all[k].labels.Some? && selector.value(all[k].labels.value))
                      || (all[k].labels.None? && selector.value(map[]))))
  {
    if all != [] {
      var n := |all| - 1;
      KeptInOrder(namespaces, selector, all[..n]);
      var before, p := Positions(namespaces, selector, all[..n]), Positions(namespaces, selector, all);
      assert forall k | k in before :: k < n;
      forall k | 0 <= k < |all| ensures k in p <==> Keeps(namespaces, selector, all[k]) {
        assert k < n ==> all[k] == all[..n][k];
        assert k in p <==> k in before || (k == n && Keeps(namespaces, selector, all[n]));
      }
    }
  }

  /** A manifest without a namespace passes a namespace list exactly when "" is listed. */
  lemma NamespaceLess(namespaces: seq<string>, selector: Option<Selector>, m: Manifest)
    requires namespaces != [] && m.namespace == ""
    ensures Kept(namespaces, selector, [m]) == [m] <==>
              && "" in namespaces
              && (selector.Some? ==> selector.value(if m.labels.Some? then m.labels.value else map[]))
  {
    assert [m][..0] == [];
  }

  // ---- filtering and evaluation

  /** The comparison engine, taken pointwise: one result per manifest, in order, unless one of the
      comparisons fails. */
  type Engine = Manifest -> Option<Result>

  function Run(engine: Engine, all: seq<Manifest>): Option<seq<Result>> {
    if all == [] then Some([])
    else
      var n := |all| - 1;
      var before, last := Run(engine, all[..n]), engine(all[n]);
      if before.None? || last.None? then None else Some(before.value + [last.value])
  }

  lemma RunSnoc(engine: Engine, all: seq<Manifest>, m: Manifest)
    ensures Run(engine, all + [m]) == if Run(engine, all).None? || engine(m).None? then None
                                      else Some(Run(engine, all).value + [engine(m).value])
  {
    assert (all + [m])[..|all|] == all;
  }

  /** One result per manifest, in order; or none at all, if one of the comparisons fails. */
  lemma {:induction false} RunPointwise(engine: Engine, all: seq<Manifest>)
    ensures Run(engine, all).Some? <==> forall i | 0 <= i < |all| :: engine(all[i]).Some?
    ensures Run(engine, all).Some? ==>
              && |Run(engine, all).value| == |all|
              && forall i | 0 <= i < |all| :: engine(all[i]) == Some(Run(engine, all).value[i])
  {
    if all != [] {
      var n := |all| - 1;
      RunPointwise(engine, all[..n]);
      assert forall i | 0 <= i < n :: all[i] == all[..n][i];
    }
  }

  /** The results at the positions of kept manifests. */
  function ResultsOfKept(namespaces: seq<string>, selector: Option<Selector>, all: seq<Manifest>, results: seq<Result>)
    : seq<Result>
    requires |results| == |all|
  {
    if all == [] then []
    else
      var n := |all| - 1;
      ResultsOfKept(namespaces, selector, all[..n], results[..n])
      + if Keeps(namespaces, selector, all[n]) then [results[n]] else []
  }

  predicate KeptComparable(engine: Engine, namespaces: seq<string>, selector: Option<Selector>, all: seq<Manifest>) {
    forall m | m in all && Keeps(namespaces, selector, m) :: engine(m).Some?
  }

  lemma KeptSnoc(namespaces: seq<string>, selector: Option<Selector>, all: seq<Manifest>)
    requires all != []
    ensures var n := |all| - 1;
            Kept(namespaces, selector, all) ==
              if Keeps(namespaces, selector, all[n]) then Kept(namespaces, selector, all[..n]) + [all[n]]
              else Kept(namespaces, selector, all[..n])
  {
  }

  /** Only a kept manifest can make the evaluation of a narrowed source fail. */
  lemma {:induction false} FailsOnlyOnKept(engine: Engine, namespaces: seq<string>,
                                           selector: Option<Selector>, all: seq<Manifest>)
    ensures Run(engine, Kept(namespaces, selector, all)).Some? <==> KeptComparable(engine, namespaces, selector, all)
  {
    if all != [] {
      var n := |all| - 1;
      FailsOnlyOnKept(engine, namespaces, selector, all[..n]);
      KeptSnoc(namespaces, selector, all);
      RunSnoc(engine, Kept(namespaces, selector, all[..n]), all[n]);
      assert all == all[..n] + [all[n]];
      hide Kept, Run, Keeps;
    }
  }

  /** Filtering commutes with evaluation: what the engine says of the kept manifests is what it says of
      them among all the others. */
  lemma {:induction false} FilterCommutes(engine: Engine, namespaces: seq<string>,
                                          selector: Option<Selector>, all: seq<Manifest>)
    requires Run(engine, all).Some?
    ensures |Run(engine, all).value| == |all|
    ensures Run(engine, Kept(namespaces, selector, all)) == Some(ResultsOfKept(namespaces, selector, all, Run(engine, all).value))
  {
    if all != [] {
      var n := |all| - 1;
      FilterCommutes(engine, namespaces, selector, all[..n]);
      KeptSnoc(namespaces, selector, all);
      RunSnoc(engine, Kept(namespaces, selector, all[..n]), all[n]);
      assert all == all[..n] + [all[n]];
      RunSnoc(engine, all[..n], all[n]);
      var results := Run(engine, all).value;
      assert results[..n] == Run(engine, all[..n]).value && engine(all[n]) == Some(results[n]);
      var before := ResultsOfKept(namespaces, selector, all[..n], results[..n]);
      assert before + [] == before;
      if Keeps(namespaces, selector, all[n]) {
        assert ResultsOfKept(namespaces, selector, all, results) == before + [results[n]];
      } else {
        assert ResultsOfKept(namespaces, selector, all, results) == before;
      }
    }
  }

  // ---- summaries of disjoint targets add up

  /** The status summary of a target, when the engine gets through. */
  function SummaryFor(engine: Engine, namespaces: seq<string>, selector: Option<Selector>, all: seq<Manifest>): Option<Summary> {
    var r := Run(engine, Kept(namespaces, selector, all));
    if r.None? then None else Some(SummaryOf(r.value))
  }

  /** A summary of one result. */
  function One(s: Status): Summary {
    Summary(if s.Changed? then 1 else 0, if s.New? then 1 else 0, if s.Deleted? then 1 else 0, if s.IsDrift() then 0 else 1)
  }

  lemma SummarySnoc(results: seq<Result>, r: Result)
    ensures SummaryOf(results + [r]) == SummaryOf(results).Plus(One(r.status))
  {
    hide Count, InSync, DriftedOf;
    var t := results + [r];
    assert t[..|results|] == results && t[..|t|] == t;
    OneMore(t, |results|);
  }

  predicate Disjoint(a: seq<string>, b: seq<string>) {
    forall ns | ns in a :: ns !in b
  }

  function Combine(s: Option<Summary>, t: Option<Summary>): Option<Summary> {
    if s.None? || t.None? then None else Some(s.value.Plus(t.value))
  }

  function AddOne(s: Option<Summary>, r: Option<Result>): Option<Summary> {
    if s.None? || r.None? then None else Some(s.value.Plus(One(r.value.status)))
  }

  lemma AddOneToEither(s: Option<Summary>, t: Option<Summary>, r: Option<Result>)
    ensures Combine(AddOne(s, r), t) == AddOne(Combine(s, t), r) == Combine(s, AddOne(t, r))
  {
    hide One;
  }

  lemma SummaryForSnoc(engine: Engine, namespaces: seq<string>, selector: Option<Selector>, all: seq<Manifest>)
    requires all != []
    ensures var n := |all| - 1; var before := SummaryFor(engine, namespaces, selector, all[..n]);
            SummaryFor(engine, namespaces, selector, all) ==
              if Keeps(namespaces, selector, all[n]) then AddOne(before, engine(all[n])) else before
  {
    var n := |all| - 1;
    KeptSnoc(namespaces, selector, all);
    hide Kept, Keeps, SummaryOf, One;
    var before := Kept(namespaces, selector, all[..n]);
    RunSnoc(engine, before, all[n]);
    if Run(engine, before).Some? && engine(all[n]).Some? {
      SummarySnoc(Run(engine, before).value, engine(all[n]).value);
    }
  }

  lemma KeptByOne(a: seq<string>, b: seq<string>, selector: Option<Selector>, m: Manifest)
    requires a != [] && b != [] && Disjoint(a, b)
    ensures Keeps(a + b, selector, m) <==> Keeps(a, selector, m) || Keeps(b, selector, m)
    ensures !(Keeps(a, selector, m) && Keeps(b, selector, m))
  {
  }

  /** Two disjoint lists of namespaces: their summaries add up to the summary of both lists together,
      and the joint evaluation gets through exactly when the two do. The lists must not be empty:
      an empty list means no constraint. */
  lemma {:induction false} DisjointTargetsAddUp(engine: Engine, a: seq<string>, b: seq<string>,
                                                selector: Option<Selector>, all: seq<Manifest>)
    requires a != [] && b != [] && Disjoint(a, b)
    ensures SummaryFor(engine, a + b, selector, all) ==
            Combine(SummaryFor(engine, a, selector, all), SummaryFor(engine, b, selector, all))
  {
    if all == [] {
    } else {
      hide Keeps, SummaryFor, Combine, AddOne, Disjoint;
      var n := |all| - 1;
      DisjointTargetsAddUp(engine, a, b, selector, all[..n]);
      KeptByOne(a, b, selector, all[n]);
      SummaryForSnoc(engine, a, selector, all);
      SummaryForSnoc(engine, b, selector, all);
      SummaryForSnoc(engine, a + b, selector, all);
      AddOneToEither(SummaryFor(engine, a, selector, all[..n]), SummaryFor(engine, b, selector, all[..n]), engine(all[n]));
    }
  }

  /** An empty list is no constraint, so it does not add up: next to a list that keeps one manifest, it
      counts that manifest twice. */
  lemma EmptyListDoesNotAddUp(engine: Engine, m: Manifest)
    requires engine(m).Some?
    ensures SummaryFor(engine, [] + [m.namespace], None, [m]) !=
            Combine(SummaryFor(engine, [], None, [m]), SummaryFor(engine, [m.namespace], None, [m]))
  {
    var ns := [m.namespace];
    assert [] + ns == ns && [m][..0] == [];
    SummaryForSnoc(engine, [], None, [m]);
    SummaryForSnoc(engine, ns, None, [m]);
    assert SummaryFor(engine, [], None, []) == SummaryFor(engine, ns, None, []) == Some(ZERO);
    hide SummaryFor;
  }
}
