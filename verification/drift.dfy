/** Comparison results and the drift status computed from them (summarize, buildEvent). */
module Drift {

  /** A result's status; Other stands for every string that is none of the four constants. */
  datatype Status = Unchanged | Changed | New | Deleted | Other(text: string) {
    function Text(): string {
      match this
      case Unchanged => "unchanged"
      case Changed => "changed"
      case New => "new"
      case Deleted => "deleted"
      case Other(text) => text
    }

    /** The statuses the controller reports as drift. */
    predicate IsDrift() {
      Changed? || New? || Deleted?
    }
  }

  /** One comparison outcome of the external engine. */
  datatype Result = Result(apiVersion: string, kind: string, name: string, namespace: string, status: Status)

  datatype DriftedResource =
    DriftedResource(apiVersion: string, kind: string, name: string, namespace: string, status: Status)

  datatype Summary = Summary(changed: nat, added: nat, deleted: nat, inSync: nat) {
    function Plus(that: Summary): Summary {
      Summary(changed + that.changed, added + that.added, deleted + that.deleted, inSync + that.inSync)
    }
  }

  const ZERO := Summary(0, 0, 0, 0)

  function DriftCount(s: Summary): nat {
    s.changed + s.added + s.deleted
  }

  function ToDrifted(r: Result): DriftedResource {
    DriftedResource(r.apiVersion, r.kind, r.name, r.namespace, r.status)
  }

  /** How many results have the given status. */
  function Count(results: seq<Result>, status: Status): nat {
    if results == [] then 0
    else Count(results[..|results| - 1], status) + if results[|results| - 1].status == status then 1 else 0
  }

  /** The drifted results, in engine order. */
  function Drifting(results: seq<Result>): seq<Result> {
    if results == [] then []
    else
      var r := results[|results| - 1];
      Drifting(results[..|results| - 1]) + if r.status.IsDrift() then [r] else []
  }

  /** What summarize reports as drift: the drifted results, in engine order. */
  function DriftedOf(results: seq<Result>): seq<DriftedResource> {
    if results == [] then []
    else
      var r := results[|results| - 1];
      DriftedOf(results[..|results| - 1]) + if r.status.IsDrift() then [ToDrifted(r)] else []
  }

  /** How many results did not drift, whatever their status says. */
  function InSync(results: seq<Result>): nat {
    if results == [] then 0
    else InSync(results[..|results| - 1]) + if results[|results| - 1].status.IsDrift() then 0 else 1
  }

  function SummaryOf(results: seq<Result>): Summary {
    Summary(Count(results, Changed), Count(results, New), Count(results, Deleted), InSync(results))
  }

  // ---- what the list and the summary are to say

  /** The i-th entry of the list copies the i-th of the results whose status is changed, new or deleted,
      field by field; p holds their positions. */
  ghost predicate ListsDrift(results: seq<Result>, drifted: seq<DriftedResource>, p: seq<nat>) {
    && |p| == |drifted|
    && (forall i, j | 0 <= i < j < |p| :: p[i] < p[j])
    && (forall k :: k in p <==>
          0 <= k < |results| && (results[k].status == Changed || results[k].status == New || results[k].status == Deleted))
    && (forall i | 0 <= i < |p| && p[i] < |results| ::
          && drifted[i].apiVersion == results[p[i]].apiVersion && drifted[i].kind == results[p[i]].kind
          && drifted[i].name == results[p[i]].name && drifted[i].namespace == results[p[i]].namespace
          && drifted[i].status == results[p[i]].status)
  }

  /** Each counter is the number of results of its class; every other status counts as in sync. */
  ghost predicate Tallies(results: seq<Result>, summary: Summary) {
    && summary.changed == |set i | 0 <= i < |results| && results[i].status == Changed|
    && summary.added == |set i | 0 <= i < |results| && results[i].status == New|
    && summary.deleted == |set i | 0 <= i < |results| && results[i].status == Deleted|
    && summary.inSync == |set i | 0 <= i < |results| && results[i].status != Changed && results[i].status != New
                                                     && results[i].status != Deleted|
  }

  function DriftPositions(results: seq<Result>): seq<nat> {
    if results == [] then []
    else
      var n := |results| - 1;
      DriftPositions(results[..n]) + if results[n].status.IsDrift() then [n] else []
  }

  lemma {:induction false} DriftIsListed(results: seq<Result>)
    ensures ListsDrift(results, DriftedOf(results), DriftPositions(results))
  {
    if results != [] {
      var n := |results| - 1;
      DriftIsListed(results[..n]);
      ListedSnoc(results, DriftedOf(results[..n]), DriftPositions(results[..n]));
    }
  }

  lemma ListedSnoc(results: seq<Result>, before: seq<DriftedResource>, q: seq<nat>)
    requires results != [] && ListsDrift(results[..|results| - 1], before, q)
    ensures var n := |results| - 1;
            if results[n].status.IsDrift() then ListsDrift(results, before + [ToDrifted(results[n])], q + [n])
            else ListsDrift(results, before, q)
  {
    var n := |results| - 1;
    assert forall i | 0 <= i < |q| :: q[i] in q && results[..n][q[i]] == results[q[i]];
    forall k ensures k in q <==> 0 <= k < n && results[k].status.IsDrift() {
      assert 0 <= k < n ==> results[..n][k] == results[k];
    }
    assert forall k :: k in q + [n] <==> k in q || k == n;
  }

  /** The positions at which a property of statuses holds. */
  ghost function Places(results: seq<Result>, p: Status -> bool): set<int> {
    set i | 0 <= i < |results| && p(results[i].status)
  }

  lemma PlacesAt(results: seq<Result>, p: Status -> bool, i: int)
    ensures i in Places(results, p) <==> 0 <= i < |results| && p(results[i].status)
  {
  }

  lemma OneMember<T>(before: set<T>, now: set<T>, n: T, more: bool)
    requires n !in before && (n in now <==> more)
    requires before <= now && forall i | i in now :: i in before || i == n
    ensures |now| == |before| + if more then 1 else 0
  {
    if more {
      assert now - {n} == before;
    } else {
      assert now - before == {};
      assert now == before;
    }
  }

  lemma PlacesSnoc(results: seq<Result>, p: Status -> bool)
    requires results != []
    ensures |Places(results, p)| == |Places(results[..|results| - 1], p)| + if p(results[|results| - 1].status) then 1 else 0
  {
    hide Places;
    var n := |results| - 1;
    var before, now := Places(results[..n], p), Places(results, p);
    forall i ensures i in now <==> i in before || (i == n && p(results[n].status)) {
      PlacesAt(results, p, i);
      PlacesAt(results[..n], p, i);
    }
    PlacesAt(results[..n], p, n);
    OneMember(before, now, n, p(results[n].status));
  }

  lemma {:induction false} CountIsCardinality(results: seq<Result>, status: Status)
    ensures Count(results, status) == |Places(results, s => s == status)|
  {
    var p := s => s == status;
    if results == [] {
      assert Places(results, p) == {};
    } else {
      CountIsCardinality(results[..|results| - 1], status);
      PlacesSnoc(results, p);
      hide Places;
    }
  }

  lemma {:induction false} InSyncIsCardinality(results: seq<Result>)
    ensures InSync(results) == |Places(results, (s: Status) => !s.IsDrift())|
  {
    var p := (s: Status) => !s.IsDrift();
    if results == [] {
      assert Places(results, p) == {};
    } else {
      InSyncIsCardinality(results[..|results| - 1]);
      PlacesSnoc(results, p);
      hide Places;
    }
  }

  lemma SummaryTallies(results: seq<Result>)
    ensures Tallies(results, SummaryOf(results))
  {
    CountIsCardinality(results, Changed);
    CountIsCardinality(results, New);
    CountIsCardinality(results, Deleted);
    InSyncIsCardinality(results);
    hide Count, InSync;
    assert Places(results, s => s == Changed) == set i | 0 <= i < |results| && results[i].status == Changed;
    assert Places(results, s => s == New) == set i | 0 <= i < |results| && results[i].status == New;
    assert Places(results, s => s == Deleted) == set i | 0 <= i < |results| && results[i].status == Deleted;
    assert Places(results, (s: Status) => !s.IsDrift())
           == set i | 0 <= i < |results| && results[i].status != Changed && results[i].status != New
                                         && results[i].status != Deleted;
  }

  lemma OneMore(results: seq<Result>, i: nat)
    requires i < |results|
    ensures var r, s, t := results[i], results[..i], results[..i + 1];
            && Count(t, Changed) == Count(s, Changed) + (if r.status.Changed? then 1 else 0)
            && Count(t, New) == Count(s, New) + (if r.status.New? then 1 else 0)
            && Count(t, Deleted) == Count(s, Deleted) + (if r.status.Deleted? then 1 else 0)
            && InSync(t) == InSync(s) + (if r.status.IsDrift() then 0 else 1)
            && DriftedOf(t) == DriftedOf(s) + (if r.status.IsDrift() then [ToDrifted(r)] else [])
  {
    assert results[..i + 1][..i] == results[..i];
  }

  /** The controller's loop: tally every result, keep the drifted ones. */
  method Summarize(results: seq<Result>) returns (drifted: seq<DriftedResource>, summary: Summary)
    ensures drifted == DriftedOf(results)
    ensures summary == SummaryOf(results)
    ensures ListsDrift(results, drifted, DriftPositions(results)) && Tallies(results, summary)
  {
    DriftIsListed(results);
    SummaryTallies(results);
    hide ListsDrift, Tallies;
    drifted := [];
    var changed, added, deleted, inSync := 0, 0, 0, 0;
    for i := 0 to |results|
      invariant drifted == DriftedOf(results[..i])
      invariant changed == Count(results[..i], Changed) && added == Count(results[..i], New)
      invariant deleted == Count(results[..i], Deleted) && inSync == InSync(results[..i])
    {
      var res := results[i];
      OneMore(results, i);
      match res.status {
        case Changed => changed := changed + 1;
        case New => added := added + 1;
        case Deleted => deleted := deleted + 1;
        case _ =>
          inSync := inSync + 1;
          continue;
      }
      drifted := drifted + [DriftedResource(res.apiVersion, res.kind, res.name, res.namespace, res.status)];
    }
    assert results[..|results|] == results;
    summary := Summary(changed, added, deleted, inSync);
  }

  lemma {:induction false} NoResultLost(results: seq<Result>)
    ensures DriftCount(SummaryOf(results)) + InSync(results) == |results|
  {
    if results != [] {
      NoResultLost(results[..|results| - 1]);
    }
  }

  lemma {:induction false} DriftLength(results: seq<Result>)
    ensures |DriftedOf(results)| + InSync(results) == |results|
  {
    if results != [] {
      DriftLength(results[..|results| - 1]);
    }
  }

  /** Conservation: no result is lost, and the drift list is as long as the drift counters say. */
  lemma SummaryConserves(results: seq<Result>)
    ensures DriftCount(SummaryOf(results)) + SummaryOf(results).inSync == |results|
    ensures DriftCount(SummaryOf(results)) == |DriftedOf(results)|
  {
    NoResultLost(results);
    DriftLength(results);
  }

  /** A result is listed exactly when its status is changed, new or deleted; every other status, known
      or not, counts as in sync. */
  lemma {:induction false} OnlyDrift(results: seq<Result>)
    ensures forall d | d in DriftedOf(results) :: d.status.IsDrift()
    ensures forall r | r in results :: ToDrifted(r) in DriftedOf(results) <==> r.status.Changed? || r.status.New? || r.status.Deleted?
    ensures SummaryOf(results).inSync == Count(results, Unchanged) + OtherCount(results)
  {
    if results != [] {
      var n := |results| - 1;
      OnlyDrift(results[..n]);
      assert results == results[..n] + [results[n]];
    }
  }

  /** How many results have a status that is none of the four constants. */
  function OtherCount(results: seq<Result>): nat {
    if results == [] then 0
    else OtherCount(results[..|results| - 1]) + if results[|results| - 1].status.Other? then 1 else 0
  }

  /** The drift list is the image of the drifted results, in engine order. */
  lemma {:induction false} DriftListInOrder(results: seq<Result>)
    ensures |DriftedOf(results)| == |Drifting(results)|
    ensures forall i | 0 <= i < |Drifting(results)| :: DriftedOf(results)[i] == ToDrifted(Drifting(results)[i])
    ensures ListsDrift(results, DriftedOf(results), DriftPositions(results))
  {
    DriftIsListed(results);
    if results != [] {
      hide ListsDrift;
      DriftListInOrder(results[..|results| - 1]);
    }
  }

  /** The status strings of the engine. */
  lemma StatusTexts(text: string)
    ensures Unchanged.Text() == "unchanged" && Changed.Text() == "changed" && New.Text() == "new"
    ensures Deleted.Text() == "deleted" && Other(text).Text() == text
  {
  }

  lemma TextInjective(s: Status, t: Status)
    requires s.IsDrift() && t.IsDrift()
    requires s.Text() == t.Text()
    ensures s == t
  {
    assert "changed"[0] != "new"[0] && "changed"[0] != "deleted"[0] && "new"[0] != "deleted"[0];
  }

  /** The webhook payload's view of a drifted resource. */
  datatype Resource = Resource(apiVersion: string, kind: string, name: string, namespace: string, status: string)

  datatype Event =
    Event(name: string, namespace: string, summary: Summary, drifted: seq<Resource>, resolved: bool)

  function ToResource(d: DriftedResource): Resource {
    Resource(d.apiVersion, d.kind, d.name, d.namespace, d.status.Text())
  }

  function EventOf(name: string, namespace: string, drifted: seq<DriftedResource>, summary: Summary, resolved: bool): Event {
    Event(name, namespace, summary,
          if resolved then [] else seq(|drifted|, i requires 0 <= i < |drifted| => ToResource(drifted[i])),
          resolved)
  }

  /** The event says what it is to say: whose it is, the tally, whether all is resolved, and, unless it
      is, each drifted resource in turn, field by field. */
  predicate Tells(ev: Event, name: string, namespace: string, drifted: seq<DriftedResource>, summary: Summary, resolved: bool) {
    && ev.name == name && ev.namespace == namespace && ev.summary == summary && ev.resolved == resolved
    && (resolved ==> ev.drifted == [])
    && (!resolved ==>
          && |ev.drifted| == |drifted|
          && forall i | 0 <= i < |drifted| :: TellsOf(ev.drifted[i], drifted[i]))
  }

  predicate TellsOf(r: Resource, d: DriftedResource) {
    && r.apiVersion == d.apiVersion && r.kind == d.kind && r.name == d.name && r.namespace == d.namespace
    && (d.status == Changed ==> r.status == "changed")
    && (d.status == New ==> r.status == "new")
    && (d.status == Deleted ==> r.status == "deleted")
  }

  lemma EventTells(name: string, namespace: string, drifted: seq<DriftedResource>, summary: Summary, resolved: bool)
    ensures Tells(EventOf(name, namespace, drifted, summary, resolved), name, namespace, drifted, summary, resolved)
  {
    var ev := EventOf(name, namespace, drifted, summary, resolved);
    if !resolved {
      forall i | 0 <= i < |drifted| ensures TellsOf(ev.drifted[i], drifted[i]) {
        assert ev.drifted[i] == ToResource(drifted[i]);
        StatusTexts("");
      }
    }
  }

  method BuildEvent(name: string, namespace: string, drifted: seq<DriftedResource>, summary: Summary, resolved: bool)
    returns (ev: Event)
    ensures ev == EventOf(name, namespace, drifted, summary, resolved)
    ensures Tells(ev, name, namespace, drifted, summary, resolved)
  {
    EventTells(name, namespace, drifted, summary, resolved);
    hide Tells;
    var listed := [];
    if !resolved {
      for i := 0 to |drifted|
        invariant |listed| == i
        invariant forall j | 0 <= j < i :: listed[j] == ToResource(drifted[j])
      {
        var d := drifted[i];
        listed := listed + [Resource(d.apiVersion, d.kind, d.name, d.namespace, d.status.Text())];
      }
    }
    ev := Event(name, namespace, summary, listed, resolved);
  }

  /** An event that is not "resolved" determines the drift list it was built from. */
  lemma EventCarriesDrift(name: string, namespace: string,
                          a: seq<DriftedResource>, b: seq<DriftedResource>, s: Summary, t: Summary)
    requires forall d | d in a + b :: d.status.IsDrift()
    requires EventOf(name, namespace, a, s, false) == EventOf(name, namespace, b, t, false)
    ensures a == b && s == t
  {
    var ea := EventOf(name, namespace, a, s, false).drifted;
    var eb := EventOf(name, namespace, b, t, false).drifted;
    assert |ea| == |a| && |eb| == |b|;
    forall i | 0 <= i < |a| ensures a[i] == b[i] {
      assert ea[i] == ToResource(a[i]) && eb[i] == ToResource(b[i]);
      assert a[i] in a + b && b[i] in a + b;
      TextInjective(a[i].status, b[i].status);
    }
  }
}
