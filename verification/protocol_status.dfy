/** What the controller's status writes store, in literal terms. */
module ProtocolStatus {
  import opened Text
  import opened Drift
  import opened Fingerprint
  import opened Metrics
  import opened Protocol
  import opened ProtocolInvariant

  /** There is exactly one condition of type Ready, and this is what it says. */
  predicate OneReady(cs: seq<Condition>, holds: bool, reason: string, generation: nat) {
    exists i | 0 <= i < |cs| ::
      && cs[i].kind == "Ready" && cs[i].holds == holds && cs[i].reason == reason && cs[i].observedGeneration == generation
      && forall j | 0 <= j < |cs| && j != i :: cs[j].kind != "Ready"
  }

  /** The conditions of other types are the same. */
  ghost predicate OthersKept(cs: seq<Condition>, before: seq<Condition>) {
    forall c: Condition | c.kind != "Ready" :: multiset(cs)[c] == multiset(before)[c]
  }

  /** The status after a successful evaluation: Ready, for this generation, with the drift of the
      results. The fingerprint last announced stays. */
  ghost predicate SaysEvaluated(st: DriftStatus, before: DriftStatus, generation: nat, results: seq<Result>) {
    && OneReady(st.conditions, true, "DriftEvaluated", generation) && OthersKept(st.conditions, before.conditions)
    && st.observedGeneration == generation
    && ListsDrift(results, st.drifted, DriftPositions(results)) && Tallies(results, st.summary)
    && st.lastNotifiedHash == before.lastNotifiedHash
  }

  /** The status after a failure: not Ready, for this generation and reason; the rest stays. */
  ghost predicate SaysFailed(st: DriftStatus, before: DriftStatus, generation: nat, reason: string) {
    && OneReady(st.conditions, false, reason, generation) && OthersKept(st.conditions, before.conditions)
    && st.observedGeneration == before.observedGeneration
    && st.drifted == before.drifted && st.summary == before.summary
    && st.lastNotifiedHash == before.lastNotifiedHash
  }

  // ---- the condition list

  lemma {:induction false} NoneOfKind(cs: seq<Condition>, kind: string)
    requires OfKind(cs, kind) == []
    ensures forall j | 0 <= j < |cs| :: cs[j].kind != kind
  {
    if cs != [] {
      assert |OfKind(cs, kind)| == (if cs[0].kind == kind then 1 else 0) + |OfKind(cs[1..], kind)|;
      NoneOfKind(cs[1..], kind);
      assert forall j | 0 < j < |cs| :: cs[j] == cs[1..][j - 1];
    }
  }

  lemma {:induction false} OneOfKind(cs: seq<Condition>, c: Condition) returns (i: nat)
    requires OfKind(cs, c.kind) == [c]
    ensures i < |cs| && cs[i] == c && forall j | 0 <= j < |cs| && j != i :: cs[j].kind != c.kind
  {
    var rest := cs[1..];
    if cs[0].kind == c.kind {
      var all := [cs[0]] + OfKind(rest, c.kind);
      assert all == [c] && all[0] == cs[0] && |all| == 1 + |OfKind(rest, c.kind)|;
      NoneOfKind(rest, c.kind);
      i := 0;
      assert forall j | 0 < j < |cs| :: cs[j] == rest[j - 1] && rest[j - 1].kind != c.kind;
    } else {
      assert OfKind(cs, c.kind) == [] + OfKind(rest, c.kind);
      var k := OneOfKind(rest, c);
      i := k + 1;
      assert forall j | 0 < j < |cs| && j != i :: cs[j] == rest[j - 1] && rest[j - 1].kind != c.kind;
    }
  }

  lemma {:induction false} SetKeepsOthers(cs: seq<Condition>, c: Condition, other: Condition)
    requires other.kind != c.kind
    ensures multiset(SetCondition(cs, c))[other] == multiset(cs)[other]
  {
    if cs != [] {
      var rest := cs[1..];
      assert cs == [cs[0]] + rest;
      if cs[0].kind != c.kind {
        SetKeepsOthers(rest, c, other);
      }
    }
  }

  lemma ReadySet(cs: seq<Condition>, holds: bool, reason: string, generation: nat)
    requires |OfKind(cs, READY)| <= 1
    ensures var changed := SetCondition(cs, Condition(READY, holds, reason, generation));
            OneReady(changed, holds, reason, generation) && OthersKept(changed, cs)
  {
    var c := Condition(READY, holds, reason, generation);
    SetConditionEffect(cs, c, READY);
    var i := OneOfKind(SetCondition(cs, c), c);
    forall other: Condition | other.kind != "Ready"
      ensures multiset(SetCondition(cs, c))[other] == multiset(cs)[other]
    {
      SetKeepsOthers(cs, c, other);
    }
  }

  /** The readings of the Ready condition that the invariant speaks of are those of the one condition. */
  lemma ReadyReads(st: DriftStatus, holds: bool, reason: string, generation: nat)
    requires OfKind(st.conditions, "Ready") == [Condition("Ready", holds, reason, generation)]
    ensures IsReady(st) == holds && ReadyGeneration(st) == generation
  {
  }

  // ---- the status in memory

  lemma EvaluationSays(dc: Object, results: seq<Result>)
    requires StatusOk(dc.status, dc.generation)
    ensures SaysEvaluated(EvaluatedStatus(dc, results), dc.status, dc.generation, results)
  {
    ReadySet(dc.status.conditions, true, "DriftEvaluated", dc.generation);
    DriftIsListed(results);
    SummaryTallies(results);
    hide SetCondition, ListsDrift, Tallies, OneReady, OthersKept;
  }

  lemma FailureSays(dc: Object, reason: string)
    requires StatusOk(dc.status, dc.generation)
    ensures SaysFailed(FailedStatus(dc, reason), dc.status, dc.generation, reason)
  {
    ReadySet(dc.status.conditions, false, reason, dc.generation);
    hide SetCondition, OneReady, OthersKept;
  }

  /** A fingerprint write changes the fingerprint only. */
  lemma StampSays(dc: Object, hash: string)
    ensures var st := StampedStatus(dc, hash);
            && st.lastNotifiedHash == hash
            && st.drifted == dc.status.drifted && st.summary == dc.status.summary
            && st.observedGeneration == dc.status.observedGeneration && st.conditions == dc.status.conditions
  {
  }

  // ---- over runs

  lemma {:induction false} EnvironmentKeepsPc(cfg: Config, s: State, between: seq<Step>)
    requires forall a | a in between :: IsEnvironment(a)
    ensures After(cfg, s, between).pc == s.pc && After(cfg, s, between).log == s.log
    ensures s.server.history <= After(cfg, s, between).server.history
  {
    if between != [] {
      var n := |between| - 1;
      EnvironmentKeepsPc(cfg, s, between[..n]);
      assert IsEnvironment(between[n]);
    }
  }

  /** How a reconcile comes to a verdict: an evaluation with these results, or a failure. */
  predicate Judges(a: Step) {
    a.Evaluate? || (a.Fail? && !a.verdict.Evaluated?)
  }

  ghost predicate Says(st: DriftStatus, before: DriftStatus, generation: nat, judgement: Step)
    requires Judges(judgement)
  {
    if judgement.Evaluate? then SaysEvaluated(st, before, generation, judgement.results)
    else SaysFailed(st, before, generation, judgement.reason)
  }

  lemma JudgementSays(cfg: Config, s: State, judgement: Step)
    requires Core(cfg, s) && s.pc.Loaded? && Judges(judgement)
    ensures var t := Next(cfg, s, judgement);
            && t.pc.Judged? && t.server == s.server && t.log == s.log
            && t.pc.dc == WithStatus(s.pc.dc, t.pc.dc.status)
            && Says(t.pc.dc.status, s.pc.dc.status, s.pc.dc.generation, judgement)
  {
    hide LogInv, HashInv, OpenInv;
    var dc := s.pc.dc;
    assert StatusOk(dc.status, dc.generation);
    if judgement.Evaluate? {
      EvaluationSays(dc, judgement.results);
      hide SaysEvaluated, SaysFailed, StatusOk, EvaluatedStatus;
    } else {
      FailureSays(dc, judgement.reason);
      hide SaysEvaluated, SaysFailed, StatusOk, FailedStatus;
    }
  }

  /** What a reconcile stores, from any reachable state at rest: it reads version v and comes to a
      verdict, others act on the object, and the status is written. The write is stored exactly when it
      is not refused and v is still the live version; then the new live version is v with the status
      that the verdict calls for, and else the server is as it was. */
  lemma VerdictIsStored(cfg: Config, gauges: map<Series, nat>, run: seq<Step>, v: nat, judgement: Step,
                        between: seq<Step>, reply: Reply)
    requires After(cfg, Init(gauges), run).pc.Idle? && v < |After(cfg, Init(gauges), run).server.history|
    requires Judges(judgement) && forall a | a in between :: IsEnvironment(a)
    ensures var s := After(cfg, Init(gauges), run);
            var u := After(cfg, s, [Get(Some(v)), judgement] + between);
            var t := Next(cfg, u, Put(reply));
            var o := s.server.history[v];
            if !reply.Rejected? && u.server.current == Some(o) then
              && t.server.current.Some?
              && Live(t.server).uid == o.uid && Live(t.server).generation == o.generation && Live(t.server).spec == o.spec
              && t.server.history == u.server.history + [Live(t.server)]
              && Says(Live(t.server).status, o.status, o.generation, judgement)
            else t.server == u.server
  {
    hide Core, After, Says, Judges;
    var s := After(cfg, Init(gauges), run);
    RunKeepsCore(cfg, gauges, run);
    var s1 := Next(cfg, s, Get(Some(v)));
    NextKeepsCore(cfg, s, Get(Some(v)));
    assert s1.pc == Loaded(s.server.history[v]) && s1.server == s.server;
    JudgementSays(cfg, s1, judgement);
    NextKeepsCore(cfg, s1, judgement);
    AfterTwo(cfg, s, Get(Some(v)), judgement);
    var s2 := After(cfg, s, [Get(Some(v)), judgement]);
    AfterAppend(cfg, s, [Get(Some(v)), judgement], between);
    EnvironmentKeepsPc(cfg, s2, between);
    KeepsCoreBetween(cfg, s2, between);
    StoreOrNot(cfg, After(cfg, s2, between), v, s.server.history[v], reply);
  }

  lemma {:induction false} KeepsCoreBetween(cfg: Config, s: State, between: seq<Step>)
    requires Core(cfg, s)
    ensures Core(cfg, After(cfg, s, between))
  {
    hide Core, Next;
    if between != [] {
      var n := |between| - 1;
      KeepsCoreBetween(cfg, s, between[..n]);
      NextKeepsCore(cfg, After(cfg, s, between[..n]), between[n]);
    }
  }

  lemma StoreOrNot(cfg: Config, u: State, v: nat, o: Object, reply: Reply)
    requires Core(cfg, u) && u.pc.Judged? && u.pc.dc == WithStatus(o, u.pc.dc.status)
    requires v < |u.server.history| && u.server.history[v] == o
    ensures var t := Next(cfg, u, Put(reply));
            if !reply.Rejected? && u.server.current == Some(o) then
              && t.server.current.Some? && Live(t.server).status == u.pc.dc.status
              && Live(t.server).uid == o.uid && Live(t.server).generation == o.generation && Live(t.server).spec == o.spec
              && t.server.history == u.server.history + [Live(t.server)]
            else t.server == u.server
  {
    hide LogInv, HashInv, OpenInv, PcInv, StatusOk, Before;
    if Accepts(u.server, u.pc.dc) {
      assert Live(u.server) == u.server.history[|u.server.history| - 1];
      assert u.server.history[v].version == v == Live(u.server).version == |u.server.history| - 1;
    }
  }

  /** A stored fingerprint write puts the round's fingerprint into the live status and changes nothing
      else there. */
  lemma StampIsStored(cfg: Config, gauges: map<Series, nat>, run: seq<Step>, reply: Reply)
    requires After(cfg, Init(gauges), run).pc.Stamping?
    requires var s := After(cfg, Init(gauges), run); !reply.Rejected? && Accepts(s.server, s.pc.dc)
    ensures var s := After(cfg, Init(gauges), run);
            var t := Next(cfg, s, Put(reply));
            && s.server.current.Some? && t.server.current.Some? && s.log != []
            && StampedOnly(Live(t.server), Live(s.server), Last(s.log).fingerprint)
  {
    hide After, ServerInv, LogInv, HashInv, OpenInv, StampedStatus;
    RunKeepsCore(cfg, gauges, run);
    var s := After(cfg, Init(gauges), run);
    AcceptedIsRead(s.server, s.pc.dc);
    LiveVersion(s.server);
    StampSays(Live(s.server), Last(s.log).fingerprint);
  }

  lemma LiveVersion(sv: Server)
    requires ServerInv(sv) && sv.current.Some?
    ensures Live(sv).version < |sv.history| && sv.history[Live(sv).version] == Live(sv)
  {
  }

  predicate StampedOnly(now: Object, before: Object, hash: string) {
    && now.uid == before.uid && now.generation == before.generation && now.spec == before.spec
    && now.status.lastNotifiedHash == hash
    && now.status.drifted == before.status.drifted && now.status.summary == before.status.summary
    && now.status.observedGeneration == before.status.observedGeneration
    && now.status.conditions == before.status.conditions
  }
}
