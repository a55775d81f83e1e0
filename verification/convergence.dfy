/** What one undisturbed reconcile achieves, and why nothing is sent afterwards. */
module Convergence {
  import opened Text
  import opened Drift
  import opened Fingerprint
  import opened Metrics
  import opened Protocol
  import opened ProtocolInvariant
  import opened ProtocolSafety

  // ---- one reconcile on a current read

  /** From the cached read to notify's decision, every write acknowledged. */
  function Prepare(version: nat, results: seq<Result>): seq<Step> {
    [Get(Some(version)), Evaluate(results), Put(Accepted), SetGauge, SetGauge, SetGauge, SetGauge, Decide]
  }

  /** One turn per entry of acks. */
  function Sends(secrets: Secrets, acks: seq<bool>): seq<Step> {
    if acks == [] then [] else Sends(secrets, acks[..|acks| - 1]) + [Send(secrets, acks[|acks| - 1])]
  }

  function Cycle(version: nat, results: seq<Result>, secrets: Secrets, acks: seq<bool>): seq<Step> {
    Prepare(version, results) + Sends(secrets, acks) + [EndSends, Put(Accepted)]
  }

  /** The version an undisturbed evaluation stores. */
  function Reported(sv: Server, results: seq<Result>): Object
    requires sv.current.Some?
  {
    var o := Live(sv);
    Object(o.uid, o.generation, |sv.history|, o.spec, EvaluatedStatus(o, results))
  }

  function AttemptsOf(secrets: Secrets, webhooks: seq<Webhook>, acks: seq<bool>): seq<Attempt>
    requires |acks| <= |webhooks|
  {
    seq(|acks|, i requires 0 <= i < |acks| => AttemptOf(secrets, webhooks[i], acks[i]))
  }

  function Tried(r: Round, attempts: seq<Attempt>): Round {
    Round(r.uid, r.version, r.drifted, r.webhooks, r.event, r.fingerprint, attempts, r.fate)
  }

  lemma HasHistory(cfg: Config, s: State)
    requires Core(cfg, s) && s.server.current.Some?
    ensures s.server.history != []
  {
  }

  lemma LiveIsLast(cfg: Config, s: State)
    requires Core(cfg, s) && s.server.current.Some?
    ensures s.server.history != []
    ensures Live(s.server) == s.server.history[|s.server.history| - 1] && Live(s.server).version == |s.server.history| - 1
  {
    hide LogInv, HashInv, OpenInv, PcInv;
  }

  lemma ReadEffect(cfg: Config, s: State)
    requires Core(cfg, s) && s.pc.Idle? && s.server.current.Some? && s.server.history != []
    ensures Next(cfg, s, Get(Some(|s.server.history| - 1)))
            == State(s.server, s.gauges, Loaded(Live(s.server)), s.log, s.shown, s.unrecorded)
  {
    hide Core;
    LiveIsLast(cfg, s);
  }

  lemma EvaluateEffect(cfg: Config, s: State, results: seq<Result>)
    requires s.pc.Loaded?
    ensures Next(cfg, s, Evaluate(results))
            == State(s.server, s.gauges, Judged(WithStatus(s.pc.dc, EvaluatedStatus(s.pc.dc, results)), Evaluated),
                     s.log, s.shown, s.unrecorded)
  {
    hide EvaluatedStatus;
  }

  lemma StoreEffect(cfg: Config, s: State, o: Object)
    requires s.pc.Judged? && s.pc.verdict.Evaluated? && Accepts(s.server, s.pc.dc)
    requires o == Object(Live(s.server).uid, Live(s.server).generation, |s.server.history|, Live(s.server).spec, s.pc.dc.status)
    ensures Next(cfg, s, Put(Accepted))
            == State(Server(Some(o), s.server.history + [o], s.server.uids), s.gauges, Recording(o, 0), s.log, s.shown, s.unrecorded)
  {
  }

  lemma FirstLabel(cfg: Config, s: State)
    requires s.pc.Recording? && s.pc.labels == 0
    ensures Next(cfg, s, SetGauge)
            == State(s.server, s.gauges[Series(cfg.check, LABELS[0]) := Reading(s.pc.dc.status.summary, LABELS[0])],
                     Recording(s.pc.dc, 1), s.log, s.shown, s.unrecorded)
  {
    hide Reading;
  }

  /** The first half of the preparation: up to the stored evaluation and the first gauge. */
  lemma EvaluationStored(cfg: Config, s: State, results: seq<Result>)
    requires Core(cfg, s) && s.pc.Idle? && s.server.current.Some? && s.server.history != []
    ensures var o := Reported(s.server, results);
            After(cfg, s, [Get(Some(|s.server.history| - 1)), Evaluate(results), Put(Accepted), SetGauge])
            == State(Server(Some(o), s.server.history + [o], s.server.uids),
                     s.gauges[Series(cfg.check, LABELS[0]) := Reading(o.status.summary, LABELS[0])],
                     Recording(o, 1), s.log, s.shown, s.unrecorded)
  {
    hide Core, EvaluatedStatus, Reading, After, Next;
    var live, o := Live(s.server), Reported(s.server, results);
    LiveIsLast(cfg, s);
    ReadEffect(cfg, s);
    var s1 := State(s.server, s.gauges, Loaded(live), s.log, s.shown, s.unrecorded);
    EvaluateEffect(cfg, s1, results);
    var s2 := State(s.server, s.gauges, Judged(WithStatus(live, EvaluatedStatus(live, results)), Evaluated), s.log,
                    s.shown, s.unrecorded);
    StoreEffect(cfg, s2, o);
    FirstLabel(cfg, Next(cfg, s2, Put(Accepted)));
    AfterFour(cfg, s, Get(Some(|s.server.history| - 1)), Evaluate(results), Put(Accepted), SetGauge);
  }

  /** The second half: the other gauges and the decision. */
  lemma RecordedAndDecided(cfg: Config, s: State)
    requires s.pc.Recording? && s.pc.labels == 1
    ensures var t := After(cfg, s, [SetGauge, SetGauge, SetGauge, Decide]);
            var dc := s.pc.dc;
            && t.server == s.server && t.shown == Some(dc.version)
            && t.pc == (if MustSend(cfg, dc) then Sending(dc, false) else Idle)
            && t.log == s.log + (if MustSend(cfg, dc) then [NewRound(cfg, dc)] else [])
  {
    hide MustSend, NewRound, Reading, After;
    var dc := s.pc.dc;
    var s2 := Next(cfg, s, SetGauge);
    assert s2.pc == Recording(dc, 2) && s2.server == s.server && s2.log == s.log;
    var s3 := Next(cfg, s2, SetGauge);
    assert s3.pc == Recording(dc, 3) && s3.server == s.server && s3.log == s.log;
    var s4 := Next(cfg, s3, SetGauge);
    assert s4.pc == Deciding(dc) && s4.server == s.server && s4.log == s.log;
    AfterFour(cfg, s, SetGauge, SetGauge, SetGauge, Decide);
    MustSendHasWebhooks(cfg, dc);
  }

  lemma MustSendHasWebhooks(cfg: Config, dc: Object)
    ensures MustSend(cfg, dc) ==> dc.spec.notify.Some? && dc.spec.notify.value != []
  {
  }

  lemma Prepared(cfg: Config, s: State, results: seq<Result>)
    requires Core(cfg, s) && s.pc.Idle? && s.server.current.Some?
    ensures var t := After(cfg, s, Prepare(|s.server.history| - 1, results));
            var o := Reported(s.server, results);
            && t.server == Server(Some(o), s.server.history + [o], s.server.uids)
            && t.shown == Some(o.version)
            && t.pc == (if MustSend(cfg, o) then Sending(o, false) else Idle)
            && (MustSend(cfg, o) ==> o.spec.notify.Some?)
            && t.log == s.log + (if MustSend(cfg, o) then [NewRound(cfg, o)] else [])
  {
    hide Core, MustSend, NewRound, Reading, Reported, After, Next;
    HasHistory(cfg, s);
    var v := |s.server.history| - 1;
    var a, b := [Get(Some(v)), Evaluate(results), Put(Accepted), SetGauge], [SetGauge, SetGauge, SetGauge, Decide];
    LiveIsLast(cfg, s);
    EvaluationStored(cfg, s, results);
    RecordedAndDecided(cfg, After(cfg, s, a));
    AfterAppend(cfg, s, a, b);
    assert a + b == Prepare(v, results);
    MustSendHasWebhooks(cfg, Reported(s.server, results));
  }

  predicate AnyRefused(attempts: seq<Attempt>) {
    exists a | a in attempts :: !a.acked
  }

  lemma SendEffect(cfg: Config, s: State, secrets: Secrets, ok: bool)
    requires s.pc.Sending? && s.log != [] && |Last(s.log).attempts| < |Last(s.log).webhooks|
    ensures var r := Last(s.log);
            var at := AttemptOf(secrets, r.webhooks[|r.attempts|], ok);
            Next(cfg, s, Send(secrets, ok))
            == State(s.server, s.gauges, Sending(s.pc.dc, s.pc.failed || !at.acked), SetLast(s.log, Attempted(r, at)),
                     s.shown, s.unrecorded)
  {
    hide AttemptOf;
  }

  lemma OneMoreAttempt(secrets: Secrets, webhooks: seq<Webhook>, acks: seq<bool>)
    requires 0 < |acks| <= |webhooks|
    ensures var n := |acks| - 1;
            var at := AttemptOf(secrets, webhooks[n], acks[n]);
            && |AttemptsOf(secrets, webhooks, acks[..n])| == n
            && AttemptsOf(secrets, webhooks, acks) == AttemptsOf(secrets, webhooks, acks[..n]) + [at]
            && (AnyRefused(AttemptsOf(secrets, webhooks, acks))
                <==> AnyRefused(AttemptsOf(secrets, webhooks, acks[..n])) || !at.acked)
  {
    hide AttemptOf;
    var n := |acks| - 1;
    var before, attempts := AttemptsOf(secrets, webhooks, acks[..n]), AttemptsOf(secrets, webhooks, acks);
    assert attempts == before + [AttemptOf(secrets, webhooks[n], acks[n])];
    assert forall x :: x in attempts <==> x in before || x == AttemptOf(secrets, webhooks[n], acks[n]);
  }

  lemma SetLastTwice(log: seq<Round>, r: Round, q: Round)
    requires log != []
    ensures SetLast(log, r) != [] && Last(SetLast(log, r)) == r && SetLast(SetLast(log, r), q) == SetLast(log, q)
  {
  }

  lemma AfterOneMoreSend(cfg: Config, s: State, secrets: Secrets, acks: seq<bool>)
    requires acks != []
    ensures var n := |acks| - 1;
            After(cfg, s, Sends(secrets, acks)) == Next(cfg, After(cfg, s, Sends(secrets, acks[..n])), Send(secrets, acks[n]))
  {
    var n := |acks| - 1;
    var before := Sends(secrets, acks[..n]);
    assert Sends(secrets, acks) == before + [Send(secrets, acks[n])];
    hide Sends, Next, After;
    AfterSnoc(cfg, s, before, Send(secrets, acks[n]));
  }

  /** t is s after the webhooks of its round have been tried as acks says. */
  predicate HasTried(s: State, t: State, secrets: Secrets, acks: seq<bool>)
    requires s.pc.Sending? && s.log != [] && |acks| <= |Last(s.log).webhooks|
  {
    var attempts := AttemptsOf(secrets, Last(s.log).webhooks, acks);
    && t.server == s.server && t.log == SetLast(s.log, Tried(Last(s.log), attempts))
    && t.pc == Sending(s.pc.dc, AnyRefused(attempts))
  }

  lemma TriesOneMore(cfg: Config, s: State, t: State, secrets: Secrets, acks: seq<bool>)
    requires s.pc.Sending? && s.log != [] && 0 < |acks| <= |Last(s.log).webhooks|
    requires HasTried(s, t, secrets, acks[..|acks| - 1])
    ensures HasTried(s, Next(cfg, t, Send(secrets, acks[|acks| - 1])), secrets, acks)
  {
    hide AttemptOf, Next, AttemptsOf, AnyRefused, SetLast;
    var r, n := Last(s.log), |acks| - 1;
    OneMoreAttempt(secrets, r.webhooks, acks);
    SetLastTwice(s.log, Tried(r, AttemptsOf(secrets, r.webhooks, acks[..n])), Tried(r, AttemptsOf(secrets, r.webhooks, acks)));
    SendEffect(cfg, t, secrets, acks[n]);
  }

  /** The send loop tries the webhooks in order, one turn each. */
  lemma {:induction false} SendsEffect(cfg: Config, s: State, secrets: Secrets, acks: seq<bool>)
    requires s.pc.Sending? && !s.pc.failed && s.log != [] && Last(s.log).attempts == []
    requires |acks| <= |Last(s.log).webhooks|
    ensures HasTried(s, After(cfg, s, Sends(secrets, acks)), secrets, acks)
  {
    if acks == [] {
      hide Next;
      assert AttemptsOf(secrets, Last(s.log).webhooks, acks) == [];
      assert SetLast(s.log, Tried(Last(s.log), [])) == s.log;
    } else {
      hide HasTried, After, Sends, Next;
      var n := |acks| - 1;
      SendsEffect(cfg, s, secrets, acks[..n]);
      AfterOneMoreSend(cfg, s, secrets, acks);
      TriesOneMore(cfg, s, After(cfg, s, Sends(secrets, acks[..n])), secrets, acks);
    }
  }

  lemma SendIdle(cfg: Config, s: State, secrets: Secrets, ok: bool)
    requires s.pc.Idle?
    ensures Next(cfg, s, Send(secrets, ok)) == s
  {
  }

  /** Without a round to send, the rest of the cycle does nothing. */
  lemma {:induction false} SendsIdle(cfg: Config, s: State, secrets: Secrets, acks: seq<bool>)
    requires s.pc.Idle?
    ensures After(cfg, s, Sends(secrets, acks)) == s
  {
    hide Next;
    if acks != [] {
      hide After, Sends;
      var n := |acks| - 1;
      SendsIdle(cfg, s, secrets, acks[..n]);
      AfterOneMoreSend(cfg, s, secrets, acks);
      SendIdle(cfg, s, secrets, acks[n]);
    }
  }

  /** The end of a round whose webhooks have all had their turn. */
  lemma ConcludedEffect(cfg: Config, s: State)
    requires s.pc.Sending? && s.log != [] && |Last(s.log).attempts| == |Last(s.log).webhooks|
    requires s.server.current == Some(s.pc.dc) && s.pc.dc.version < |s.server.history|
    ensures var t := After(cfg, s, [EndSends, Put(Accepted)]);
            var r, dc := Last(s.log), s.pc.dc;
            && t.pc.Idle? && t.server.current.Some?
            && t.log == SetLast(s.log, Concluded(r, if s.pc.failed then Undelivered else Recorded))
            && (s.pc.failed ==> t.server == s.server)
            && (!s.pc.failed ==> Live(t.server) == Object(dc.uid, dc.generation, |s.server.history|, dc.spec,
                                                          StampedStatus(dc, r.fingerprint)))
  {
    hide StampedStatus, After;
    AfterTwo(cfg, s, EndSends, Put(Accepted));
    var u := Next(cfg, s, EndSends);
    if s.pc.failed {
      assert u.pc.Idle? && u.log == SetLast(s.log, Concluded(Last(s.log), Undelivered)) && u.server == s.server;
    } else {
      assert u.pc == Stamping(WithStatus(s.pc.dc, StampedStatus(s.pc.dc, Last(s.log).fingerprint))) && u.log == s.log;
    }
  }

  /** The result of an undisturbed reconcile on a current read. */
  lemma CycleEffect(cfg: Config, s: State, results: seq<Result>, secrets: Secrets, acks: seq<bool>)
    requires Core(cfg, s) && s.pc.Idle? && s.server.current.Some?
    requires Live(s.server).spec.notify.Some? && |acks| == |Live(s.server).spec.notify.value|
    ensures var t := After(cfg, s, Cycle(|s.server.history| - 1, results, secrets, acks));
            var o := Reported(s.server, results);
            var attempts := AttemptsOf(secrets, o.spec.notify.value, acks);
            var failed := AnyRefused(attempts);
            && t.pc.Idle? && t.server.current.Some?
            && (!MustSend(cfg, o) ==> Live(t.server) == o && t.log == s.log)
            && (MustSend(cfg, o) ==>
                  t.log == s.log + [Concluded(Tried(NewRound(cfg, o), attempts), if failed then Undelivered else Recorded)])
            && (MustSend(cfg, o) && failed ==> Live(t.server) == o)
            && (MustSend(cfg, o) && !failed ==>
                  Live(t.server) == Object(o.uid, o.generation, o.version + 1, o.spec,
                                           StampedStatus(o, DriftHash(cfg.sha, DriftedOf(results)))))
  {
    hide Core, MustSend, After, Next, AttemptsOf, DriftHash, DriftedOf, SummaryOf, StampedStatus, SetCondition;
    HasHistory(cfg, s);
    var v, o := |s.server.history| - 1, Reported(s.server, results);
    var p, q, e := Prepare(v, results), Sends(secrets, acks), [EndSends, Put(Accepted)];
    var t1 := After(cfg, s, p);
    Prepared(cfg, s, results);
    AfterAppend(cfg, s, p, q);
    AfterAppend(cfg, s, p + q, e);
    if MustSend(cfg, o) {
      var r := NewRound(cfg, o);
      assert Last(t1.log) == r && r.webhooks == o.spec.notify.value;
      SendsEffect(cfg, t1, secrets, acks);
      var attempts := AttemptsOf(secrets, r.webhooks, acks);
      AttemptsLength(secrets, r.webhooks, acks);
      var t2 := After(cfg, t1, q);
      assert SetLast(t1.log, Tried(r, attempts)) == s.log + [Tried(r, attempts)];
      assert Last(t2.log) == Tried(r, attempts);
      ConcludedEffect(cfg, t2);
      forall x ensures SetLast(t2.log, x) == s.log + [x] {
      }
    } else {
      SendsIdle(cfg, t1, secrets, acks);
      AfterTwo(cfg, t1, EndSends, Put(Accepted));
      IdleStays(cfg, t1);
    }
  }

  lemma AttemptsLength(secrets: Secrets, webhooks: seq<Webhook>, acks: seq<bool>)
    requires |acks| <= |webhooks|
    ensures |AttemptsOf(secrets, webhooks, acks)| == |acks|
  {
  }

  lemma IdleStays(cfg: Config, s: State)
    requires s.pc.Idle?
    ensures Next(cfg, Next(cfg, s, EndSends), Put(Accepted)) == s
  {
  }

  // ---- retry

  /** Rounds of other objects, and one that was not recorded, do not move the last recorded fingerprint. */
  lemma {:induction false} LastRecordedBefore(log: seq<Round>, uid: nat, k: nat)
    requires k < |log| && !RecordedFor(log[k], uid) && forall m | k < m < |log| :: log[m].uid != uid
    ensures LastRecorded(log, uid) == LastRecorded(log[..k], uid)
  {
    var n := |log| - 1;
    if k < n {
      LastRecordedBefore(log[..n], uid, k);
      assert log[..n][..k] == log[..k];
    }
  }

  lemma MustSendAgain(cfg: Config, s: State, k: nat, results: seq<Result>)
    requires Core(cfg, s) && s.server.current.Some?
    requires Live(s.server).spec.notify.Some? && Live(s.server).spec.notify.value != []
    requires k < |s.log| && s.log[k].uid == Live(s.server).uid && !s.log[k].fate.Recorded?
    requires forall m | k < m < |s.log| :: s.log[m].uid != Live(s.server).uid
    requires multiset(DriftedOf(results)) == multiset(s.log[k].drifted)
    ensures MustSend(cfg, Reported(s.server, results))
    ensures DriftHash(cfg.sha, DriftedOf(results)) == s.log[k].fingerprint
  {
    hide ServerInv, OpenInv, PcInv, DriftHash, DriftedOf, SummaryOf, DriftCount, LastRecorded, SetCondition, Delivered, GoodRound;
    var r := s.log[k];
    assert Guarded(s.log, k) && GoodRound(cfg, s.server.history, r);
    LastRecordedBefore(s.log, r.uid, k);
    RoundHash(cfg, s.server.history, r);
    SameHash(cfg, DriftedOf(results), r.drifted);
    SummaryConserves(results);
  }

  lemma RoundHash(cfg: Config, h: seq<Object>, r: Round)
    requires GoodRound(cfg, h, r)
    ensures r.fingerprint == DriftHash(cfg.sha, r.drifted)
  {
  }

  lemma SameHash(cfg: Config, a: seq<DriftedResource>, b: seq<DriftedResource>)
    requires multiset(a) == multiset(b)
    ensures DriftHash(cfg.sha, a) == DriftHash(cfg.sha, b) && |a| == |b|
  {
    OrderIrrelevant(a, b);
    assert |a| == |multiset(a)| && |b| == |multiset(b)|;
  }

  /** At rest, round k is the live object's newest, unrecorded, and carried the drift of the results. */
  predicate Unfinished(s: State, k: nat, results: seq<Result>) {
    && s.pc.Idle? && s.server.current.Some?
    && Live(s.server).spec.notify.Some? && Live(s.server).spec.notify.value != []
    && k < |s.log| && s.log[k].uid == Live(s.server).uid && !s.log[k].fate.Recorded?
    && (forall m | k < m < |s.log| :: s.log[m].uid != Live(s.server).uid)
    && multiset(DriftedOf(results)) == multiset(s.log[k].drifted)
  }

  /** t is s with one more round, which repeats round k to every webhook now configured. */
  predicate Resent(s: State, t: State, k: nat, secrets: Secrets, acks: seq<bool>) {
    && k < |s.log| && s.server.current.Some?
    && |t.log| == |s.log| + 1 && t.log[..|s.log|] == s.log
    && Last(t.log).uid == s.log[k].uid && Last(t.log).fingerprint == s.log[k].fingerprint
    && Live(s.server).spec.notify == Some(Last(t.log).webhooks)
    && |Last(t.log).attempts| == |Last(t.log).webhooks| == |acks|
    && forall i | 0 <= i < |acks| :: Last(t.log).attempts[i] == AttemptOf(secrets, Last(t.log).webhooks[i], acks[i])
  }

  /** At-least-once: while the object's newest round is not recorded, an undisturbed reconcile that
      finds the same drift opens another one, with the same fingerprint, and tries every webhook now
      configured, those that acknowledged before included. */
  lemma UnrecordedRoundIsResent(cfg: Config, gauges: map<Series, nat>, run: seq<Step>, k: nat,
                                results: seq<Result>, secrets: Secrets, acks: seq<bool>)
    requires Unfinished(After(cfg, Init(gauges), run), k, results)
    requires |acks| == WebhooksOf(After(cfg, Init(gauges), run))
    ensures var s := After(cfg, Init(gauges), run);
            s.server.history != [] &&
            Resent(s, After(cfg, Init(gauges), run + Cycle(|s.server.history| - 1, results, secrets, acks)), k, secrets, acks)
  {
    hide Core, After, Cycle, DriftedOf, SummaryOf, DriftHash, MustSend, NewRound, AttemptOf, SetCondition, AnyRefused;
    var s := After(cfg, Init(gauges), run);
    ReachableCore(cfg, gauges, run);
    HasHistory(cfg, s);
    MustSendAgain(cfg, s, k, results);
    CycleEffect(cfg, s, results, secrets, acks);
    AfterAppend(cfg, Init(gauges), run, Cycle(|s.server.history| - 1, results, secrets, acks));
    NewRoundOf(cfg, s.server, results);
  }

  /** How many webhooks the live spec lists. */
  function WebhooksOf(s: State): nat {
    if s.server.current.Some? && Live(s.server).spec.notify.Some? then |Live(s.server).spec.notify.value| else 0
  }

  lemma NewRoundOf(cfg: Config, sv: Server, results: seq<Result>)
    requires sv.current.Some? && Live(sv).spec.notify.Some?
    ensures var r := NewRound(cfg, Reported(sv, results));
            r.uid == Live(sv).uid && r.webhooks == Live(sv).spec.notify.value && r.fingerprint == DriftHash(cfg.sha, DriftedOf(results))
  {
    hide DriftHash, DriftedOf, SummaryOf, SetCondition, DriftCount;
  }

  // ---- convergence and quiescence

  /** The stored fingerprint that makes notify stay silent on this drift list. */
  predicate Calm(cfg: Config, stored: string, drifted: seq<DriftedResource>) {
    DriftHash(cfg.sha, drifted) == stored || (stored == "" && drifted == [])
  }

  predicate AllResolve(secrets: Secrets, webhooks: seq<Webhook>) {
    forall wh | wh in webhooks :: ResolveUrl(secrets, wh).Some?
  }

  lemma AllAcknowledged(secrets: Secrets, webhooks: seq<Webhook>)
    requires AllResolve(secrets, webhooks)
    ensures forall a | a in AttemptsOf(secrets, webhooks, seq(|webhooks|, _ => true)) :: a.acked
  {
    hide ResolveUrl;
    var acks := seq(|webhooks|, _ => true);
    var attempts := AttemptsOf(secrets, webhooks, acks);
    forall i | 0 <= i < |attempts| ensures attempts[i].acked {
      assert webhooks[i] in webhooks;
    }
  }

  lemma SilentWhenCalm(cfg: Config, dc: Object)
    requires StatusOk(dc.status, dc.generation)
    requires dc.spec.notify.Some? && dc.spec.notify.value != []
    ensures !MustSend(cfg, dc) <==> Calm(cfg, dc.status.lastNotifiedHash, dc.status.drifted)
  {
    hide ReadyGeneration, IsReady, OfKind, DriftHash;
  }

  /** Convergence: from any state at rest, one reconcile on a current read whose sends and writes
      succeed leaves the object with a fingerprint that is calm for the drift it found. It is that
      drift's fingerprint, unless nothing has drifted and nothing was ever announced. */
  lemma Converges(cfg: Config, s: State, results: seq<Result>, secrets: Secrets)
    requires Core(cfg, s) && s.pc.Idle? && s.server.current.Some?
    requires Live(s.server).spec.notify.Some? && Live(s.server).spec.notify.value != []
    requires AllResolve(secrets, Live(s.server).spec.notify.value)
    ensures var acks := seq(|Live(s.server).spec.notify.value|, _ => true);
            var t := After(cfg, s, Cycle(|s.server.history| - 1, results, secrets, acks));
            && t.pc.Idle? && t.server.current.Some? && Live(t.server).uid == Live(s.server).uid
            && Live(t.server).status.drifted == DriftedOf(results)
            && Calm(cfg, Live(t.server).status.lastNotifiedHash, DriftedOf(results))
            && (Live(t.server).status.lastNotifiedHash == DriftHash(cfg.sha, DriftedOf(results))
                || (DriftedOf(results) == [] && Live(s.server).status.lastNotifiedHash == ""))
  {
    hide Core, After, Cycle, MustSend, DriftHash, DriftedOf, SummaryOf, AttemptsOf, StatusOk, SetCondition;
    var o := Reported(s.server, results);
    var webhooks := o.spec.notify.value;
    AllAcknowledged(secrets, webhooks);
    CycleEffect(cfg, s, results, secrets, seq(|webhooks|, _ => true));
    LiveStatusOk(cfg, s);
    EvaluatedOk(Live(s.server), results);
    ReportedOk(s.server, results);
    SilentWhenCalm(cfg, o);
  }

  lemma LiveStatusOk(cfg: Config, s: State)
    requires Core(cfg, s) && s.server.current.Some?
    ensures StatusOk(Live(s.server).status, Live(s.server).generation)
  {
    hide LogInv, HashInv, OpenInv, PcInv, StatusOk;
    LiveOk(s.server);
  }

  lemma ReportedOk(sv: Server, results: seq<Result>)
    requires sv.current.Some? && JudgedOk(Live(sv), EvaluatedStatus(Live(sv), results), Evaluated)
    ensures StatusOk(Reported(sv, results).status, Reported(sv, results).generation)
  {
    hide StatusOk, EvaluatedStatus;
  }

  /** A step that neither re-creates the object nor evaluates to a drift set the fingerprint misses. */
  predicate CalmStep(cfg: Config, stored: string, a: Step) {
    !a.Create? && (a.Evaluate? ==> Calm(cfg, stored, DriftedOf(a.results)))
  }

  /** What a calm run keeps: the fingerprint stays, and no reconcile gets as far as sending. */
  predicate Quiet(cfg: Config, s: State, stored: string) {
    && (s.server.current.Some? ==> Live(s.server).status.lastNotifiedHash == stored)
    && match s.pc
       case Idle => true
       case Loaded(_) => true
       case Judged(dc, verdict) => verdict.Evaluated? ==> Calm(cfg, stored, dc.status.drifted)
       case Recording(dc, _) => dc.status.lastNotifiedHash == stored && Calm(cfg, stored, dc.status.drifted)
       case Deciding(dc) => dc.status.lastNotifiedHash == stored && Calm(cfg, stored, dc.status.drifted)
       case _ => false
  }

  lemma CalmSilences(cfg: Config, dc: Object)
    requires Calm(cfg, dc.status.lastNotifiedHash, dc.status.drifted) && |dc.status.drifted| == DriftCount(dc.status.summary)
    ensures !MustSend(cfg, dc)
  {
  }

  lemma SettledCount(cfg: Config, s: State)
    requires Core(cfg, s) && s.pc.Deciding?
    ensures |s.pc.dc.status.drifted| == DriftCount(s.pc.dc.status.summary)
  {
    hide LogInv, HashInv, OpenInv;
    assert StatusOk(s.pc.dc.status, s.pc.dc.generation);
  }

  lemma PutStaysQuiet(cfg: Config, s: State, stored: string, a: Step)
    requires Core(cfg, s) && Quiet(cfg, s, stored) && a.Put?
    ensures Quiet(cfg, Next(cfg, s, a), stored) && Next(cfg, s, a).log == s.log
  {
    hide LogInv, HashInv, OpenInv, Calm, StatusOk;
    if s.pc.Judged? && !a.reply.Rejected? && Accepts(s.server, s.pc.dc) {
      hide ServerInv;
      AcceptedIsRead(s.server, s.pc.dc);
      var t := Next(cfg, s, a);
      assert t.server == Commit(s.server, WithStatus(Live(s.server), s.pc.dc.status));
    }
  }

  lemma RestartStaysQuiet(cfg: Config, s: State, stored: string)
    requires Core(cfg, s) && Quiet(cfg, s, stored)
    ensures Quiet(cfg, OnRestart(s), stored) && OnRestart(s).log == s.log
  {
    hide ServerInv, LogInv, HashInv, PcInv, Calm;
  }

  lemma AbortStaysQuiet(cfg: Config, s: State, stored: string)
    requires Core(cfg, s) && Quiet(cfg, s, stored)
    ensures Quiet(cfg, OnAbort(s), stored) && OnAbort(s).log == s.log
  {
    hide Core, OnRestart, OnAbort, Calm;
    RestartStaysQuiet(cfg, s, stored);
    AbortLikeRestart(s);
  }

  lemma StaysQuiet(cfg: Config, s: State, stored: string, a: Step)
    requires Core(cfg, s) && Quiet(cfg, s, stored) && CalmStep(cfg, stored, a)
    ensures Quiet(cfg, Next(cfg, s, a), stored) && Next(cfg, s, a).log == s.log
  {
    hide Core, Calm, MustSend, SetCondition, DriftedOf, SummaryOf, OnAbort;
    match a
    case Put(_) => PutStaysQuiet(cfg, s, stored, a);
    case Restart => RestartStaysQuiet(cfg, s, stored);
    case Abort => AbortStaysQuiet(cfg, s, stored);
    case Decide =>
      if s.pc.Deciding? {
        SettledCount(cfg, s);
        CalmSilences(cfg, s.pc.dc);
      }
    case _ =>
  }

  /** Quiescence: once calm, no later run sends anything, whatever is read, fails or restarts in it,
      as long as every evaluation finds calm drift and the object is not re-created. */
  lemma {:induction false} Quiescent(cfg: Config, s: State, stored: string, run: seq<Step>)
    requires Core(cfg, s) && s.pc.Idle?
    requires s.server.current.Some? ==> Live(s.server).status.lastNotifiedHash == stored
    requires forall a | a in run :: CalmStep(cfg, stored, a)
    ensures After(cfg, s, run).log == s.log
    ensures Core(cfg, After(cfg, s, run)) && Quiet(cfg, After(cfg, s, run), stored)
  {
    hide Core, Next, CalmStep;
    if run != [] {
      hide Quiet;
      var init, a := run[..|run| - 1], run[|run| - 1];
      Quiescent(cfg, s, stored, init);
      assert a in run;
      StaysQuiet(cfg, After(cfg, s, init), stored, a);
      NextKeepsCore(cfg, After(cfg, s, init), a);
    }
  }

  /** Both together: with the drift set fixed up to order, one undisturbed reconcile is the last to send. */
  lemma ConvergesThenQuiet(cfg: Config, s: State, results: seq<Result>, secrets: Secrets, run: seq<Step>)
    requires Core(cfg, s) && s.pc.Idle? && s.server.current.Some?
    requires Live(s.server).spec.notify.Some? && Live(s.server).spec.notify.value != []
    requires AllResolve(secrets, Live(s.server).spec.notify.value)
    requires forall a | a in run ::
               !a.Create? && (a.Evaluate? ==> multiset(DriftedOf(a.results)) == multiset(DriftedOf(results)))
    ensures var acks := seq(|Live(s.server).spec.notify.value|, _ => true);
            var t := After(cfg, s, Cycle(|s.server.history| - 1, results, secrets, acks));
            After(cfg, t, run).log == t.log
  {
    hide Core, After, Cycle, DriftedOf, AllResolve;
    var acks := seq(|Live(s.server).spec.notify.value|, _ => true);
    Converges(cfg, s, results, secrets);
    HasHistory(cfg, s);
    var c := Cycle(|s.server.history| - 1, results, secrets, acks);
    var t := After(cfg, s, c);
    KeepsCore(cfg, s, c);
    var stored := Live(t.server).status.lastNotifiedHash;
    forall a | a in run ensures CalmStep(cfg, stored, a) {
      if a.Evaluate? { CalmUpToOrder(cfg, stored, DriftedOf(results), DriftedOf(a.results)); }
    }
    Quiescent(cfg, t, stored, run);
  }

  /** The same, said of runs from the start: whatever happened before, one undisturbed reconcile of the
      live object, and from then on the log of rounds stays as it is while the drift set does. */
  lemma OneCycleThenSilence(cfg: Config, gauges: map<Series, nat>, run: seq<Step>, results: seq<Result>, secrets: Secrets,
                            more: seq<Step>)
    requires var s := After(cfg, Init(gauges), run);
             && s.pc.Idle? && s.server.current.Some?
             && Live(s.server).spec.notify.Some? && Live(s.server).spec.notify.value != []
             && AllResolve(secrets, Live(s.server).spec.notify.value)
    requires forall a | a in more ::
               !a.Create? && (a.Evaluate? ==> multiset(DriftedOf(a.results)) == multiset(DriftedOf(results)))
    ensures var s := After(cfg, Init(gauges), run);
            s.server.history != [] &&
            var cycle := Cycle(|s.server.history| - 1, results, secrets, seq(|Live(s.server).spec.notify.value|, _ => true));
            && After(cfg, Init(gauges), run + cycle + more).log == After(cfg, Init(gauges), run + cycle).log
            && After(cfg, Init(gauges), run + cycle).server.current.Some?
            && Calm(cfg, Live(After(cfg, Init(gauges), run + cycle).server).status.lastNotifiedHash, DriftedOf(results))
  {
    hide Core, After, Cycle, DriftedOf, AllResolve, Calm;
    var s := After(cfg, Init(gauges), run);
    ReachableCore(cfg, gauges, run);
    HasHistory(cfg, s);
    var cycle := Cycle(|s.server.history| - 1, results, secrets, seq(|Live(s.server).spec.notify.value|, _ => true));
    AfterAppend(cfg, Init(gauges), run, cycle);
    AfterAppend(cfg, Init(gauges), run + cycle, more);
    Converges(cfg, s, results, secrets);
    ConvergesThenQuiet(cfg, s, results, secrets, more);
  }

  lemma CalmUpToOrder(cfg: Config, stored: string, a: seq<DriftedResource>, b: seq<DriftedResource>)
    requires Calm(cfg, stored, a) && multiset(a) == multiset(b)
    ensures Calm(cfg, stored, b)
  {
    OrderIrrelevant(a, b);
    assert |a| == |multiset(a)| && |b| == |multiset(b)|;
  }

  lemma {:induction false} KeepsCore(cfg: Config, s: State, run: seq<Step>)
    requires Core(cfg, s)
    ensures Core(cfg, After(cfg, s, run))
  {
    hide Core, Next;
    if run != [] {
      KeepsCore(cfg, s, run[..|run| - 1]);
      NextKeepsCore(cfg, After(cfg, s, run[..|run| - 1]), run[|run| - 1]);
    }
  }
}
