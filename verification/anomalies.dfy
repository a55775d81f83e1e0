/** Two promises the code does not keep in every run, each with runs that break it. Exactly when they
    hold is stated by LeftResolvedExactly and ProtocolGauges.GaugesAgree. */
module Anomalies {
  import opened Text
  import opened Drift
  import opened Fingerprint
  import opened Metrics
  import opened Protocol
  import opened ProtocolInvariant
  import opened ProtocolSafety
  import opened ProtocolGauges
  import opened Convergence

  const DRIFTING := Result("v1", "ConfigMap", "app", "default", Changed)

  lemma OneDrift()
    ensures DriftedOf([DRIFTING]) == [ToDrifted(DRIFTING)] && DriftedOf([]) == []
    ensures SummaryOf([DRIFTING]) == Summary(1, 0, 0, 0) && SummaryOf([]) == Summary(0, 0, 0, 0)
  {
    OneMore([DRIFTING], 0);
    assert [DRIFTING][..0] == [] && [DRIFTING][..1] == [DRIFTING];
  }

  lemma Created(cfg: Config, spec: Spec)
    ensures var s := After(cfg, Init(map[]), [Create(spec)]);
            var o := Object(0, 1, 0, spec, FRESH);
            Core(cfg, s) && s == State(Server(Some(o), [o], 1), map[], Idle, [], None, Some(0))
  {
    hide Core, After;
    RunKeepsCore(cfg, map[], [Create(spec)]);
    InitIsEmptyRun(cfg);
    AfterSnoc(cfg, Init(map[]), [], Create(spec));
    assert [] + [Create(spec)] == [Create(spec)];
  }

  lemma InitIsEmptyRun(cfg: Config)
    ensures After(cfg, Init(map[]), []) == Init(map[])
  {
  }

  // ---- a receiver left with the wrong last word

  const A := "http://a"
  const B := "http://b"
  const ONE := [Webhook("Generic", A, None)]
  const TWO := [Webhook("Generic", A, None), Webhook("Generic", B, None)]

  /** At rest, the check reports drift and counts it as announced, but the last event the endpoint
      acknowledged says that all drift is resolved. */
  predicate LeftResolved(cfg: Config, s: State, url: string) {
    && s.pc.Idle? && s.server.current.Some?
    && Live(s.server).status.drifted != []
    && Calm(cfg, Live(s.server).status.lastNotifiedHash, Live(s.server).status.drifted)
    && ToldResolved(s.log, Live(s.server).uid, iset{url})
  }

  /** The live spec lists a webhook with this inline URL. */
  predicate Configured(s: State, url: string) {
    && s.server.current.Some? && Live(s.server).spec.notify.Some?
    && exists wh | wh in Live(s.server).spec.notify.value :: wh.url == url && wh.urlSecretRef.None?
  }

  /** Exactly when an endpoint is left so, for a digest that tells the drift from none: at rest, with
      drift stored and counted as announced, and by one of the two ways of ToldResolvedExactly. */
  lemma LeftResolvedExactly(cfg: Config, gauges: map<Series, nat>, run: seq<Step>, url: string)
    requires After(cfg, Init(gauges), run).server.current.Some?
    requires DriftHash(cfg.sha, Live(After(cfg, Init(gauges), run).server).status.drifted) != DriftHash(cfg.sha, [])
    ensures var s := After(cfg, Init(gauges), run);
            var o := Live(s.server);
            LeftResolved(cfg, s, url) <==>
              && s.pc.Idle? && o.status.drifted != [] && Calm(cfg, o.status.lastNotifiedHash, o.status.drifted)
              && if HeardSince(s.log, o.uid, iset{url}) then NewestSinceIsClean(s.log, o.uid, iset{url})
                 else !HeardRecorded(s.log, o.uid, iset{url}) && ToldResolved(BeforeRecorded(s.log, o.uid), o.uid, iset{url})
  {
    hide After, DriftHash, ToldResolved, HeardSince, HeardRecorded, NewestSinceIsClean, BeforeRecorded;
    var o := Live(After(cfg, Init(gauges), run).server);
    if o.status.drifted != [] && Calm(cfg, o.status.lastNotifiedHash, o.status.drifted) {
      ToldResolvedExactly(cfg, gauges, run, url);
    }
  }

  /** Some attempt at this URL was acknowledged. */
  predicate ReachedBy(attempts: seq<Attempt>, url: string) {
    exists a | a in attempts :: a.acked && a.url == Some(url)
  }

  /** What a reconcile can tell beforehand: it leaves the endpoint with "resolved" exactly when it finds
      it so, and either the drift is the one already announced, so that nothing is sent, or it is
      announced in full to others only. */
  lemma CycleLeavesResolvedExactly(cfg: Config, s: State, results: seq<Result>, secrets: Secrets, acks: seq<bool>, url: string)
    requires Core(cfg, s) && s.pc.Idle? && s.server.current.Some?
    requires Live(s.server).spec.notify.Some? && |acks| == |Live(s.server).spec.notify.value|
    requires DriftedOf(results) != []
    ensures s.server.history != []
    ensures var t := After(cfg, s, Cycle(|s.server.history| - 1, results, secrets, acks));
            var o := Live(s.server);
            var attempts := AttemptsOf(secrets, o.spec.notify.value, acks);
            LeftResolved(cfg, t, url) <==>
              && ToldResolved(s.log, o.uid, iset{url})
              && (DriftHash(cfg.sha, DriftedOf(results)) == o.status.lastNotifiedHash
                  || (attempts != [] && !AnyRefused(attempts) && !ReachedBy(attempts, url)))
  {
    hide Core, After, Cycle, DriftHash, DriftedOf, SummaryOf, AttemptsOf, SetCondition, NewRound, DriftCount, AnyRefused, MustSend;
    HasHistory(cfg, s);
    var o, at := Reported(s.server, results), AttemptsOf(secrets, Live(s.server).spec.notify.value, acks);
    AttemptsLength(secrets, Live(s.server).spec.notify.value, acks);
    CycleEffect(cfg, s, results, secrets, acks);
    SummaryConserves(results);
    DriftMustSend(cfg, o);
    if MustSend(cfg, o) {
      DriftRound(cfg, o);
      var t := After(cfg, s, Cycle(|s.server.history| - 1, results, secrets, acks));
      OneRoundMore(s.log, t.log, o.uid, url);
      HeardIsReached(Last(t.log), url);
    }
  }

  lemma DriftMustSend(cfg: Config, dc: Object)
    requires dc.spec.notify.Some? && DriftCount(dc.status.summary) == |dc.status.drifted| != 0
    ensures MustSend(cfg, dc) <==>
              dc.spec.notify.value != [] && DriftHash(cfg.sha, dc.status.drifted) != dc.status.lastNotifiedHash
  {
    hide DriftHash, DriftCount;
  }

  lemma DriftRound(cfg: Config, dc: Object)
    requires dc.spec.notify.Some? && DriftCount(dc.status.summary) == |dc.status.drifted| != 0
    ensures NewRound(cfg, dc).uid == dc.uid && !NewRound(cfg, dc).event.resolved
  {
    hide DriftHash, DriftCount;
  }

  /** A round that says nothing of "resolved" changes the last word only of those who heard it. */
  lemma OneRoundMore(before: seq<Round>, log: seq<Round>, uid: nat, url: string)
    requires log != [] && log[..|log| - 1] == before && Last(log).uid == uid && !Last(log).event.resolved
    ensures ToldResolved(log, uid, iset{url}) <==> ToldResolved(before, uid, iset{url}) && !Heard(Last(log), iset{url})
  {
  }

  lemma HeardIsReached(r: Round, url: string)
    ensures Heard(r, iset{url}) <==> ReachedBy(r.attempts, url)
  {
  }

  lemma TwoAttempts(first: bool, second: bool)
    ensures AttemptsOf(map[], TWO, [first, second]) == [Attempt(Some(A), first), Attempt(Some(B), second)]
    ensures AnyRefused(AttemptsOf(map[], TWO, [first, second])) <==> !first || !second
  {
    var at := AttemptsOf(map[], TWO, [first, second]);
    assert at[0] in at && at[1] in at;
  }

  lemma OneAttempt()
    ensures AttemptsOf(map[], ONE, [true]) == [Attempt(Some(A), true)]
    ensures !AnyRefused(AttemptsOf(map[], ONE, [true]))
  {
  }

  /** What a reconcile leaves that has something to announce. */
  predicate Sent(cfg: Config, s: State, t: State, webhooks: seq<Webhook>, results: seq<Result>, attempts: seq<Attempt>) {
    && Core(cfg, t) && t.pc.Idle? && s.server.current.Some? && t.server.current.Some?
    && Live(t.server).spec.notify == Some(webhooks) && Live(t.server).uid == Live(s.server).uid
    && Live(t.server).status.drifted == DriftedOf(results)
    && Live(t.server).status.lastNotifiedHash ==
         (if AnyRefused(attempts) then Live(s.server).status.lastNotifiedHash else DriftHash(cfg.sha, DriftedOf(results)))
    && |t.log| == |s.log| + 1 && t.log[..|s.log|] == s.log
    && Last(t.log).uid == Live(s.server).uid && Last(t.log).attempts == attempts
    && (Last(t.log).event.resolved <==> DriftedOf(results) == [])
    && Last(t.log).fate == if AnyRefused(attempts) then Undelivered else Recorded
  }

  lemma Announce(cfg: Config, s: State, c: seq<Step>, webhooks: seq<Webhook>, results: seq<Result>, acks: seq<bool>)
    requires Core(cfg, s) && s.pc.Idle? && s.server.current.Some? && s.server.history != []
    requires Live(s.server).spec.notify == Some(webhooks) && webhooks != [] && |acks| == |webhooks|
    requires c == Cycle(|s.server.history| - 1, results, map[], acks)
    requires DriftHash(cfg.sha, DriftedOf(results)) != Live(s.server).status.lastNotifiedHash
    requires DriftedOf(results) == [] ==> Live(s.server).status.lastNotifiedHash != ""
    ensures Sent(cfg, s, After(cfg, s, c), webhooks, results, AttemptsOf(map[], webhooks, acks))
  {
    hide Core, After, Cycle, DriftHash, DriftedOf, SummaryOf, AttemptsOf, SetCondition, NewRound, DriftCount, AnyRefused;
    var o := Reported(s.server, results);
    SummaryConserves(results);
    ChangedRound(cfg, o, webhooks);
    CycleEffect(cfg, s, results, map[], acks);
    KeepsCore(cfg, s, c);
  }

  lemma ChangedRound(cfg: Config, o: Object, webhooks: seq<Webhook>)
    requires o.spec.notify == Some(webhooks) && webhooks != []
    requires DriftCount(o.status.summary) == |o.status.drifted|
    requires o.status.lastNotifiedHash != DriftHash(cfg.sha, o.status.drifted)
    requires o.status.drifted == [] ==> o.status.lastNotifiedHash != ""
    ensures MustSend(cfg, o)
    ensures NewRound(cfg, o).uid == o.uid && (NewRound(cfg, o).event.resolved <==> o.status.drifted == [])
  {
    hide DriftHash, DriftCount;
  }

  /** The same drift as announced before changes nothing but the status. */
  lemma Redrift(cfg: Config, s: State, c: seq<Step>, results: seq<Result>, acks: seq<bool>)
    requires Core(cfg, s) && s.pc.Idle? && s.server.current.Some? && s.server.history != []
    requires Live(s.server).spec.notify.Some? && |acks| == |Live(s.server).spec.notify.value|
    requires Live(s.server).status.lastNotifiedHash == DriftHash(cfg.sha, DriftedOf(results))
    requires c == Cycle(|s.server.history| - 1, results, map[], acks)
    ensures var t := After(cfg, s, c);
            && t.pc.Idle? && t.server.current.Some? && t.log == s.log && Live(t.server).uid == Live(s.server).uid
            && Live(t.server).spec == Live(s.server).spec
            && Live(t.server).status.lastNotifiedHash == Live(s.server).status.lastNotifiedHash
            && Live(t.server).status.drifted == DriftedOf(results)
  {
    hide Core, After, Cycle, DriftHash, DriftedOf, SummaryOf, AttemptsOf, SetCondition, DriftCount;
    CycleEffect(cfg, s, results, map[], acks);
  }

  lemma EditEffect(cfg: Config, s: State, spec: Spec)
    requires Core(cfg, s) && s.pc.Idle? && s.server.current.Some?
    ensures var t := After(cfg, s, [Edit(spec)]);
            && Core(cfg, t) && t.pc.Idle? && t.server.current.Some? && t.log == s.log
            && Live(t.server).uid == Live(s.server).uid && Live(t.server).spec == spec
            && Live(t.server).status == Live(s.server).status
  {
    hide Core;
    assert [Edit(spec)][..0] == [];
    NextKeepsCore(cfg, s, Edit(spec));
  }

  /** One cycle, taken at the end of a run. */
  lemma Extended(cfg: Config, run: seq<Step>, c: seq<Step>)
    ensures After(cfg, Init(map[]), run + c) == After(cfg, After(cfg, Init(map[]), run), c)
  {
    AfterAppend(cfg, Init(map[]), run, c);
  }

  function CycleNow(cfg: Config, run: seq<Step>, results: seq<Result>, acks: seq<bool>): seq<Step>
    requires After(cfg, Init(map[]), run).server.history != []
  {
    Cycle(|After(cfg, Init(map[]), run).server.history| - 1, results, map[], acks)
  }

  /** A run that has announced drift to both webhooks and then, to the first or to both, its end. */
  lemma Resolved(cfg: Config, both: bool) returns (run: seq<Step>)
    requires DriftHash(cfg.sha, [ToDrifted(DRIFTING)]) != DriftHash(cfg.sha, [])
    ensures var s := After(cfg, Init(map[]), run);
            && Core(cfg, s) && s.pc.Idle? && s.server.current.Some? && Live(s.server).spec.notify == Some(TWO)
            && |s.log| == 2 && Last(s.log).uid == Live(s.server).uid && Last(s.log).event.resolved
            && Last(s.log).attempts == [Attempt(Some(A), true), Attempt(Some(B), both)]
            && s.log[0].fate.Recorded? && Last(s.log).fate == (if both then Recorded else Undelivered)
            && Live(s.server).status.lastNotifiedHash == DriftHash(cfg.sha, if both then [] else [ToDrifted(DRIFTING)])
  {
    hide Core, After, Cycle, DriftHash, DriftedOf, AttemptsOf, AnyRefused;
    var spec := Spec(300, Some(TWO));
    NeverSentinel(cfg.sha, [ToDrifted(DRIFTING)]);
    OneDrift();
    TwoAttempts(true, true);
    TwoAttempts(true, both);
    run := [Create(spec)];
    Created(cfg, spec);
    var s0 := After(cfg, Init(map[]), run);
    var c1 := CycleNow(cfg, run, [DRIFTING], [true, true]);
    Announce(cfg, s0, c1, TWO, [DRIFTING], [true, true]);
    Extended(cfg, run, c1);
    run := run + c1;
    var s1 := After(cfg, Init(map[]), run);
    HasHistory(cfg, s1);
    var c2 := CycleNow(cfg, run, [], [true, both]);
    Announce(cfg, s1, c2, TWO, [], [true, both]);
    Extended(cfg, run, c2);
    run := run + c2;
    var s2 := After(cfg, Init(map[]), run);
    assert s2.log[..1][0] == s2.log[0] && s0.log == [];
  }

  /** Drift is announced; it clears, which the first webhook hears and the second does not; the same
      drift returns before a retry. Deduplication then stays silent: Quiescent says for how long. */
  lemma StaleLastWord(cfg: Config)
    requires DriftHash(cfg.sha, [ToDrifted(DRIFTING)]) != DriftHash(cfg.sha, [])
    ensures exists run: seq<Step> ::
              LeftResolved(cfg, After(cfg, Init(map[]), run), A) && Configured(After(cfg, Init(map[]), run), A)
  {
    hide Core, After, Cycle, DriftHash, DriftedOf;
    OneDrift();
    var run := Resolved(cfg, false);
    var s := After(cfg, Init(map[]), run);
    HasHistory(cfg, s);
    var c := CycleNow(cfg, run, [DRIFTING], [true, true]);
    Redrift(cfg, s, c, [DRIFTING], [true, true]);
    Extended(cfg, run, c);
    HeardLast(s.log, Live(s.server).uid, A, 0);
    assert TWO[0] in TWO;
    assert LeftResolved(cfg, After(cfg, Init(map[]), run + c), A);
  }

  lemma HeardLast(log: seq<Round>, uid: nat, url: string, i: nat)
    requires log != [] && Last(log).uid == uid && Last(log).event.resolved
    requires i < |Last(log).attempts| && Last(log).attempts[i] == Attempt(Some(url), true)
    ensures ToldResolved(log, uid, iset{url})
  {
    assert Last(log).attempts[i] in Last(log).attempts;
  }

  predicate AllRecorded(log: seq<Round>) {
    forall r | r in log :: r.fate.Recorded?
  }

  /** The second webhook has heard "resolved" and is taken off the list; the drift returns and is
      announced to the first. */
  lemma WithoutSecond(cfg: Config) returns (run: seq<Step>)
    requires DriftHash(cfg.sha, [ToDrifted(DRIFTING)]) != DriftHash(cfg.sha, [])
    ensures var s := After(cfg, Init(map[]), run);
            && Core(cfg, s) && s.pc.Idle? && s.server.current.Some? && AllRecorded(s.log)
            && Live(s.server).status.drifted == [ToDrifted(DRIFTING)]
            && Live(s.server).status.lastNotifiedHash == DriftHash(cfg.sha, [ToDrifted(DRIFTING)])
            && ToldResolved(s.log, Live(s.server).uid, iset{B})
  {
    hide Core, After, Cycle, DriftHash, DriftedOf, AttemptsOf, AnyRefused;
    OneDrift();
    OneAttempt();
    run := Resolved(cfg, true);
    var s2 := After(cfg, Init(map[]), run);
    HeardLast(s2.log, Live(s2.server).uid, B, 1);

    var one := Spec(300, Some(ONE));
    EditEffect(cfg, s2, one);
    Extended(cfg, run, [Edit(one)]);
    run := run + [Edit(one)];
    var s3 := After(cfg, Init(map[]), run);
    HasHistory(cfg, s3);

    var c := CycleNow(cfg, run, [DRIFTING], [true]);
    Announce(cfg, s3, c, ONE, [DRIFTING], [true]);
    Extended(cfg, run, c);
    run := run + c;
    var s4 := After(cfg, Init(map[]), run);
    NotHeard(s4.log, Live(s3.server).uid);
    assert s4.log == s2.log + [Last(s4.log)] && s2.log == [s2.log[0], Last(s2.log)];
  }

  /** No round fails and nothing is lost, yet an endpoint is left with "resolved": it is taken off the
      list after hearing that, the drift returns and is announced to the other one, and it is put back. */
  lemma DroppedEndpoint(cfg: Config)
    requires DriftHash(cfg.sha, [ToDrifted(DRIFTING)]) != DriftHash(cfg.sha, [])
    ensures exists run: seq<Step> ::
              && LeftResolved(cfg, After(cfg, Init(map[]), run), B) && Configured(After(cfg, Init(map[]), run), B)
              && AllRecorded(After(cfg, Init(map[]), run).log)
  {
    hide Core, After, DriftHash, ToldResolved, AllRecorded;
    var run := WithoutSecond(cfg);
    var two := Spec(300, Some(TWO));
    EditEffect(cfg, After(cfg, Init(map[]), run), two);
    Extended(cfg, run, [Edit(two)]);
    assert TWO[1] in TWO;
    assert LeftResolved(cfg, After(cfg, Init(map[]), run + [Edit(two)]), B);
  }

  /** A round to the other endpoint leaves the last word as it was. */
  lemma NotHeard(log: seq<Round>, uid: nat)
    requires log != [] && Last(log).attempts == [Attempt(Some(A), true)]
    ensures ToldResolved(log, uid, iset{B}) <==> ToldResolved(log[..|log| - 1], uid, iset{B})
  {
    assert A[7] != B[7];
  }

  // ---- gauges behind the status

  /** At rest, the gauges show a summary that is not the stored one. */
  predicate GaugesLag(cfg: Config, s: State) {
    && s.pc.Idle? && s.server.current.Some? && s.shown.Some?
    && !Shows(s.gauges, cfg.check, Live(s.server).status.summary)
  }

  predicate SameObject(s: State) {
    s.server.current.Some? && s.shown.Some? && s.shown.value < |s.server.history|
    && s.server.history[s.shown.value].uid == Live(s.server).uid
  }

  /** A status write that is stored but whose reply is lost, or whose reconcile is aborted before it
      records, leaves the old gauges in place. */
  lemma LostReplyLags(cfg: Config, aborted: bool)
    ensures exists run: seq<Step> :: GaugesLag(cfg, After(cfg, Init(map[]), run)) && SameObject(After(cfg, Init(map[]), run))
                          && (aborted ==> forall a | a in run && a.Put? :: a.reply.Accepted?)
  {
    hide Core, After, Next, DriftedOf, SummaryOf, MustSend, Shows, Reading, SetCondition, DriftCount;
    var run := Shown(cfg, []);
    var s := After(cfg, Init(map[]), run);
    OneDrift();
    var more := Unset(aborted);
    UnsetEffect(cfg, s, aborted);
    Extended(cfg, run, more);
    ShowsOne(s.gauges, cfg.check, SummaryOf([]), SummaryOf([DRIFTING]));
    assert GaugesLag(cfg, After(cfg, Init(map[]), run + more));
  }

  function Unset(aborted: bool): seq<Step> {
    [Get(Some(1)), Evaluate([DRIFTING]), Put(if aborted then Accepted else Lost), Abort]
  }

  lemma UnsetEffect(cfg: Config, s: State, aborted: bool)
    requires s.pc.Idle? && s.server.current.Some? && |s.server.history| == 2
    requires s.server.history[1] == Live(s.server) && Live(s.server).version == 1
    ensures var t := After(cfg, s, Unset(aborted));
            && t.pc.Idle? && t.gauges == s.gauges && t.shown == s.shown
            && |t.server.history| == 3 && t.server.history[1] == Live(s.server) && t.server.current.Some?
            && Live(t.server).uid == Live(s.server).uid && Live(t.server).status.summary == SummaryOf([DRIFTING])
  {
    hide SummaryOf, DriftedOf, SetCondition, After;
    var reply := if aborted then Accepted else Lost;
    AfterFour(cfg, s, Get(Some(1)), Evaluate([DRIFTING]), Put(reply), Abort);
    var s1 := Next(cfg, s, Get(Some(1)));
    assert s1 == State(s.server, s.gauges, Loaded(Live(s.server)), s.log, s.shown, s.unrecorded);
    var s2 := Next(cfg, s1, Evaluate([DRIFTING]));
    assert s2.pc.Judged? && s2.server == s.server && s2.gauges == s.gauges && s2.shown == s.shown;
    var s3 := Next(cfg, s2, Put(reply));
    assert s3.server.current.Some? && s3.gauges == s.gauges && s3.shown == s.shown
           && (s3.pc.Idle? || (s3.pc.Recording? && s3.pc.labels == 0));
  }

  /** A first reconcile, without webhooks: the gauges show what it found. */
  lemma Shown(cfg: Config, results: seq<Result>) returns (run: seq<Step>)
    ensures var s := After(cfg, Init(map[]), run);
            && s.pc.Idle? && s.server.current.Some? && s.shown == Some(1)
            && |s.server.history| == 2 && s.server.history[1] == Live(s.server) && Live(s.server).version == 1
            && Live(s.server).status.summary == SummaryOf(results)
            && Shows(s.gauges, cfg.check, SummaryOf(results))
    ensures run == [Create(Spec(300, None))] + Prepare(0, results)
  {
    hide Core, After, Next, Prepare, DriftedOf, SummaryOf, MustSend, Shows, Reading, SetCondition, DriftCount;
    var run0 := [Create(Spec(300, None))];
    var s0 := After(cfg, Init(map[]), run0);
    Created(cfg, Spec(300, None));
    Prepared(cfg, s0, results);
    Extended(cfg, run0, Prepare(0, results));
    NoWebhooksIdle(cfg, Reported(s0.server, results));
    run := run0 + Prepare(0, results);
    GaugesAgree(cfg, map[], run);
  }

  lemma NoWebhooksIdle(cfg: Config, dc: Object)
    requires dc.spec.notify.None?
    ensures !MustSend(cfg, dc)
  {
  }

  /** A check deleted and re-created before its absence was seen: the gauges are its predecessor's. */
  lemma RecreationLags(cfg: Config)
    ensures exists run: seq<Step> :: GaugesLag(cfg, After(cfg, Init(map[]), run)) && !SameObject(After(cfg, Init(map[]), run))
                          && forall a | a in run :: (a.Put? ==> a.reply.Accepted?) && !a.Abort?
  {
    hide Core, After, Next, DriftedOf, SummaryOf, MustSend, Shows, Reading, SetCondition, DriftCount;
    var run := Shown(cfg, [DRIFTING]);
    var s := After(cfg, Init(map[]), run);
    OneDrift();
    var spec := Spec(300, None);
    var more := [Delete, Create(spec)];
    RecreateEffect(cfg, s, spec);
    RunKeepsCore(cfg, map[], run);
    KnownUid(cfg, s);
    Extended(cfg, run, more);
    ShowsOne(s.gauges, cfg.check, SummaryOf([DRIFTING]), Summary(0, 0, 0, 0));
    assert GaugesLag(cfg, After(cfg, Init(map[]), run + more));
  }

  lemma KnownUid(cfg: Config, s: State)
    requires Core(cfg, s) && s.server.current.Some?
    ensures Live(s.server).uid < s.server.uids
  {
    hide LogInv, HashInv, OpenInv, PcInv;
  }

  lemma RecreateEffect(cfg: Config, s: State, spec: Spec)
    requires s.pc.Idle? && s.server.current.Some?
    ensures var t := After(cfg, s, [Delete, Create(spec)]);
            && t.pc.Idle? && t.gauges == s.gauges && t.shown == s.shown
            && t.server.current.Some? && Live(t.server).uid == s.server.uids
            && Live(t.server).status == FRESH && s.server.history <= t.server.history
  {
    hide After;
    AfterTwo(cfg, s, Delete, Create(spec));
  }
}
