/** What holds of the notifications and the status in every reachable state. */
module ProtocolSafety {
  import opened Text
  import opened Drift
  import opened Fingerprint
  import opened Metrics
  import opened Protocol
  import opened ProtocolInvariant

  // ---- facts about logs

  predicate RecordedFor(r: Round, uid: nat) {
    r.uid == uid && r.fate.Recorded?
  }

  /** The last recorded fingerprint of an object is that of its last recorded round. */
  lemma {:induction false} LastRecordedWitness(log: seq<Round>, uid: nat) returns (k: int)
    ensures -1 <= k < |log|
    ensures k == -1 ==> LastRecorded(log, uid) == ""
    ensures k >= 0 ==> RecordedFor(log[k], uid) && LastRecorded(log, uid) == log[k].fingerprint
    ensures forall m | k < m < |log| :: !RecordedFor(log[m], uid)
  {
    if log == [] {
      k := -1;
    } else if RecordedFor(Last(log), uid) {
      k := |log| - 1;
    } else {
      k := LastRecordedWitness(log[..|log| - 1], uid);
    }
  }

  /** A recorded round is repeated only after a recorded round with another fingerprint. */
  lemma RepeatAfterChange(cfg: Config, h: seq<Object>, log: seq<Round>, j: nat, k: nat)
    requires LogInv(cfg, h, log) && j < k < |log|
    requires RecordedFor(log[j], log[k].uid) && log[j].fingerprint == log[k].fingerprint
    ensures exists m | j < m < k :: RecordedFor(log[m], log[k].uid) && log[m].fingerprint != log[k].fingerprint
  {
    hide GoodRound;
    var m := LastRecordedWitness(log[..k], log[k].uid);
    assert Guarded(log, k);
    assert log[..k][j] == log[j] && !(m < j);
    assert log[..k][m] == log[m];
    assert m != j && RecordedFor(log[m], log[k].uid);
  }

  lemma ReachableCore(cfg: Config, gauges: map<Series, nat>, run: seq<Step>)
    ensures Core(cfg, After(cfg, Init(gauges), run))
  {
    hide Core;
    RunKeepsCore(cfg, gauges, run);
  }

  // ---- delivery

  /** r is a finished round for the object: every webhook of a version of its spec acknowledged the
      event that tells exactly the drift set whose fingerprint is hash. */
  predicate Announced(cfg: Config, h: seq<Object>, r: Round, uid: nat, hash: string) {
    && r.uid == uid && r.fate.Recorded? && r.webhooks != [] && Delivered(r)
    && r.version < |h| && h[r.version].uid == uid
    && h[r.version].spec.notify == Some(r.webhooks) && h[r.version].status.drifted == r.drifted
    && r.event == EventOf(cfg.check.name, cfg.check.namespace, r.drifted, h[r.version].status.summary, r.drifted == [])
    && Tells(r.event, cfg.check.name, cfg.check.namespace, r.drifted, h[r.version].status.summary, r.drifted == [])
    && hash == DriftHash(cfg.sha, r.drifted)
  }

  /** Delivery soundness: a stored fingerprint has been announced, whatever failed on the way. */
  lemma DeliverySound(cfg: Config, gauges: map<Series, nat>, run: seq<Step>, i: nat)
    requires i < |After(cfg, Init(gauges), run).server.history|
    requires After(cfg, Init(gauges), run).server.history[i].status.lastNotifiedHash != ""
    ensures var s := After(cfg, Init(gauges), run);
            exists k | 0 <= k < |s.log| ::
              Announced(cfg, s.server.history, s.log[k], s.server.history[i].uid, s.server.history[i].status.lastNotifiedHash)
  {
    hide After, Delivered, Tells;
    ReachableCore(cfg, gauges, run);
    var s := After(cfg, Init(gauges), run);
    var o := s.server.history[i];
    assert IsRecorded(s.log, o.uid, o.status.lastNotifiedHash);
    var k :| 0 <= k < |s.log| && s.log[k].uid == o.uid && s.log[k].fate.Recorded?
             && s.log[k].fingerprint == o.status.lastNotifiedHash;
    assert GoodRound(cfg, s.server.history, s.log[k]);
    var r := s.log[k];
    EventTells(cfg.check.name, cfg.check.namespace, r.drifted, s.server.history[r.version].status.summary, r.drifted == []);
    assert Announced(cfg, s.server.history, s.log[k], o.uid, o.status.lastNotifiedHash);
  }

  // ---- deduplication

  /** Once a round's fingerprint is recorded, the object's next round carries another one; a later
      round repeats it only if a different drift set was announced and recorded in between. */
  lemma Deduplicated(cfg: Config, gauges: map<Series, nat>, run: seq<Step>, j: nat, k: nat)
    requires j < k < |After(cfg, Init(gauges), run).log|
    requires var log := After(cfg, Init(gauges), run).log;
             RecordedFor(log[j], log[k].uid) && log[j].fingerprint == log[k].fingerprint
    ensures var log := After(cfg, Init(gauges), run).log;
            exists m | j < m < k :: RecordedFor(log[m], log[k].uid) && log[m].fingerprint != log[k].fingerprint
  {
    hide After, ServerInv, LogInv, HashInv, OpenInv, PcInv;
    ReachableCore(cfg, gauges, run);
    var s := After(cfg, Init(gauges), run);
    RepeatAfterChange(cfg, s.server.history, s.log, j, k);
  }

  /** Two adjacent rounds of an object repeat a fingerprint only if the first was not acknowledged
      by every webhook, lost its fingerprint write, or was cut off by a restart or an abort. */
  lemma RepeatNeedsLoss(cfg: Config, gauges: map<Series, nat>, run: seq<Step>, j: nat, k: nat)
    requires j < k < |After(cfg, Init(gauges), run).log|
    requires var log := After(cfg, Init(gauges), run).log;
             && log[j].uid == log[k].uid && log[j].fingerprint == log[k].fingerprint
             && forall m | j < m < k :: log[m].uid != log[k].uid
    ensures var r := After(cfg, Init(gauges), run).log[j];
            r.fate.StampLost? || r.fate.Interrupted? || (r.fate.Undelivered? && !Delivered(r))
  {
    hide After, ServerInv, HashInv, PcInv, Guarded, Delivered;
    ReachableCore(cfg, gauges, run);
    var s := After(cfg, Init(gauges), run);
    assert GoodRound(cfg, s.server.history, s.log[j]);
    if s.log[j].fate.Recorded? {
      RepeatAfterChange(cfg, s.server.history, s.log, j, k);
      assert false;
    }
  }

  // ---- the "resolved" discipline

  lemma DriftBefore(cfg: Config, h: seq<Object>, log: seq<Round>, k: nat)
    requires LogInv(cfg, h, log) && k < |log| && log[k].drifted == []
    ensures exists j | 0 <= j < k :: RecordedFor(log[j], log[k].uid) && log[j].drifted != [] && Delivered(log[j])
  {
    hide Delivered;
    assert Guarded(log, k) && GoodRound(cfg, h, log[k]);
    var j := LastRecordedWitness(log[..k], log[k].uid);
    assert log[..k][j] == log[j] && GoodRound(cfg, h, log[j]);
    assert RecordedFor(log[j], log[k].uid);
  }

  /** Every "resolved" event follows a fully acknowledged, recorded round that carried drift. */
  lemma ResolvedHasCause(cfg: Config, gauges: map<Series, nat>, run: seq<Step>, k: nat)
    requires k < |After(cfg, Init(gauges), run).log| && After(cfg, Init(gauges), run).log[k].event.resolved
    ensures var log := After(cfg, Init(gauges), run).log;
            exists j | 0 <= j < k :: RecordedFor(log[j], log[k].uid) && log[j].drifted != [] && Delivered(log[j])
  {
    hide After, ServerInv, HashInv, OpenInv, PcInv, Delivered, Guarded;
    ReachableCore(cfg, gauges, run);
    var s := After(cfg, Init(gauges), run);
    assert GoodRound(cfg, s.server.history, s.log[k]);
    DriftBefore(cfg, s.server.history, s.log, k);
  }

  /** Two recorded "resolved" rounds have a recorded drift round between them. */
  lemma ResolvedAlternates(cfg: Config, gauges: map<Series, nat>, run: seq<Step>, j: nat, k: nat)
    requires j < k < |After(cfg, Init(gauges), run).log|
    requires var log := After(cfg, Init(gauges), run).log;
             log[j].event.resolved && log[k].event.resolved && RecordedFor(log[j], log[k].uid)
    ensures var log := After(cfg, Init(gauges), run).log;
            exists m | j < m < k :: RecordedFor(log[m], log[k].uid) && log[m].drifted != []
  {
    hide After, ServerInv, HashInv, OpenInv, PcInv, Delivered, Guarded;
    ReachableCore(cfg, gauges, run);
    var s := After(cfg, Init(gauges), run);
    var h := s.server.history;
    assert GoodRound(cfg, h, s.log[j]) && GoodRound(cfg, h, s.log[k]);
    RepeatAfterChange(cfg, h, s.log, j, k);
    var m :| j < m < k && RecordedFor(s.log[m], s.log[k].uid) && s.log[m].fingerprint != s.log[k].fingerprint;
    assert GoodRound(cfg, h, s.log[m]);
  }

  /** An object no version of which ever showed drift is never announced. */
  lemma NeverDriftedNeverSends(cfg: Config, gauges: map<Series, nat>, run: seq<Step>, uid: nat)
    requires var h := After(cfg, Init(gauges), run).server.history;
             forall i | 0 <= i < |h| && h[i].uid == uid :: h[i].status.drifted == []
    ensures var log := After(cfg, Init(gauges), run).log;
            forall k | 0 <= k < |log| :: log[k].uid != uid
  {
    hide After, ServerInv, HashInv, OpenInv, PcInv, Delivered, Guarded;
    ReachableCore(cfg, gauges, run);
    var s := After(cfg, Init(gauges), run);
    var h := s.server.history;
    forall k | 0 <= k < |s.log| ensures s.log[k].uid == uid ==> s.log[k].drifted == [] {
      assert GoodRound(cfg, h, s.log[k]);
    }
    forall k | 0 <= k < |s.log| ensures s.log[k].uid != uid {
      if s.log[k].uid == uid { DriftBefore(cfg, h, s.log, k); }
    }
  }

  // ---- status

  /** The status of every version ever stored, and its order over time. */
  lemma StatusCoherent(cfg: Config, gauges: map<Series, nat>, run: seq<Step>, i: nat, j: nat)
    requires var h := After(cfg, Init(gauges), run).server.history;
             i <= j < |h| && h[i].uid == h[j].uid
    ensures var h := After(cfg, Init(gauges), run).server.history;
            && h[i].status.observedGeneration <= ReadyGeneration(h[i].status) <= h[i].generation
            && |OfKind(h[i].status.conditions, READY)| <= 1
            && (IsReady(h[i].status) ==> h[i].status.observedGeneration == ReadyGeneration(h[i].status))
            && |h[i].status.drifted| == DriftCount(h[i].status.summary)
            && h[i].generation <= h[j].generation
            && h[i].status.observedGeneration <= h[j].status.observedGeneration
            && ReadyGeneration(h[i].status) <= ReadyGeneration(h[j].status)
  {
    hide After, LogInv, HashInv, OpenInv, PcInv, ReadyGeneration, IsReady, OfKind;
    ReachableCore(cfg, gauges, run);
    var h := After(cfg, Init(gauges), run).server.history;
    assert StatusOk(h[i].status, h[i].generation) && Before(h[i], h[j]);
  }

  // ---- what a receiver heard last

  /** Some endpoint of the audience acknowledged the round's event. */
  predicate Heard(r: Round, audience: iset<string>) {
    exists a | a in r.attempts :: a.acked && a.url.Some? && a.url.value in audience
  }

  /** The newest round of the object whose event the audience acknowledged. */
  function LastHeard(log: seq<Round>, uid: nat, audience: iset<string>): Option<Round> {
    if log == [] then None
    else if Last(log).uid == uid && Heard(Last(log), audience) then Some(Last(log))
    else LastHeard(log[..|log| - 1], uid, audience)
  }

  /** Its fingerprint. */
  function LastWord(log: seq<Round>, uid: nat, audience: iset<string>): string {
    var r := LastHeard(log, uid, audience);
    if r.None? then "" else r.value.fingerprint
  }

  /** Since the object's last recorded round, an unrecorded one has reached the audience. */
  predicate HeardSince(log: seq<Round>, uid: nat, audience: iset<string>) {
    if log == [] || RecordedFor(Last(log), uid) then false
    else (Last(log).uid == uid && Heard(Last(log), audience)) || HeardSince(log[..|log| - 1], uid, audience)
  }

  /** The audience took part in the object's last recorded round. */
  predicate HeardRecorded(log: seq<Round>, uid: nat, audience: iset<string>) {
    if log == [] then false
    else if RecordedFor(Last(log), uid) then Heard(Last(log), audience)
    else HeardRecorded(log[..|log| - 1], uid, audience)
  }

  /** The rounds before the object's last recorded one. */
  function BeforeRecorded(log: seq<Round>, uid: nat): seq<Round> {
    if log == [] then []
    else if RecordedFor(Last(log), uid) then log[..|log| - 1]
    else BeforeRecorded(log[..|log| - 1], uid)
  }

  lemma LogPrefix(cfg: Config, h: seq<Object>, log: seq<Round>)
    requires LogInv(cfg, h, log) && log != []
    ensures LogInv(cfg, h, log[..|log| - 1])
  {
    hide GoodRound;
    var n := |log| - 1;
    forall k | 0 <= k < n ensures GoodRound(cfg, h, log[..n][k]) && Guarded(log[..n], k) {
      assert GoodRound(cfg, h, log[k]) && Guarded(log, k);
      assert log[..n][..k] == log[..k];
    }
  }

  lemma {:induction false} LastWordOfLog(cfg: Config, h: seq<Object>, log: seq<Round>, uid: nat, audience: iset<string>)
    requires LogInv(cfg, h, log)
    ensures LastWord(log, uid, audience) == LastRecorded(log, uid) <==>
              && !HeardSince(log, uid, audience)
              && (HeardRecorded(log, uid, audience)
                  || LastWord(BeforeRecorded(log, uid), uid, audience) == LastRecorded(log, uid))
    ensures HeardRecorded(log, uid, audience) ==> LastRecorded(log, uid) != ""
  {
    hide GoodRound, Heard;
    if log != [] {
      var n := |log| - 1;
      LogPrefix(cfg, h, log);
      LastWordOfLog(cfg, h, log[..n], uid, audience);
      assert GoodRound(cfg, h, log[n]) && Guarded(log, n);
      RoundHasFingerprint(cfg, h, log[n]);
    }
  }

  lemma RoundHasFingerprint(cfg: Config, h: seq<Object>, r: Round)
    requires GoodRound(cfg, h, r)
    ensures r.fingerprint != ""
  {
    NeverSentinel(cfg.sha, r.drifted);
  }

  /** What the audience heard last is the stored fingerprint, which deduplication compares with, exactly
      when no unrecorded round since the last recorded one reached it, and it took part in that one or
      had already been told the same before. The audience is any set of endpoints; a single endpoint is
      absent from a recorded round when no webhook resolved to it then. */
  lemma LastWordIsStored(cfg: Config, gauges: map<Series, nat>, run: seq<Step>, audience: iset<string>)
    requires After(cfg, Init(gauges), run).server.current.Some?
    ensures var s := After(cfg, Init(gauges), run);
            var o := Live(s.server);
            LastWord(s.log, o.uid, audience) == o.status.lastNotifiedHash <==>
              && !HeardSince(s.log, o.uid, audience)
              && (HeardRecorded(s.log, o.uid, audience)
                  || LastWord(BeforeRecorded(s.log, o.uid), o.uid, audience) == o.status.lastNotifiedHash)
  {
    hide After, ServerInv, OpenInv, PcInv, LogInv;
    ReachableCore(cfg, gauges, run);
    var s := After(cfg, Init(gauges), run);
    LastWordOfLog(cfg, s.server.history, s.log, Live(s.server).uid, audience);
  }

  ghost predicate Everyone(audience: iset<string>) {
    forall url: string :: url in audience
  }

  /** Said of all endpoints together, the stored fingerprint is the last word exactly when no unrecorded
      round since the last recorded one reached anybody: somebody always took part in that one. */
  lemma LastWordToAnyone(cfg: Config, gauges: map<Series, nat>, run: seq<Step>, anyone: iset<string>)
    requires After(cfg, Init(gauges), run).server.current.Some? && Everyone(anyone)
    ensures var s := After(cfg, Init(gauges), run);
            var o := Live(s.server);
            LastWord(s.log, o.uid, anyone) == o.status.lastNotifiedHash <==> !HeardSince(s.log, o.uid, anyone)
  {
    hide After, ServerInv, OpenInv, PcInv, LogInv, Everyone;
    ReachableCore(cfg, gauges, run);
    var s := After(cfg, Init(gauges), run);
    LastWordIsStored(cfg, gauges, run, anyone);
    SomebodyInRecorded(cfg, s.server.history, s.log, Live(s.server).uid, anyone);
  }

  lemma {:induction false} SomebodyInRecorded(cfg: Config, h: seq<Object>, log: seq<Round>, uid: nat, anyone: iset<string>)
    requires LogInv(cfg, h, log) && Everyone(anyone)
    ensures HeardRecorded(log, uid, anyone) || (LastRecorded(log, uid) == "" && BeforeRecorded(log, uid) == [])
  {
    hide GoodRound, Heard, Everyone;
    if log != [] {
      var n := |log| - 1;
      LogPrefix(cfg, h, log);
      SomebodyInRecorded(cfg, h, log[..n], uid, anyone);
      assert GoodRound(cfg, h, log[n]);
      if log[n].fate.Recorded? { RecordedIsHeard(cfg, h, log[n], anyone); }
    }
  }

  lemma RecordedIsHeard(cfg: Config, h: seq<Object>, r: Round, anyone: iset<string>)
    requires GoodRound(cfg, h, r) && r.fate.Recorded? && Everyone(anyone)
    ensures Heard(r, anyone)
  {
    assert r.attempts[0] in r.attempts;
  }

  // ---- a receiver left with the wrong last word

  /** The last event the audience acknowledged says that all drift is resolved. */
  predicate ToldResolved(log: seq<Round>, uid: nat, audience: iset<string>) {
    var r := LastHeard(log, uid, audience);
    r.Some? && r.value.event.resolved
  }

  /** While drift is stored and its fingerprint with it, the last an endpoint heard is "resolved" in
      exactly two cases: since the last recorded round an unrecorded one has reached it, and the newest
      such round was clean; or it was not reached since, did not take part in the last recorded round
      either, and the rounds before that one had left it with "resolved". */
  lemma ToldResolvedExactly(cfg: Config, gauges: map<Series, nat>, run: seq<Step>, url: string)
    requires After(cfg, Init(gauges), run).server.current.Some?
    requires var o := Live(After(cfg, Init(gauges), run).server);
             && o.status.lastNotifiedHash == DriftHash(cfg.sha, o.status.drifted)
             && o.status.lastNotifiedHash != DriftHash(cfg.sha, [])
    ensures var s := After(cfg, Init(gauges), run);
            var uid := Live(s.server).uid;
            ToldResolved(s.log, uid, iset{url}) <==>
              if HeardSince(s.log, uid, iset{url}) then NewestSinceIsClean(s.log, uid, iset{url})
              else !HeardRecorded(s.log, uid, iset{url}) && ToldResolved(BeforeRecorded(s.log, uid), uid, iset{url})
  {
    hide After, ServerInv, OpenInv, PcInv, LogInv, DriftHash, GoodRound;
    ReachableCore(cfg, gauges, run);
    var s := After(cfg, Init(gauges), run);
    var r := LastHeard(s.log, Live(s.server).uid, iset{url});
    LastHeardOfLog(cfg, s.server.history, s.log, Live(s.server).uid, iset{url});
    if r.Some? { ResolvedIsClean(cfg, s.server.history, r.value); }
  }

  /** The newest of the unrecorded rounds that reached the audience since the last recorded one
      carried no drift. */
  predicate NewestSinceIsClean(log: seq<Round>, uid: nat, audience: iset<string>) {
    if log == [] || RecordedFor(Last(log), uid) then false
    else if Last(log).uid == uid && Heard(Last(log), audience) then Last(log).drifted == []
    else NewestSinceIsClean(log[..|log| - 1], uid, audience)
  }

  lemma ResolvedIsClean(cfg: Config, h: seq<Object>, r: Round)
    requires GoodRound(cfg, h, r)
    ensures r.event.resolved <==> r.drifted == []
    ensures r.fingerprint == DriftHash(cfg.sha, r.drifted)
  {
  }

  lemma {:induction false} LastHeardOfLog(cfg: Config, h: seq<Object>, log: seq<Round>, uid: nat, audience: iset<string>)
    requires LogInv(cfg, h, log)
    ensures var r := LastHeard(log, uid, audience);
            && (r.Some? ==> GoodRound(cfg, h, r.value))
            && (HeardSince(log, uid, audience) ==>
                  r.Some? && (NewestSinceIsClean(log, uid, audience) <==> r.value.drifted == []))
            && (!HeardSince(log, uid, audience) ==>
                  if HeardRecorded(log, uid, audience) then r.Some? && r.value.fingerprint == LastRecorded(log, uid)
                  else r == LastHeard(BeforeRecorded(log, uid), uid, audience))
  {
    hide GoodRound, Heard;
    if log != [] {
      var n := |log| - 1;
      LogPrefix(cfg, h, log);
      LastHeardOfLog(cfg, h, log[..n], uid, audience);
      assert GoodRound(cfg, h, log[n]);
    }
  }
}
