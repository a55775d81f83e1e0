/** The invariant of the step machine, kept by every controller and environment step. */
module ProtocolInvariant {
  import opened Text
  import opened Drift
  import opened Fingerprint
  import opened Metrics
  import opened Protocol

  /** The fingerprint of the last recorded round of an object, "" if it has none. */
  function LastRecorded(log: seq<Round>, uid: nat): string {
    if log == [] then ""
    else if Last(log).uid == uid && Last(log).fate.Recorded? then Last(log).fingerprint
    else LastRecorded(log[..|log| - 1], uid)
  }

  /** Every webhook of the round acknowledged its event. */
  predicate Delivered(r: Round) {
    |r.attempts| == |r.webhooks| && forall a | a in r.attempts :: a.acked
  }

  predicate GoodRound(cfg: Config, h: seq<Object>, r: Round) {
    && r.version < |h| && h[r.version].uid == r.uid && h[r.version].status.drifted == r.drifted
    && h[r.version].spec.notify == Some(r.webhooks) && r.webhooks != []
    && r.fingerprint == DriftHash(cfg.sha, r.drifted)
    && r.event == EventOf(cfg.check.name, cfg.check.namespace, r.drifted, h[r.version].status.summary, r.drifted == [])
    && |r.attempts| <= |r.webhooks|
    && (forall a | a in r.attempts :: a.acked ==> a.url.Some?)
    && (r.fate.Recorded? || r.fate.StampLost? ==> Delivered(r))
    && (r.fate.Undelivered? ==> |r.attempts| == |r.webhooks| && !Delivered(r))
  }

  /** What notify's guards leave behind: a round differs from the last recorded one of its object,
      and a round without drift has a recorded one before it. */
  predicate Guarded(log: seq<Round>, k: nat)
    requires k < |log|
  {
    var prev := LastRecorded(log[..k], log[k].uid);
    log[k].fingerprint != prev && (log[k].drifted == [] ==> prev != "")
  }

  predicate LogInv(cfg: Config, h: seq<Object>, log: seq<Round>) {
    forall k | 0 <= k < |log| :: GoodRound(cfg, h, log[k]) && Guarded(log, k)
  }

  predicate StatusOk(st: DriftStatus, generation: nat) {
    && st.observedGeneration <= ReadyGeneration(st) <= generation
    && |OfKind(st.conditions, READY)| <= 1
    && (IsReady(st) ==> st.observedGeneration == ReadyGeneration(st))
    && |st.drifted| == DriftCount(st.summary)
    && (forall d | d in st.drifted :: d.status.IsDrift())
  }

  /** b is a later version than a of the same object. */
  predicate Before(a: Object, b: Object) {
    && a.generation <= b.generation
    && a.status.observedGeneration <= b.status.observedGeneration
    && ReadyGeneration(a.status) <= ReadyGeneration(b.status)
  }

  predicate ServerInv(sv: Server) {
    && (forall i | 0 <= i < |sv.history| :: sv.history[i].version == i)
    && (forall i | 0 <= i < |sv.history| :: sv.history[i].uid < sv.uids)
    && (forall i | 0 <= i < |sv.history| :: StatusOk(sv.history[i].status, sv.history[i].generation))
    && (sv.current.Some? ==> sv.history != [] && Live(sv) == sv.history[|sv.history| - 1])
    && (forall i, j | 0 <= i <= j < |sv.history| && sv.history[i].uid == sv.history[j].uid ::
          Before(sv.history[i], sv.history[j]))
  }

  predicate IsRecorded(log: seq<Round>, uid: nat, hash: string) {
    exists k | 0 <= k < |log| :: log[k].uid == uid && log[k].fate.Recorded? && log[k].fingerprint == hash
  }

  predicate HashInv(sv: Server, log: seq<Round>) {
    && (sv.current.Some? ==> Live(sv).status.lastNotifiedHash == LastRecorded(log, Live(sv).uid))
    && (forall i | 0 <= i < |sv.history| && sv.history[i].status.lastNotifiedHash != "" ::
          IsRecorded(log, sv.history[i].uid, sv.history[i].status.lastNotifiedHash))
  }

  predicate OpenInv(pc: Pc, log: seq<Round>) {
    forall k | 0 <= k < |log| && log[k].fate.Open? :: k == |log| - 1 && (pc.Sending? || pc.Stamping?)
  }

  /** Nothing the controller wrote since dc's version changed the status of dc's object. */
  predicate Settled(sv: Server, log: seq<Round>, dc: Object) {
    && dc.version < |sv.history| && dc == sv.history[dc.version]
    && (forall j | dc.version <= j < |sv.history| && sv.history[j].uid == dc.uid :: sv.history[j].status == dc.status)
    && dc.status.lastNotifiedHash == LastRecorded(log, dc.uid)
  }

  predicate InRound(log: seq<Round>, dc: Object) {
    && log != [] && Last(log).fate.Open?
    && Last(log).uid == dc.uid && Last(log).version == dc.version
  }

  predicate JudgedOk(o: Object, st: DriftStatus, verdict: Verdict) {
    && StatusOk(st, o.generation) && ReadyGeneration(st) == o.generation
    && o.status.observedGeneration <= st.observedGeneration
    && st.lastNotifiedHash == o.status.lastNotifiedHash
    && (!verdict.Evaluated? ==> st.summary == o.status.summary)
  }

  predicate PcInv(sv: Server, pc: Pc, log: seq<Round>) {
    match pc
    case Idle => true
    case Loaded(dc) => dc.version < |sv.history| && dc == sv.history[dc.version]
    case Judged(dc, verdict) =>
      && dc.version < |sv.history|
      && dc == WithStatus(sv.history[dc.version], dc.status)
      && JudgedOk(sv.history[dc.version], dc.status, verdict)
    case Recording(dc, labels) => Settled(sv, log, dc) && labels < |LABELS|
    case Deciding(dc) => Settled(sv, log, dc)
    case Sending(dc, failed) =>
      && Settled(sv, log, dc) && InRound(log, dc)
      && (failed <==> exists a | a in Last(log).attempts :: !a.acked)
    case Stamping(dc) =>
      && dc.version < |sv.history|
      && Settled(sv, log, sv.history[dc.version]) && InRound(log, sv.history[dc.version]) && Delivered(Last(log))
      && dc == WithStatus(sv.history[dc.version], StampedStatus(sv.history[dc.version], Last(log).fingerprint))
  }

  predicate Core(cfg: Config, s: State) {
    && ServerInv(s.server)
    && LogInv(cfg, s.server.history, s.log)
    && HashInv(s.server, s.log)
    && OpenInv(s.pc, s.log)
    && PcInv(s.server, s.pc, s.log)
  }

  // ---- the condition list

  lemma {:induction false} SetConditionEffect(cs: seq<Condition>, c: Condition, kind: string)
    ensures kind != c.kind ==> OfKind(SetCondition(cs, c), kind) == OfKind(cs, kind)
    ensures kind == c.kind && |OfKind(cs, kind)| <= 1 ==> OfKind(SetCondition(cs, c), kind) == [c]
  {
    if cs == [] {
      assert OfKind([c], kind) == (if c.kind == kind then [c] else []) + OfKind([], kind);
    } else if cs[0].kind == c.kind {
      var t := [c] + cs[1..];
      assert t[1..] == cs[1..];
      if kind == c.kind && |OfKind(cs, kind)| <= 1 { assert |OfKind(cs[1..], kind)| == 0; }
    } else {
      SetConditionEffect(cs[1..], c, kind);
      var t := [cs[0]] + SetCondition(cs[1..], c);
      assert t[1..] == SetCondition(cs[1..], c);
    }
  }

  lemma EvaluatedOk(o: Object, results: seq<Result>)
    requires StatusOk(o.status, o.generation)
    ensures JudgedOk(o, EvaluatedStatus(o, results), Evaluated)
  {
    SetConditionEffect(o.status.conditions, Condition(READY, true, "DriftEvaluated", o.generation), READY);
    SummaryConserves(results);
    OnlyDrift(results);
  }

  lemma FailedOk(o: Object, reason: string, verdict: Verdict)
    requires StatusOk(o.status, o.generation) && !verdict.Evaluated?
    ensures JudgedOk(o, FailedStatus(o, reason), verdict)
  {
    SetConditionEffect(o.status.conditions, Condition(READY, false, reason, o.generation), READY);
  }

  // ---- the server

  /** Storing a successor of the live version keeps the server's invariant. */
  lemma CommitKeeps(sv: Server, o: Object)
    requires ServerInv(sv) && sv.current.Some?
    requires o.uid == Live(sv).uid && Before(Live(sv), o) && StatusOk(o.status, o.generation)
    ensures ServerInv(Commit(sv, o))
  {
    var sv', n := Commit(sv, o), |sv.history|;
    forall i, j | 0 <= i <= j < |sv'.history| && sv'.history[i].uid == sv'.history[j].uid
      ensures Before(sv'.history[i], sv'.history[j])
    {
      if j == n && i < n {
        assert Before(sv.history[i], sv.history[n - 1]);
      }
    }
  }

  lemma CreateKeeps(sv: Server, spec: Spec)
    requires ServerInv(sv) && sv.current.None?
    ensures ServerInv(Environment(sv, Create(spec)))
  {
    var o := Object(sv.uids, 1, |sv.history|, spec, FRESH);
    assert Environment(sv, Create(spec)) == Server(Some(o), sv.history + [o], sv.uids + 1);
    FreshOk();
    AppendKeeps(sv, o);
  }

  lemma FreshOk()
    ensures StatusOk(FRESH, 1)
  {
  }

  lemma AppendKeeps(sv: Server, o: Object)
    requires ServerInv(sv)
    requires o.uid == sv.uids && o.version == |sv.history| && StatusOk(o.status, o.generation)
    ensures ServerInv(Server(Some(o), sv.history + [o], sv.uids + 1))
  {
  }

  lemma EnvironmentKeepsServer(sv: Server, a: Step)
    requires ServerInv(sv) && IsEnvironment(a)
    ensures ServerInv(Environment(sv, a))
  {
    if sv.current.Some? {
      var o := Live(sv);
      if a.Edit? { CommitKeeps(sv, Object(o.uid, o.generation + 1, o.version, a.spec, o.status)); }
      if a.Touch? { CommitKeeps(sv, o); }
    } else if a.Create? {
      CreateKeeps(sv, a.spec);
    }
  }

  // ---- the log

  /** History only grows, and a round keeps describing the same version. */
  lemma LogGrowsHistory(cfg: Config, h: seq<Object>, o: Object, log: seq<Round>)
    requires LogInv(cfg, h, log)
    ensures LogInv(cfg, h + [o], log)
  {
    forall k | 0 <= k < |log| ensures GoodRound(cfg, h + [o], log[k]) && Guarded(log, k) {
      assert GoodRound(cfg, h, log[k]) && Guarded(log, k);
    }
  }

  lemma LogAppend(cfg: Config, h: seq<Object>, log: seq<Round>, r: Round)
    requires LogInv(cfg, h, log) && GoodRound(cfg, h, r)
    requires r.fingerprint != LastRecorded(log, r.uid)
    requires r.drifted == [] ==> LastRecorded(log, r.uid) != ""
    ensures LogInv(cfg, h, log + [r])
  {
    var log' := log + [r];
    forall k | 0 <= k < |log'| ensures GoodRound(cfg, h, log'[k]) && Guarded(log', k) {
      assert log'[..k] == log[..k];
      if k < |log| {
        assert Guarded(log, k);
      } else {
        assert log[..k] == log;
      }
    }
  }

  lemma LogSetLast(cfg: Config, h: seq<Object>, log: seq<Round>, r: Round)
    requires LogInv(cfg, h, log) && log != [] && GoodRound(cfg, h, r)
    requires r.uid == Last(log).uid && r.fingerprint == Last(log).fingerprint && r.drifted == Last(log).drifted
    ensures LogInv(cfg, h, SetLast(log, r))
  {
    var log' := SetLast(log, r);
    forall k | 0 <= k < |log'| ensures GoodRound(cfg, h, log'[k]) && Guarded(log', k) {
      SetLastAt(cfg, h, log, r, k);
    }
  }

  lemma SetLastAt(cfg: Config, h: seq<Object>, log: seq<Round>, r: Round, k: nat)
    requires log != [] && k < |log| && GoodRound(cfg, h, log[k]) && Guarded(log, k) && GoodRound(cfg, h, r)
    requires r.uid == Last(log).uid && r.fingerprint == Last(log).fingerprint && r.drifted == Last(log).drifted
    ensures GoodRound(cfg, h, SetLast(log, r)[k]) && Guarded(SetLast(log, r), k)
  {
    hide Delivered, EventOf, DriftHash;
    assert SetLast(log, r)[k] == if k < |log| - 1 then log[k] else r;
    assert SetLast(log, r)[..k] == log[..k];
    GuardedPrefix(log, SetLast(log, r), k);
  }

  /** Being guarded depends on the rounds before and on the round's subject only. */
  lemma GuardedPrefix(log: seq<Round>, log': seq<Round>, k: nat)
    requires k < |log| && k < |log'| && log'[..k] == log[..k]
    requires log'[k].uid == log[k].uid && log'[k].fingerprint == log[k].fingerprint && log'[k].drifted == log[k].drifted
    ensures Guarded(log, k) <==> Guarded(log', k)
  {
  }

  /** Only a round's turning Recorded changes the last recorded fingerprint. */
  lemma LastRecordedSetLast(log: seq<Round>, r: Round, uid: nat)
    requires log != [] && Last(log).fate.Open?
    requires r.uid == Last(log).uid && r.fingerprint == Last(log).fingerprint
    ensures LastRecorded(SetLast(log, r), uid)
            == if r.uid == uid && r.fate.Recorded? then r.fingerprint else LastRecorded(log, uid)
  {
    assert SetLast(log, r)[..|log| - 1] == log[..|log| - 1];
  }

  lemma LastRecordedAppendOpen(log: seq<Round>, r: Round, uid: nat)
    requires r.fate.Open?
    ensures LastRecorded(log + [r], uid) == LastRecorded(log, uid)
  {
    assert (log + [r])[..|log|] == log;
  }

  lemma {:induction false} NoRounds(log: seq<Round>, uid: nat)
    requires forall k | 0 <= k < |log| :: log[k].uid != uid
    ensures LastRecorded(log, uid) == ""
  {
    if log != [] {
      NoRounds(log[..|log| - 1], uid);
    }
  }

  /** Recorded fingerprints stay recorded. */
  lemma IsRecordedSetLast(log: seq<Round>, r: Round, uid: nat, hash: string)
    requires log != [] && Last(log).fate.Open?
    requires IsRecorded(log, uid, hash)
    ensures IsRecorded(SetLast(log, r), uid, hash)
  {
    var k :| 0 <= k < |log| && log[k].uid == uid && log[k].fate.Recorded? && log[k].fingerprint == hash;
    assert SetLast(log, r)[k] == log[k];
  }

  lemma HashSetLast(sv: Server, log: seq<Round>, r: Round)
    requires HashInv(sv, log) && log != [] && Last(log).fate.Open?
    requires r.uid == Last(log).uid && r.fingerprint == Last(log).fingerprint && !r.fate.Recorded?
    ensures HashInv(sv, SetLast(log, r))
    ensures forall uid :: LastRecorded(SetLast(log, r), uid) == LastRecorded(log, uid)
  {
    forall uid ensures LastRecorded(SetLast(log, r), uid) == LastRecorded(log, uid) {
      LastRecordedSetLast(log, r, uid);
    }
    forall i | 0 <= i < |sv.history| && sv.history[i].status.lastNotifiedHash != ""
      ensures IsRecorded(SetLast(log, r), sv.history[i].uid, sv.history[i].status.lastNotifiedHash)
    {
      IsRecordedSetLast(log, r, sv.history[i].uid, sv.history[i].status.lastNotifiedHash);
    }
  }

  lemma HashAppend(sv: Server, log: seq<Round>, r: Round)
    requires HashInv(sv, log) && r.fate.Open?
    ensures HashInv(sv, log + [r])
    ensures forall uid :: LastRecorded(log + [r], uid) == LastRecorded(log, uid)
  {
    forall uid ensures LastRecorded(log + [r], uid) == LastRecorded(log, uid) {
      LastRecordedAppendOpen(log, r, uid);
    }
    forall i | 0 <= i < |sv.history| && sv.history[i].status.lastNotifiedHash != ""
      ensures IsRecorded(log + [r], sv.history[i].uid, sv.history[i].status.lastNotifiedHash)
    {
      var k :| 0 <= k < |log| && log[k].uid == sv.history[i].uid && log[k].fate.Recorded?
               && log[k].fingerprint == sv.history[i].status.lastNotifiedHash;
      assert (log + [r])[k] == log[k];
    }
  }

  lemma HashCommit(sv: Server, log: seq<Round>, o: Object)
    requires HashInv(sv, log)
    requires o.status.lastNotifiedHash == LastRecorded(log, o.uid)
    requires o.status.lastNotifiedHash != "" ==> IsRecorded(log, o.uid, o.status.lastNotifiedHash)
    ensures HashInv(Commit(sv, o), log)
  {
  }

  lemma LiveIsRecorded(sv: Server, log: seq<Round>)
    requires ServerInv(sv) && HashInv(sv, log) && sv.current.Some?
    ensures Live(sv).status.lastNotifiedHash != ""
            ==> IsRecorded(log, Live(sv).uid, Live(sv).status.lastNotifiedHash)
  {
    assert Live(sv) == sv.history[|sv.history| - 1];
  }

  // ---- environment steps

  lemma FreshUid(cfg: Config, sv: Server, log: seq<Round>)
    requires ServerInv(sv) && LogInv(cfg, sv.history, log)
    ensures LastRecorded(log, sv.uids) == ""
  {
    forall k | 0 <= k < |log| ensures log[k].uid != sv.uids {
      assert GoodRound(cfg, sv.history, log[k]);
    }
    NoRounds(log, sv.uids);
  }

  lemma EnvironmentKeepsLog(cfg: Config, sv: Server, log: seq<Round>, a: Step)
    requires ServerInv(sv) && LogInv(cfg, sv.history, log) && HashInv(sv, log) && IsEnvironment(a)
    ensures LogInv(cfg, Environment(sv, a).history, log) && HashInv(Environment(sv, a), log)
  {
    var sv' := Environment(sv, a);
    if |sv'.history| > |sv.history| {
      var o := sv'.history[|sv.history|];
      assert sv'.history == sv.history + [o];
      LogGrowsHistory(cfg, sv.history, o, log);
      if sv.current.Some? {
        LiveIsRecorded(sv, log);
        assert HashInv(Commit(sv, o), log) by { HashCommit(sv, log, o); }
      } else {
        FreshUid(cfg, sv, log);
      }
    }
  }

  /** An environment step leaves every status as it is and creates no version of a dead object. */
  lemma EnvironmentKeepsSettled(sv: Server, log: seq<Round>, dc: Object, a: Step)
    requires ServerInv(sv) && Settled(sv, log, dc) && IsEnvironment(a)
    ensures Settled(Environment(sv, a), log, dc)
  {
    var sv' := Environment(sv, a);
    forall j | dc.version <= j < |sv'.history| && sv'.history[j].uid == dc.uid ensures sv'.history[j].status == dc.status {
      if j == |sv.history| && sv.current.Some? {
        assert sv.history[j - 1] == Live(sv);
      }
    }
  }

  lemma EnvironmentKeepsPc(sv: Server, pc: Pc, log: seq<Round>, a: Step)
    requires ServerInv(sv) && PcInv(sv, pc, log) && IsEnvironment(a)
    ensures PcInv(Environment(sv, a), pc, log)
  {
    if pc.Recording? || pc.Deciding? || pc.Sending? {
      EnvironmentKeepsSettled(sv, log, pc.dc, a);
    } else if pc.Stamping? {
      EnvironmentKeepsSettled(sv, log, sv.history[pc.dc.version], a);
    }
  }

  lemma EnvironmentKeepsCore(cfg: Config, s: State, a: Step)
    requires Core(cfg, s) && IsEnvironment(a)
    ensures Core(cfg, Next(cfg, s, a))
  {
    hide ServerInv, LogInv, HashInv, PcInv, OpenInv, Environment;
    EnvironmentKeepsServer(s.server, a);
    EnvironmentKeepsLog(cfg, s.server, s.log, a);
    EnvironmentKeepsPc(s.server, s.pc, s.log, a);
  }

  lemma LastGood(cfg: Config, s: State)
    requires Core(cfg, s) && s.log != []
    ensures GoodRound(cfg, s.server.history, Last(s.log))
  {
    hide ServerInv, HashInv, OpenInv, PcInv, GoodRound, Guarded;
  }

  lemma OpenSetLast(pc: Pc, log: seq<Round>, r: Round, pc': Pc)
    requires OpenInv(pc, log) && log != []
    requires r.fate.Open? ==> pc'.Sending? || pc'.Stamping?
    ensures OpenInv(pc', SetLast(log, r))
  {
    assert forall k | 0 <= k < |log| - 1 :: SetLast(log, r)[k] == log[k];
  }

  lemma SettledSetLast(sv: Server, log: seq<Round>, r: Round, dc: Object)
    requires Settled(sv, log, dc) && log != [] && Last(log).fate.Open?
    requires r.uid == Last(log).uid && r.fingerprint == Last(log).fingerprint && !r.fate.Recorded?
    ensures Settled(sv, SetLast(log, r), dc)
  {
    hide LastRecorded;
    LastRecordedSetLast(log, r, dc.uid);
  }

  /** The open round moves on, or ends without being recorded. */
  lemma SetLastCore(cfg: Config, s: State, t: State, r: Round)
    requires Core(cfg, s) && s.log != [] && Last(s.log).fate.Open? && GoodRound(cfg, s.server.history, r)
    requires r.uid == Last(s.log).uid && r.fingerprint == Last(s.log).fingerprint && r.drifted == Last(s.log).drifted
    requires !r.fate.Recorded? && (r.fate.Open? ==> t.pc.Sending? || t.pc.Stamping?)
    requires t.server == s.server && t.log == SetLast(s.log, r) && PcInv(t.server, t.pc, t.log)
    ensures Core(cfg, t)
  {
    hide ServerInv, LogInv, HashInv, OpenInv, PcInv, GoodRound, SetLast;
    LogSetLast(cfg, s.server.history, s.log, r);
    HashSetLast(s.server, s.log, r);
    OpenSetLast(s.pc, s.log, r, t.pc);
  }

  lemma EndedOk(cfg: Config, h: seq<Object>, r: Round, fate: Fate)
    requires GoodRound(cfg, h, r)
    requires fate.Recorded? || fate.StampLost? ==> Delivered(r)
    requires fate.Undelivered? ==> |r.attempts| == |r.webhooks| && !Delivered(r)
    ensures GoodRound(cfg, h, Concluded(r, fate))
  {
  }

  lemma RestartKeepsCore(cfg: Config, s: State)
    requires Core(cfg, s)
    ensures Core(cfg, Next(cfg, s, Restart))
  {
    hide ServerInv, LogInv, HashInv, GoodRound, SetLast;
    var t := Next(cfg, s, Restart);
    if s.log != [] && Last(s.log).fate.Open? {
      var r := Concluded(Last(s.log), Interrupted);
      LastGood(cfg, s);
      EndedOk(cfg, s.server.history, Last(s.log), Interrupted);
      assert t.server == s.server && t.log == SetLast(s.log, r);
      SetLastCore(cfg, s, t, r);
    } else {
      OnlyPc(cfg, s, t);
    }
  }

  lemma SameParts(cfg: Config, s: State, t: State)
    requires Core(cfg, s) && t.server == s.server && t.pc == s.pc && t.log == s.log
    ensures Core(cfg, t)
  {
    hide ServerInv, LogInv, HashInv, OpenInv, PcInv;
  }

  /** An abort leaves behind what a restart does, but for the gauges. */
  lemma AbortLikeRestart(s: State)
    ensures var t, r := OnAbort(s), OnRestart(s);
            t == s || (t.server == r.server && t.pc == r.pc && t.log == r.log)
  {
    hide SetLast, Concluded, Later, Last;
  }

  lemma AbortKeepsCore(cfg: Config, s: State)
    requires Core(cfg, s)
    ensures Core(cfg, Next(cfg, s, Abort))
  {
    hide Core, OnAbort, OnRestart;
    RestartKeepsCore(cfg, s);
    AbortLikeRestart(s);
    if OnAbort(s) != s {
      SameParts(cfg, OnRestart(s), OnAbort(s));
    }
  }

  // ---- controller steps

  /** A step that touches neither server nor log only has to account for its program counter. */
  lemma OnlyPc(cfg: Config, s: State, t: State)
    requires Core(cfg, s) && t.server == s.server && t.log == s.log
    requires PcInv(t.server, t.pc, t.log) && OpenInv(t.pc, t.log)
    ensures Core(cfg, t)
  {
    hide ServerInv, LogInv, HashInv, OpenInv, PcInv;
  }

  lemma GetKeepsCore(cfg: Config, s: State, a: Step)
    requires Core(cfg, s) && a.Get?
    ensures Core(cfg, Next(cfg, s, a))
  {
    hide LogInv, HashInv;
  }

  lemma JudgedCore(cfg: Config, s: State, t: State, st: DriftStatus, verdict: Verdict)
    requires Core(cfg, s) && s.pc.Loaded? && JudgedOk(s.pc.dc, st, verdict)
    requires t.server == s.server && t.log == s.log && t.pc == Judged(WithStatus(s.pc.dc, st), verdict)
    ensures Core(cfg, t)
  {
    hide ServerInv, LogInv, HashInv;
    assert PcInv(t.server, t.pc, t.log);
    OnlyPc(cfg, s, t);
  }

  lemma LoadedOk(cfg: Config, s: State)
    requires Core(cfg, s) && s.pc.Loaded?
    ensures StatusOk(s.pc.dc.status, s.pc.dc.generation)
  {
    hide LogInv, HashInv, OpenInv;
  }

  lemma EvaluateKeepsCore(cfg: Config, s: State, a: Step)
    requires Core(cfg, s) && a.Evaluate?
    ensures Core(cfg, Next(cfg, s, a))
  {
    hide ServerInv, LogInv, HashInv, OpenInv, PcInv, StatusOk, JudgedOk, EvaluatedStatus;
    if s.pc.Loaded? {
      LoadedOk(cfg, s);
      EvaluatedOk(s.pc.dc, a.results);
      JudgedCore(cfg, s, Next(cfg, s, a), EvaluatedStatus(s.pc.dc, a.results), Evaluated);
    }
  }

  lemma FailKeepsCore(cfg: Config, s: State, a: Step)
    requires Core(cfg, s) && a.Fail?
    ensures Core(cfg, Next(cfg, s, a))
  {
    hide ServerInv, LogInv, HashInv, OpenInv, PcInv, StatusOk, JudgedOk, FailedStatus;
    if s.pc.Loaded? && !a.verdict.Evaluated? {
      LoadedOk(cfg, s);
      FailedOk(s.pc.dc, a.reason, a.verdict);
      var t := Next(cfg, s, a);
      assert t.server == s.server && t.log == s.log;
      assert t.pc == Judged(WithStatus(s.pc.dc, FailedStatus(s.pc.dc, a.reason)), a.verdict);
      JudgedCore(cfg, s, t, FailedStatus(s.pc.dc, a.reason), a.verdict);
    } else {
      assert Next(cfg, s, a) == s;
    }
  }

  /** The live version is the one a conflict-free write was prepared from. */
  lemma AcceptedIsRead(sv: Server, dc: Object)
    requires ServerInv(sv) && Accepts(sv, dc) && dc.version < |sv.history|
    ensures Live(sv) == sv.history[dc.version] && dc.version == |sv.history| - 1
  {
  }

  lemma StoredVerdict(cfg: Config, sv: Server, log: seq<Round>, dc: Object, verdict: Verdict)
    requires ServerInv(sv) && LogInv(cfg, sv.history, log) && HashInv(sv, log)
    requires PcInv(sv, Judged(dc, verdict), log) && Accepts(sv, dc)
    ensures var sv' := Commit(sv, WithStatus(Live(sv), dc.status));
            ServerInv(sv') && LogInv(cfg, sv'.history, log) && HashInv(sv', log) && Settled(sv', log, Live(sv'))
  {
    AcceptedIsRead(sv, dc);
    var o := WithStatus(Live(sv), dc.status);
    var sv' := Commit(sv, o);
    CommitKeeps(sv, o);
    LogGrowsHistory(cfg, sv.history, Live(sv'), log);
    LiveIsRecorded(sv, log);
    HashCommit(sv, log, o);
  }

  lemma StoredCore(cfg: Config, s: State, t: State)
    requires Core(cfg, s) && s.pc.Judged? && t.log == s.log && t.server.current.Some?
    requires ServerInv(t.server) && LogInv(cfg, t.server.history, t.log) && HashInv(t.server, t.log)
    requires Settled(t.server, t.log, Live(t.server))
    requires t.pc.Idle? || t.pc == Recording(Live(t.server), 0)
    ensures Core(cfg, t)
  {
    hide ServerInv, LogInv, HashInv, Settled;
    assert OpenInv(t.pc, t.log);
  }

  lemma PutStoredKeepsCore(cfg: Config, s: State, a: Step)
    requires Core(cfg, s) && a.Put? && s.pc.Judged? && !a.reply.Rejected? && Accepts(s.server, s.pc.dc)
    ensures Core(cfg, Next(cfg, s, a))
  {
    hide ServerInv, LogInv, HashInv, Settled, PcInv, OpenInv;
    StoredVerdict(cfg, s.server, s.log, s.pc.dc, s.pc.verdict);
    var t, sv' := Next(cfg, s, a), Commit(s.server, WithStatus(Live(s.server), s.pc.dc.status));
    assert t.server == sv' && t.log == s.log && (t.pc.Idle? || t.pc == Recording(Live(sv'), 0));
    StoredCore(cfg, s, t);
  }

  lemma PutVerdictKeepsCore(cfg: Config, s: State, a: Step)
    requires Core(cfg, s) && a.Put? && s.pc.Judged?
    ensures Core(cfg, Next(cfg, s, a))
  {
    hide ServerInv, LogInv, HashInv;
    if !a.reply.Rejected? && Accepts(s.server, s.pc.dc) {
      PutStoredKeepsCore(cfg, s, a);
    } else {
      var t := Next(cfg, s, a);
      assert t.server == s.server && t.log == s.log && t.pc.Idle?;
      OnlyPc(cfg, s, t);
    }
  }

  lemma HashStamp(sv: Server, log: seq<Round>, r: Round, o: Object)
    requires HashInv(sv, log) && log != [] && Last(log).fate.Open?
    requires r == Concluded(Last(log), Recorded) && r.uid == o.uid && o.status.lastNotifiedHash == r.fingerprint
    ensures HashInv(Commit(sv, o), SetLast(log, r))
  {
    var log', sv' := SetLast(log, r), Commit(sv, o);
    LastRecordedSetLast(log, r, o.uid);
    assert log'[|log| - 1] == r;
    forall i | 0 <= i < |sv'.history| && sv'.history[i].status.lastNotifiedHash != ""
      ensures IsRecorded(log', sv'.history[i].uid, sv'.history[i].status.lastNotifiedHash)
    {
      if i < |sv.history| {
        IsRecordedSetLast(log, r, sv.history[i].uid, sv.history[i].status.lastNotifiedHash);
      }
    }
  }

  lemma StampedOk(o: Object, hash: string)
    requires StatusOk(o.status, o.generation)
    ensures StatusOk(StampedStatus(o, hash), o.generation)
    ensures Before(o, WithStatus(o, StampedStatus(o, hash)))
  {
  }

  lemma StampStored(cfg: Config, s: State, t: State)
    requires Core(cfg, s) && s.pc.Stamping? && Accepts(s.server, s.pc.dc)
    requires t.server == Commit(s.server, WithStatus(Live(s.server), s.pc.dc.status))
    requires t.log == SetLast(s.log, Concluded(Last(s.log), Recorded)) && t.pc.Idle?
    ensures Core(cfg, t)
  {
    hide ServerInv, LogInv, HashInv, OpenInv, GoodRound, SetLast, StatusOk, Before, LastRecorded;
    var sv := s.server;
    var o, r := WithStatus(Live(sv), s.pc.dc.status), Concluded(Last(s.log), Recorded);
    AcceptedIsRead(sv, s.pc.dc);
    LiveOk(sv);
    StampedOk(Live(sv), Last(s.log).fingerprint);
    CommitKeeps(sv, o);
    LastGood(cfg, s);
    EndedOk(cfg, sv.history, Last(s.log), Recorded);
    LogSetLast(cfg, sv.history, s.log, r);
    LogGrowsHistory(cfg, sv.history, Live(t.server), t.log);
    HashStamp(sv, s.log, r, o);
    OpenSetLast(s.pc, s.log, r, t.pc);
  }

  lemma LiveOk(sv: Server)
    requires ServerInv(sv) && sv.current.Some?
    ensures StatusOk(Live(sv).status, Live(sv).generation)
  {
    hide StatusOk;
    assert Live(sv) == sv.history[|sv.history| - 1];
  }

  lemma PutStampKeepsCore(cfg: Config, s: State, a: Step)
    requires Core(cfg, s) && a.Put? && s.pc.Stamping?
    ensures Core(cfg, Next(cfg, s, a))
  {
    hide ServerInv, LogInv, HashInv, OpenInv, GoodRound, SetLast, Settled, Commit;
    var t := Next(cfg, s, a);
    if !a.reply.Rejected? && Accepts(s.server, s.pc.dc) {
      StampStored(cfg, s, t);
    } else {
      LastGood(cfg, s);
      EndedOk(cfg, s.server.history, Last(s.log), StampLost);
      SetLastCore(cfg, s, t, Concluded(Last(s.log), StampLost));
    }
  }

  lemma NewRoundOk(cfg: Config, sv: Server, log: seq<Round>, dc: Object)
    requires ServerInv(sv) && Settled(sv, log, dc) && MustSend(cfg, dc)
    ensures var r := NewRound(cfg, dc);
            && GoodRound(cfg, sv.history, r)
            && r.fingerprint != LastRecorded(log, r.uid) && (r.drifted == [] ==> LastRecorded(log, r.uid) != "")
            && r.uid == dc.uid && r.version == dc.version && r.fate.Open? && r.attempts == []
  {
    assert StatusOk(dc.status, dc.generation);
  }

  lemma OpenedCore(cfg: Config, s: State, t: State, r: Round)
    requires Core(cfg, s) && s.pc.Deciding? && t.server == s.server && t.log == s.log + [r]
    requires LogInv(cfg, t.server.history, t.log) && HashInv(t.server, t.log)
    requires LastRecorded(t.log, s.pc.dc.uid) == LastRecorded(s.log, s.pc.dc.uid)
    requires r.uid == s.pc.dc.uid && r.version == s.pc.dc.version && r.fate.Open? && r.attempts == []
    requires t.pc == Sending(s.pc.dc, false)
    ensures Core(cfg, t)
  {
    hide ServerInv, LogInv, HashInv;
    assert Last(t.log) == r;
    assert Settled(t.server, t.log, s.pc.dc) && InRound(t.log, s.pc.dc);
    assert OpenInv(t.pc, t.log);
  }

  lemma DecideKeepsCore(cfg: Config, s: State, a: Step)
    requires Core(cfg, s) && a.Decide?
    ensures Core(cfg, Next(cfg, s, a))
  {
    hide ServerInv, LogInv, HashInv, OpenInv, Settled, GoodRound, NewRound, LastRecorded;
    if s.pc.Deciding? {
      var t := Next(cfg, s, a);
      if MustSend(cfg, s.pc.dc) {
        var r := NewRound(cfg, s.pc.dc);
        NewRoundOk(cfg, s.server, s.log, s.pc.dc);
        LogAppend(cfg, s.server.history, s.log, r);
        HashAppend(s.server, s.log, r);
        OpenedCore(cfg, s, t, r);
      } else {
        StillOpen(s.pc, s.log, t.pc);
        OnlyPc(cfg, s, t);
      }
    }
  }

  lemma AttemptedOk(cfg: Config, h: seq<Object>, r: Round, a: Attempt)
    requires GoodRound(cfg, h, r) && r.fate.Open? && |r.attempts| < |r.webhooks| && (a.acked ==> a.url.Some?)
    ensures GoodRound(cfg, h, Attempted(r, a))
    ensures (exists x | x in Attempted(r, a).attempts :: !x.acked) <==> !a.acked || exists x | x in r.attempts :: !x.acked
  {
    var r' := Attempted(r, a);
    assert forall x :: x in r'.attempts <==> x in r.attempts || x == a;
  }

  lemma SendKeepsCore(cfg: Config, s: State, a: Step)
    requires Core(cfg, s) && a.Send?
    ensures Core(cfg, Next(cfg, s, a))
  {
    hide ServerInv, LogInv, HashInv, OpenInv, GoodRound, Settled, AttemptOf;
    if s.pc.Sending? && |Last(s.log).attempts| < |Last(s.log).webhooks| {
      var r := Last(s.log);
      var at := AttemptOf(a.secrets, r.webhooks[|r.attempts|], a.ok);
      assert at.acked ==> at.url.Some? by { AttemptResolved(a.secrets, r.webhooks[|r.attempts|], a.ok); }
      LastGood(cfg, s);
      AttemptedOk(cfg, s.server.history, r, at);
      SettledSetLast(s.server, s.log, Attempted(r, at), s.pc.dc);
      assert Last(SetLast(s.log, Attempted(r, at))) == Attempted(r, at);
      SetLastCore(cfg, s, Next(cfg, s, a), Attempted(r, at));
    }
  }

  lemma AttemptResolved(secrets: Secrets, wh: Webhook, ok: bool)
    ensures AttemptOf(secrets, wh, ok).acked ==> AttemptOf(secrets, wh, ok).url.Some?
  {
  }

  lemma AllAcked(cfg: Config, h: seq<Object>, r: Round)
    requires GoodRound(cfg, h, r) && |r.attempts| >= |r.webhooks|
    ensures Delivered(r) <==> !exists a | a in r.attempts :: !a.acked
    ensures |r.attempts| == |r.webhooks|
  {
  }

  lemma EndSendsKeepsCore(cfg: Config, s: State, a: Step)
    requires Core(cfg, s) && a.EndSends?
    ensures Core(cfg, Next(cfg, s, a))
  {
    hide ServerInv, LogInv, HashInv, OpenInv, GoodRound, Settled, Delivered, SetLast;
    if s.pc.Sending? && |Last(s.log).attempts| >= |Last(s.log).webhooks| {
      var t := Next(cfg, s, a);
      LastGood(cfg, s);
      AllAcked(cfg, s.server.history, Last(s.log));
      if s.pc.failed {
        EndedOk(cfg, s.server.history, Last(s.log), Undelivered);
        SetLastCore(cfg, s, t, Concluded(Last(s.log), Undelivered));
      } else {
        SettledVersion(s.server, s.log, s.pc.dc);
        StillOpen(s.pc, s.log, t.pc);
        OnlyPc(cfg, s, t);
      }
    }
  }

  lemma SettledVersion(sv: Server, log: seq<Round>, dc: Object)
    requires Settled(sv, log, dc)
    ensures dc.version < |sv.history| && sv.history[dc.version] == dc
  {
  }

  lemma StillOpen(pc: Pc, log: seq<Round>, pc': Pc)
    requires OpenInv(pc, log) && (pc.Sending? ==> pc'.Sending? || pc'.Stamping?) && !pc.Stamping?
    ensures OpenInv(pc', log)
  {
  }

  lemma GaugeKeepsCore(cfg: Config, s: State, a: Step)
    requires Core(cfg, s) && (a.SetGauge? || (a.Put? && !s.pc.Judged? && !s.pc.Stamping?))
    ensures Core(cfg, Next(cfg, s, a))
  {
    hide ServerInv, LogInv, HashInv, Settled, OpenInv;
    if a.SetGauge? && s.pc.Recording? {
      var n := s.pc.labels;
      var next := if n + 1 < |LABELS| then Recording(s.pc.dc, n + 1) else Deciding(s.pc.dc);
      assert PcInv(s.server, next, s.log);
      StillOpen(s.pc, s.log, next);
      OnlyPc(cfg, s, Next(cfg, s, a));
    }
  }

  lemma NextKeepsCore(cfg: Config, s: State, a: Step)
    requires Core(cfg, s)
    ensures Core(cfg, Next(cfg, s, a))
  {
    hide Core, Next, After;
    if IsEnvironment(a) {
      EnvironmentKeepsCore(cfg, s, a);
    } else {
      ControllerKeepsCore(cfg, s, a);
    }
  }

  lemma ControllerKeepsCore(cfg: Config, s: State, a: Step)
    requires Core(cfg, s) && !IsEnvironment(a)
    ensures Core(cfg, Next(cfg, s, a))
  {
    hide Core, Next, After;
    match a
    case Get(_) => GetKeepsCore(cfg, s, a);
    case Fail(_, _) => FailKeepsCore(cfg, s, a);
    case Evaluate(_) => EvaluateKeepsCore(cfg, s, a);
    case Put(_) =>
      if s.pc.Judged? { PutVerdictKeepsCore(cfg, s, a); }
      else if s.pc.Stamping? { PutStampKeepsCore(cfg, s, a); }
      else { GaugeKeepsCore(cfg, s, a); }
    case SetGauge => GaugeKeepsCore(cfg, s, a);
    case Decide => DecideKeepsCore(cfg, s, a);
    case Send(_, _) => SendKeepsCore(cfg, s, a);
    case EndSends => EndSendsKeepsCore(cfg, s, a);
    case Restart => RestartKeepsCore(cfg, s);
    case Abort => AbortKeepsCore(cfg, s);
    case _ =>
  }

  /** Every state of every run satisfies the invariant. */
  lemma {:induction false} RunKeepsCore(cfg: Config, gauges: map<Series, nat>, run: seq<Step>)
    ensures Core(cfg, After(cfg, Init(gauges), run))
  {
    hide Core, Next;
    if run == [] {
      InitCore(cfg, gauges);
    } else {
      RunKeepsCore(cfg, gauges, run[..|run| - 1]);
      NextKeepsCore(cfg, After(cfg, Init(gauges), run[..|run| - 1]), run[|run| - 1]);
    }
  }

  lemma InitCore(cfg: Config, gauges: map<Series, nat>)
    ensures Core(cfg, Init(gauges))
  {
  }
}
