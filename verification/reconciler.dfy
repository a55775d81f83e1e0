/** The controller's code. Its whole life, with the environment interleaved at every point where
    another party can act, is a run of the step machine, so what holds of runs holds of it. */
module Reconciler {
  import opened Text
  import opened Drift
  import opened Fingerprint
  import opened Metrics
  import opened Protocol
  import opened ProtocolInvariant
  import PG = ProtocolGauges
  import opened ProtocolStatus

  /** How the evaluation of the source against the cluster ends. */
  datatype Outcome =
    | NoFetcher
    | SourceError
    | InvalidTarget
    | Forbidden
    | CompareError
    | Compared(results: seq<Drift.Result>)

  /** What the outside decides in one reconcile. read is the version the cache serves (None for "not
      found", an unknown version for a failed read). interference says what other parties do to the
      object before the read (0), the status write (1), the fingerprint write (2), and the send to
      webhook i (3 + i). */
  datatype Script = Script(
    read: Option<nat>,
    outcome: Outcome,
    statusReply: Reply,
    hashReply: Reply,
    secrets: nat -> Secrets,
    acks: nat -> bool,
    interference: nat -> seq<Step>)

  /** ctrl.Result and the returned error: forget the object, look again after a while, or back off. */
  datatype Result = Forget | RequeueAfter(seconds: int) | RetryWithBackoff

  const DEFAULT_INTERVAL := 300

  function Interval(spec: Spec): int {
    if spec.interval <= 0 then DEFAULT_INTERVAL else spec.interval
  }

  function WebhookCount(spec: Spec): nat {
    if spec.notify.Some? then |spec.notify.value| else 0
  }

  function ReasonOf(outcome: Outcome): string {
    match outcome
    case NoFetcher => "NoFetcher"
    case SourceError => "SourceError"
    case InvalidTarget => "InvalidTarget"
    case Forbidden => "FetchError"
    case _ => "CompareError"
  }

  function JudgeStep(outcome: Outcome): Step {
    match outcome
    case Compared(results) => Evaluate(results)
    case CompareError => Fail(TransientFailure, ReasonOf(outcome))
    case _ => Fail(PermanentFailure, ReasonOf(outcome))
  }

  function SendSteps(script: Script, n: nat): seq<Step> {
    if n == 0 then [] else SendSteps(script, n - 1) + [Send(script.secrets(n - 1), script.acks(n - 1))]
  }

  function Opening(script: Script): seq<Step> {
    [Get(script.read), JudgeStep(script.outcome), Put(script.statusReply)]
  }

  const REPORT := [SetGauge, SetGauge, SetGauge, SetGauge, Decide]

  /** The steps of one reconcile with n webhooks, in order. It may stop early, but skips nothing. */
  function Plan(script: Script, n: nat): seq<Step> {
    Opening(script) + REPORT + SendSteps(script, n) + [EndSends, Put(script.hashReply)]
  }

  /** The controller's own steps of a run. */
  function Own(run: seq<Step>): seq<Step> {
    if run == [] then []
    else Own(run[..|run| - 1]) + if IsEnvironment(run[|run| - 1]) then [] else [run[|run| - 1]]
  }

  lemma OwnSnoc(run: seq<Step>, a: Step)
    ensures Own(run + [a]) == Own(run) + if IsEnvironment(a) then [] else [a]
  {
    assert (run + [a])[..|run|] == run;
  }

  lemma {:induction false} SendStepsAt(script: Script, n: nat, i: nat)
    requires i < n
    ensures |SendSteps(script, n)| == n && SendSteps(script, n)[i] == Send(script.secrets(i), script.acks(i))
  {
    if i < n - 1 {
      SendStepsAt(script, n - 1, i);
    } else {
      SendStepsLength(script, n - 1);
    }
  }

  lemma {:induction false} SendStepsLength(script: Script, n: nat)
    ensures |SendSteps(script, n)| == n
  {
    if n > 0 { SendStepsLength(script, n - 1); }
  }

  /** own is the first m steps of the plan, after what was done before. */
  predicate Follows(script: Script, n: nat, done: seq<Step>, own: seq<Step>, m: nat) {
    m <= |Plan(script, n)| && own == done + Plan(script, n)[..m]
  }

  function PlanStep(script: Script, n: nat, m: nat): Step {
    if m < 3 then Opening(script)[m]
    else if m < 7 then SetGauge
    else if m == 7 then Decide
    else if m < 8 + n then Send(script.secrets(m - 8), script.acks(m - 8))
    else if m == 8 + n then EndSends
    else Put(script.hashReply)
  }

  lemma PlanAt(script: Script, n: nat, m: nat)
    requires m < 10 + n
    ensures |Plan(script, n)| == 10 + n && Plan(script, n)[m] == PlanStep(script, n, m)
  {
    SendStepsLength(script, n);
    if 8 <= m < 8 + n { SendStepsAt(script, n, m - 8); }
  }

  lemma FollowsNext(script: Script, n: nat, done: seq<Step>, own: seq<Step>, m: nat, a: Step)
    requires Follows(script, n, done, own, m) && m < 10 + n && a == PlanStep(script, n, m)
    ensures Follows(script, n, done, own + [a], m + 1)
  {
    hide Plan, PlanStep;
    PlanAt(script, n, m);
    assert Plan(script, n)[..m + 1] == Plan(script, n)[..m] + [a];
  }

  lemma DecideEffect(cfg: Config, s: State)
    requires s.pc.Deciding?
    ensures var t, dc := Next(cfg, s, Decide), s.pc.dc;
            if MustSend(cfg, dc) then
              t == State(s.server, s.gauges, Sending(dc, false), s.log + [NewRound(cfg, dc)], s.shown, s.unrecorded)
            else t == State(s.server, s.gauges, Idle, s.log, s.shown, s.unrecorded)
  {
    hide MustSend, NewRound;
  }

  lemma AllHeardEffect(cfg: Config, s: State)
    requires s.pc.Sending? && !s.pc.failed && s.log != [] && |Last(s.log).attempts| == |Last(s.log).webhooks|
    ensures Next(cfg, s, EndSends)
            == State(s.server, s.gauges, Stamping(WithStatus(s.pc.dc, StampedStatus(s.pc.dc, Last(s.log).fingerprint))),
                     s.log, s.shown, s.unrecorded)
  {
    hide StampedStatus;
  }

  lemma StampEffect(cfg: Config, s: State, reply: Reply)
    requires s.pc.Stamping? && s.log != []
    ensures var stored := !reply.Rejected? && Accepts(s.server, s.pc.dc);
            Next(cfg, s, Put(reply))
            == State(if stored then Commit(s.server, WithStatus(Live(s.server), s.pc.dc.status)) else s.server, s.gauges, Idle,
                     SetLast(s.log, Concluded(Last(s.log), if stored then Fate.Recorded else StampLost)), s.shown, s.unrecorded)
  {
  }

  lemma NewRoundShape(cfg: Config, dc: Object)
    requires dc.spec.notify.Some?
    ensures var r := NewRound(cfg, dc);
            r.webhooks == dc.spec.notify.value && r.attempts == [] && r.fingerprint == DriftHash(cfg.sha, dc.status.drifted)
  {
    hide DriftHash;
  }

  lemma UndeliveredEffect(cfg: Config, s: State)
    requires s.pc.Sending? && s.pc.failed && s.log != [] && |Last(s.log).attempts| == |Last(s.log).webhooks|
    ensures Next(cfg, s, EndSends)
            == State(s.server, s.gauges, Idle, SetLast(s.log, Concluded(Last(s.log), Undelivered)), s.shown, s.unrecorded)
  {
  }

  /** The server after other parties have acted on the object. */
  function Interfered(sv: Server, steps: seq<Step>): Server {
    if steps == [] then sv
    else
      var before, a := Interfered(sv, steps[..|steps| - 1]), steps[|steps| - 1];
      if IsEnvironment(a) then Environment(before, a) else before
  }

  /** The status write of a reconcile that read dc is stored and acknowledged. */
  predicate StatusWritten(script: Script, sv: Server, dc: Object) {
    script.statusReply.Accepted? && Accepts(Interfered(sv, script.interference(1)), dc)
  }

  /** It is stored, acknowledged or not. */
  predicate StatusStored(script: Script, sv: Server, dc: Object) {
    !script.statusReply.Rejected? && Accepts(Interfered(sv, script.interference(1)), dc)
  }

  /** If it is stored, it is the next version, of the object that was read, and says what the outcome
      calls for. */
  ghost predicate Stores(script: Script, sv: Server, dc: Object, h: seq<Object>) {
    StatusStored(script, sv, dc) ==>
      var w := |Interfered(sv, script.interference(1)).history|;
      && w < |h| && h[w].uid == dc.uid && h[w].generation == dc.generation && h[w].spec == dc.spec
      && if script.outcome.Compared? then SaysEvaluated(h[w].status, dc.status, dc.generation, script.outcome.results)
         else SaysFailed(h[w].status, dc.status, dc.generation, ReasonOf(script.outcome))
  }

  /** If the write of judged is stored, it is the next version, with that status. */
  predicate StoredAs(script: Script, sv: Server, judged: Object, h: seq<Object>) {
    StatusStored(script, sv, judged) ==>
      var w := |Interfered(sv, script.interference(1)).history|;
      && w < |h| && h[w].uid == judged.uid && h[w].generation == judged.generation && h[w].spec == judged.spec
      && h[w].status == judged.status
  }

  lemma StoresVerdict(script: Script, sv: Server, dc: Object, st: DriftStatus, h: seq<Object>)
    requires StoredAs(script, sv, WithStatus(dc, st), h)
    requires if script.outcome.Compared? then SaysEvaluated(st, dc.status, dc.generation, script.outcome.results)
             else SaysFailed(st, dc.status, dc.generation, ReasonOf(script.outcome))
    ensures Stores(script, sv, dc, h)
    ensures StatusWritten(script, sv, WithStatus(dc, st)) <==> StatusWritten(script, sv, dc)
  {
    hide SaysEvaluated, SaysFailed, Interfered;
  }

  lemma StoresGrows(script: Script, sv: Server, dc: Object, h: seq<Object>, h': seq<Object>)
    requires Stores(script, sv, dc, h) && h <= h'
    ensures Stores(script, sv, dc, h')
  {
    hide SaysEvaluated, SaysFailed;
  }

  /** The gauges of the check count the results, status by status. */
  ghost predicate ShowsResults(series: map<Series, nat>, check: Key, results: seq<Drift.Result>) {
    exists m: Summary :: Tallies(results, m) && Shows(series, check, m)
  }

  /** The series of other checks are the same. */
  predicate OthersSame(series: map<Series, nat>, before: map<Series, nat>, check: Key) {
    && (forall k | k in series && k.check != check :: k in before && before[k] == series[k])
    && (forall k | k in before && k.check != check :: k in series)
  }

  /** What each outcome leads to: its reason, and whether it waits for the interval and clears the gauges
      (a permanent failure) or not. */
  lemma OutcomesMean(results: seq<Drift.Result>)
    ensures JudgeStep(NoFetcher) == Fail(PermanentFailure, "NoFetcher") && ReasonOf(NoFetcher) == "NoFetcher"
    ensures JudgeStep(SourceError) == Fail(PermanentFailure, "SourceError") && ReasonOf(SourceError) == "SourceError"
    ensures JudgeStep(InvalidTarget) == Fail(PermanentFailure, "InvalidTarget") && ReasonOf(InvalidTarget) == "InvalidTarget"
    ensures JudgeStep(Forbidden) == Fail(PermanentFailure, "FetchError") && ReasonOf(Forbidden) == "FetchError"
    ensures JudgeStep(CompareError) == Fail(TransientFailure, "CompareError") && ReasonOf(CompareError) == "CompareError"
    ensures JudgeStep(Compared(results)) == Evaluate(results)
  {
  }

  lemma LoadedStatusOk(cfg: Config, s: State)
    requires Core(cfg, s) && s.pc.Loaded?
    ensures StatusOk(s.pc.dc.status, s.pc.dc.generation)
  {
    hide LogInv, HashInv, OpenInv, StatusOk;
  }

  /** The version a stored write adds. */
  lemma StoredVersion(sv: Server, dc: Object)
    requires Accepts(sv, dc)
    ensures var t := Commit(sv, WithStatus(Live(sv), dc.status));
            && t.history == sv.history + [Live(t)] && Live(t).status == dc.status
            && Live(t).uid == dc.uid && Live(t).generation == Live(sv).generation && Live(t).spec == Live(sv).spec
  {
  }

  /** The fingerprint write that closes the last round is stored and acknowledged. */
  predicate HashWritten(script: Script, log: seq<Round>) {
    script.hashReply.Accepted? && log != [] && Last(log).fate.Recorded?
  }

  class DriftCheckReconciler {
    const cfg: Config
    const registry: Registry
    /** The API server as the reconciler's client reaches it. */
    var server: Server

    // What has happened so far, for the specification only.
    ghost const origin: State
    ghost var run: seq<Step>
    ghost var pc: Pc
    ghost var log: seq<Round>
    ghost var shown: Option<nat>
    ghost var unrecorded: Option<nat>

    ghost function View(): State
      reads this, registry
    {
      State(server, registry.series, pc, log, shown, unrecorded)
    }

    ghost predicate Valid()
      reads this, registry
    {
      Reached(View())
    }

    /** s is where the run so far leads. */
    ghost predicate Reached(s: State)
      reads this
    {
      s == After(cfg, origin, run) && origin == Init(origin.gauges)
    }

    constructor (cfg: Config, registry: Registry)
      ensures Valid() && this.cfg == cfg && this.registry == registry
      ensures run == [] && View() == Init(registry.series)
    {
      this.cfg, this.registry := cfg, registry;
      server := Server(None, [], 0);
      origin := Init(registry.series);
      run, pc, log, shown, unrecorded := [], Idle, [], None, None;
      new;
      assert View() == origin;
    }

    /** Enters a step that has just been taken into the run. */
    ghost method Took(a: Step, before: State)
      requires Reached(before) && View() == Next(cfg, before, a)
      modifies this`run
      ensures Valid() && run == old(run) + [a]
      ensures Own(run) == old(Own(run)) + if IsEnvironment(a) then [] else [a]
    {
      hide Next, After;
      AfterSnoc(cfg, origin, run, a);
      OwnSnoc(run, a);
      run := run + [a];
    }

    /** A step of the plan. */
    ghost method Planned(a: Step, before: State, script: Script, n: nat, done: seq<Step>, m: nat)
      requires Reached(before) && View() == Next(cfg, before, a)
      requires Follows(script, n, done, Own(run), m) && m < 10 + n && a == PlanStep(script, n, m) && !IsEnvironment(a)
      modifies this`run
      ensures Valid() && Follows(script, n, done, Own(run), m + 1)
    {
      hide Next, After, Follows, PlanStep;
      FollowsNext(script, n, done, Own(run), m, a);
      Took(a, before);
    }

    /** Other parties act on the object. */
    method Interfere(steps: seq<Step>)
      requires Valid()
      modifies this`server, this`run, this`unrecorded
      ensures Valid() && Own(run) == old(Own(run)) && old(server).history <= server.history
      ensures server == Interfered(old(server), steps)
    {
      hide After, Own;
      for i := 0 to |steps|
        invariant Valid() && Own(run) == old(Own(run)) && old(server).history <= server.history
        invariant server == Interfered(old(server), steps[..i])
      {
        assert steps[..i + 1][..i] == steps[..i];
        if IsEnvironment(steps[i]) {
          ghost var before := View();
          unrecorded := AfterCreation(server, steps[i], unrecorded);
          server := Environment(server, steps[i]);
          Took(steps[i], before);
        }
      }
      assert steps[..|steps|] == steps;
    }

    /** Status().Update: stores the status if dc is the live version; an acknowledged write
        refreshes dc. */
    method UpdateStatus(dc: Object, reply: Reply) returns (ok: bool, latest: Object)
      modifies this`server
      ensures var stored := !reply.Rejected? && Accepts(old(server), dc);
              && server == (if stored then Commit(old(server), WithStatus(Live(old(server)), dc.status)) else old(server))
              && (ok <==> stored && reply.Accepted?)
              && latest == if ok then Live(server) else dc
    {
      ok, latest := false, dc;
      if !reply.Rejected? && Accepts(server, dc) {
        server := Commit(server, WithStatus(Live(server), dc.status));
        if reply.Accepted? {
          ok, latest := true, Live(server);
        }
      }
    }

    /** The status write of a verdict, after others have had their turn. latest is the stored version
        when an evaluation's write is acknowledged; its gauges are next. */
    method WriteVerdict(judged: Object, verdict: Verdict, script: Script, ghost n: nat, ghost done: seq<Step>)
      returns (ok: bool, latest: Object)
      requires Valid() && pc == Judged(judged, verdict) && Follows(script, n, done, Own(run), 2)
      modifies this`server, this`run, this`pc, this`unrecorded
      ensures Valid() && Follows(script, n, done, Own(run), 3) && old(server).history <= server.history
      ensures ok <==> StatusWritten(script, old(server), judged)
      ensures if ok && verdict.Evaluated? then
                pc == Recording(latest, 0) && latest.spec == judged.spec && latest.status == judged.status
              else pc.Idle?
      ensures StoredAs(script, old(server), judged, server.history)
    {
      hide After, Follows, Own, Core, Interfered,
           OnGet, OnFail, OnEvaluate, OnSetGauge, OnDecide, OnSend, OnEndSends, OnRestart, OnAbort, Environment;
      Interfere(script.interference(1));
      ghost var waiting := View();
      LifeIsRun(this);
      if Accepts(server, judged) {
        SameSpec(cfg, waiting);
        StoredVersion(server, judged);
      }
      ok, latest := UpdateStatus(judged, script.statusReply);
      if ok && verdict.Evaluated? {
        pc := Recording(latest, 0);
      } else {
        pc := Idle;
        if verdict.Evaluated? && server.history != waiting.server.history { unrecorded := Some(Live(server).version); }
      }
      Planned(Put(script.statusReply), waiting, script, n, done, 2);
    }

    /** Sets Ready to false and writes the status. */
    method MarkNotReady(dc: Object, verdict: Verdict, script: Script, ghost n: nat, ghost done: seq<Step>, ghost before: State)
      returns (ok: bool)
      requires Reached(before) && before.pc == Loaded(dc) && !verdict.Evaluated?
      requires View() == if verdict.PermanentFailure?
                         then State(before.server, Cleared(before.gauges, cfg.check), before.pc, before.log, None, None)
                         else before
      requires !script.outcome.Compared? && JudgeStep(script.outcome) == Fail(verdict, ReasonOf(script.outcome))
      requires Follows(script, n, done, Own(run), 1)
      modifies this`server, this`run, this`pc, this`unrecorded
      ensures Valid() && pc.Idle? && Follows(script, n, done, Own(run), 3) && old(server).history <= server.history
      ensures ok <==> StatusWritten(script, old(server), dc)
      ensures Stores(script, old(server), dc, server.history)
    {
      hide After, Follows, Cleared, FailedStatus, SaysFailed, SaysEvaluated, Core, StatusOk, ReasonOf, StoredAs, Stores, StatusWritten,
           OnGet, OnEvaluate, OnPut, OnSetGauge, OnDecide, OnSend, OnEndSends, OnRestart, OnAbort, Environment, Reading;
      RunKeepsCore(cfg, origin.gauges, run);
      LoadedStatusOk(cfg, before);
      FailureSays(dc, ReasonOf(script.outcome));
      var failed := WithStatus(dc, FailedStatus(dc, ReasonOf(script.outcome)));
      pc := Judged(failed, verdict);
      Planned(Fail(verdict, ReasonOf(script.outcome)), before, script, n, done, 1);
      var latest;
      ok, latest := WriteVerdict(failed, verdict, script, n, done);
      StoresVerdict(script, old(server), dc, failed.status, server.history);
    }

    /** Records a failure that waits for the interval; there is no valid reading, so the gauges go. */
    method PermanentFail(dc: Object, interval: int, script: Script, ghost n: nat, ghost done: seq<Step>)
      returns (result: Result)
      requires Valid() && pc == Loaded(dc) && Follows(script, n, done, Own(run), 1)
      requires !script.outcome.Compared? && !script.outcome.CompareError?
      modifies this`server, this`run, this`pc, this`shown, this`unrecorded, registry
      ensures Valid() && pc.Idle? && Follows(script, n, done, Own(run), 3) && old(server).history <= server.history
      ensures result == if StatusWritten(script, old(server), dc) then RequeueAfter(interval) else RetryWithBackoff
      ensures Stores(script, old(server), dc, server.history)
      ensures Absent(registry.series, cfg.check) && OthersSame(registry.series, old(registry.series), cfg.check)
    {
      hide After, Follows, Cleared, StatusWritten, Stores;
      ghost var before := View();
      registry.Delete(true, cfg.check);
      shown, unrecorded := None, None;
      var ok := MarkNotReady(dc, PermanentFailure, script, n, done, before);
      result := if ok then RequeueAfter(interval) else RetryWithBackoff;
    }

    /** Sends the drift set to every webhook unless it was already announced, and records it when
        all of them have acknowledged. The result tells whether the fingerprint write failed. */
    method Notify(dc: Object, script: Script, ghost n: nat, ghost done: seq<Step>) returns (ok: bool, ghost m: nat)
      requires Valid() && pc == Deciding(dc) && Follows(script, n, done, Own(run), 7)
      requires n == WebhookCount(dc.spec)
      modifies this`server, this`run, this`pc, this`log, this`unrecorded
      ensures Valid() && pc.Idle? && 8 <= m <= 10 + n && Follows(script, n, done, Own(run), m)
      ensures old(server).history <= server.history
      ensures m in {8, 9 + n, 10 + n} && (ok <==> m != 10 + n || HashWritten(script, log))
    {
      hide After, Follows, Next, DriftHash, EventOf, DriftCount, Own;
      ghost var before := View();
      DecideEffect(cfg, before);
      if dc.spec.notify.None? || |dc.spec.notify.value| == 0 {
        pc := Idle;
        Planned(Decide, before, script, n, done, 7);
        return true, 8;
      }
      var hash := ComputeDriftHash(cfg.sha, dc.status.drifted);
      if hash == dc.status.lastNotifiedHash {
        pc := Idle;
        Planned(Decide, before, script, n, done, 7);
        return true, 8;
      }
      var resolved := DriftCount(dc.status.summary) == 0;
      if resolved && dc.status.lastNotifiedHash == "" {
        // A check that never drifted has nothing to resolve.
        pc := Idle;
        Planned(Decide, before, script, n, done, 7);
        return true, 8;
      }
      ok, m := Announce(dc, hash, resolved, script, done);
    }

    /** One round: every webhook gets the event; the fingerprint is written if all acknowledged. */
    method Announce(dc: Object, hash: string, resolved: bool, script: Script, ghost done: seq<Step>)
      returns (ok: bool, ghost m: nat)
      requires Valid() && pc == Deciding(dc) && Follows(script, WebhookCount(dc.spec), done, Own(run), 7)
      requires MustSend(cfg, dc) && hash == DriftHash(cfg.sha, dc.status.drifted)
      requires resolved == (DriftCount(dc.status.summary) == 0)
      modifies this`server, this`run, this`pc, this`log, this`unrecorded
      ensures Valid() && pc.Idle? && (m == 9 + WebhookCount(dc.spec) || m == 10 + WebhookCount(dc.spec))
      ensures ok <==> m == 9 + WebhookCount(dc.spec) || HashWritten(script, log)
      ensures Follows(script, WebhookCount(dc.spec), done, Own(run), m) && old(server).history <= server.history
    {
      hide After, Follows, Next, DriftHash, DriftCount, Own, NewRound;
      ghost var n := WebhookCount(dc.spec);
      var webhooks := OpenRound(dc, hash, resolved, script, done);
      assert Last(log) == NewRound(cfg, dc);
      NewRoundShape(cfg, dc);
      var failed := SendAll(dc, webhooks, script, done);
      if failed {
        // The stored fingerprint stays, so that the next reconcile tries again.
        ghost var before := View();
        log := SetLast(log, Concluded(Last(log), Undelivered));
        pc := Idle;
        UndeliveredEffect(cfg, before);
        Planned(EndSends, before, script, n, done, 8 + n);
        return true, 9 + n;
      }
      ok := Stamp(dc, hash, script, n, done);
      m := 10 + n;
    }

    /** Builds the event every webhook of the round will get. */
    method OpenRound(dc: Object, hash: string, resolved: bool, script: Script, ghost done: seq<Step>)
      returns (webhooks: seq<Webhook>)
      requires Valid() && pc == Deciding(dc) && Follows(script, WebhookCount(dc.spec), done, Own(run), 7)
      requires MustSend(cfg, dc) && hash == DriftHash(cfg.sha, dc.status.drifted)
      requires resolved == (DriftCount(dc.status.summary) == 0)
      modifies this`run, this`pc, this`log
      ensures Valid() && pc == Sending(dc, false) && Follows(script, WebhookCount(dc.spec), done, Own(run), 8)
      ensures dc.spec.notify == Some(webhooks) && log == old(log) + [NewRound(cfg, dc)]
    {
      hide After, Follows, Next, DriftHash, DriftCount, EventOf, Own;
      ghost var before := View();
      webhooks := dc.spec.notify.value;
      DecideEffect(cfg, before);
      var ev := BuildEvent(cfg.check.name, cfg.check.namespace, dc.status.drifted, dc.status.summary, resolved);
      log := log + [Round(dc.uid, dc.version, dc.status.drifted, webhooks, ev, hash, [], Open)];
      pc := Sending(dc, false);
      Planned(Decide, before, script, WebhookCount(dc.spec), done, 7);
    }

    /** The send loop: one turn per webhook, whatever became of the others. */
    method SendAll(dc: Object, webhooks: seq<Webhook>, script: Script, ghost done: seq<Step>) returns (failed: bool)
      requires Valid() && pc == Sending(dc, false) && Follows(script, |webhooks|, done, Own(run), 8)
      requires log != [] && Last(log).webhooks == webhooks && Last(log).attempts == []
      modifies this`server, this`run, this`pc, this`log, this`unrecorded
      ensures Valid() && pc == Sending(dc, failed) && Follows(script, |webhooks|, done, Own(run), 8 + |webhooks|)
      ensures log != [] && Last(log).webhooks == webhooks && |Last(log).attempts| == |webhooks|
      ensures Last(log).fingerprint == old(Last(log).fingerprint) && old(server).history <= server.history
    {
      hide After, Follows, AttemptOf, Own,
           OnGet, OnFail, OnEvaluate, OnPut, OnSetGauge, OnDecide, OnEndSends, OnRestart, Environment;
      failed := false;
      for i := 0 to |webhooks|
        invariant Valid() && pc == Sending(dc, failed) && old(server).history <= server.history
        invariant log != [] && Last(log).webhooks == webhooks && |Last(log).attempts| == i
        invariant Last(log).fingerprint == old(Last(log).fingerprint)
        invariant Follows(script, |webhooks|, done, Own(run), 8 + i)
      {
        Interfere(script.interference(3 + i));
        ghost var before := View();
        var at := AttemptOf(script.secrets(i), webhooks[i], script.acks(i));
        log := SetLast(log, Attempted(Last(log), at));
        if !at.acked {
          failed := true;
        }
        pc := Sending(dc, failed);
        Planned(Send(script.secrets(i), script.acks(i)), before, script, |webhooks|, done, 8 + i);
      }
    }

    /** Writes the fingerprint of a round that every webhook acknowledged. */
    method Stamp(dc: Object, hash: string, script: Script, ghost n: nat, ghost done: seq<Step>) returns (ok: bool)
      requires Valid() && pc == Sending(dc, false) && Follows(script, n, done, Own(run), 8 + n)
      requires log != [] && |Last(log).attempts| == |Last(log).webhooks| == n && Last(log).fingerprint == hash
      modifies this`server, this`run, this`pc, this`log, this`unrecorded
      ensures Valid() && pc.Idle? && Follows(script, n, done, Own(run), 10 + n) && old(server).history <= server.history
      ensures ok <==> HashWritten(script, log)
    {
      hide After, Follows, StampedStatus, Own, Next;
      ghost var before := View();
      var stamped := WithStatus(dc, StampedStatus(dc, hash));
      pc := Stamping(stamped);
      AllHeardEffect(cfg, before);
      Planned(EndSends, before, script, n, done, 8 + n);
      Interfere(script.interference(2));
      before := View();
      var latest;
      StampEffect(cfg, before, script.hashReply);
      ok, latest := UpdateStatus(stamped, script.hashReply);
      log := SetLast(log, Concluded(Last(log), if server.history != before.server.history then Fate.Recorded else StampLost));
      pc := Idle;
      Planned(Put(script.hashReply), before, script, n, done, 9 + n);
    }

    /** Stores the evaluation, sets the gauges and notifies. */
    method Report(dc: Object, interval: int, results: seq<Drift.Result>, script: Script, ghost n: nat, ghost done: seq<Step>)
      returns (result: Result, ghost m: nat)
      requires Valid() && pc == Loaded(dc) && Follows(script, n, done, Own(run), 1)
      requires script.outcome == Compared(results)
      requires n == WebhookCount(dc.spec)
      modifies this`server, this`run, this`pc, this`log, this`shown, this`unrecorded, registry
      ensures Valid() && pc.Idle? && 0 < m <= 10 + n && Follows(script, n, done, Own(run), m)
      ensures old(server).history <= server.history
      ensures if StatusWritten(script, old(server), dc) then m in {8, 9 + n, 10 + n} else m == 3
      ensures result == if m == 3 || (m == 10 + n && !HashWritten(script, log)) then RetryWithBackoff else RequeueAfter(interval)
      ensures Stores(script, old(server), dc, server.history)
      ensures if StatusWritten(script, old(server), dc) then
                && ShowsResults(registry.series, cfg.check, results)
                && OthersSame(registry.series, old(registry.series), cfg.check)
              else registry.series == old(registry.series)
    {
      hide After, Follows, EvaluatedStatus, Own, Core, Next, StatusWritten, HashWritten, Stores, Tallies, ListsDrift, Shows, OthersSame;
      var drifted, summary := Summarize(results);
      var judged := WithStatus(dc, Evaluation(dc, results, drifted, summary));
      var ok, latest := StoreEvaluation(dc, judged, results, script, n, done);
      if !ok {
        return RetryWithBackoff, 3;
      }
      ghost var stored := server.history;
      SetGauges(latest, script, n, done);
      assert ShowsResults(registry.series, cfg.check, results);
      ok, m := Notify(latest, script, n, done);
      StoresGrows(script, old(server), dc, stored, server.history);
      result := if ok then RequeueAfter(interval) else RetryWithBackoff;
    }

    /** The status write of an evaluation; latest is the stored version when it is acknowledged. */
    method StoreEvaluation(dc: Object, judged: Object, results: seq<Drift.Result>, script: Script,
                           ghost n: nat, ghost done: seq<Step>)
      returns (ok: bool, latest: Object)
      requires Valid() && pc == Loaded(dc) && Follows(script, n, done, Own(run), 1)
      requires script.outcome == Compared(results) && judged == WithStatus(dc, EvaluatedStatus(dc, results))
      modifies this`server, this`run, this`pc, this`unrecorded
      ensures Valid() && Follows(script, n, done, Own(run), 3) && old(server).history <= server.history
      ensures if ok then pc == Recording(latest, 0) && latest.spec == dc.spec else pc.Idle?
      ensures ok <==> StatusWritten(script, old(server), dc)
      ensures ok ==> latest.status.summary == judged.status.summary
      ensures Stores(script, old(server), dc, server.history)
    {
      hide After, Follows, EvaluatedStatus, Own, Core, SaysFailed, SaysEvaluated, StatusOk, StoredAs, Stores, StatusWritten,
           OnGet, OnFail, OnPut, OnSetGauge, OnDecide, OnSend, OnEndSends, OnRestart, OnAbort, Environment;
      LifeIsRun(this);
      LoadedStatusOk(cfg, View());
      EvaluationSays(dc, results);
      ghost var before := View();
      pc := Judged(judged, Evaluated);
      Planned(Evaluate(results), before, script, n, done, 1);
      ok, latest := WriteVerdict(judged, Evaluated, script, n, done);
      StoresVerdict(script, old(server), dc, judged.status, server.history);
    }

    /** The status an evaluation puts in memory. */
    function Evaluation(dc: Object, results: seq<Drift.Result>, drifted: seq<DriftedResource>, summary: Summary): (st: DriftStatus)
      requires drifted == DriftedOf(results) && summary == SummaryOf(results)
      ensures st == EvaluatedStatus(dc, results)
    {
      DriftStatus(drifted, summary, dc.generation, dc.status.lastNotifiedHash,
                  SetCondition(dc.status.conditions, Condition(READY, true, "DriftEvaluated", dc.generation)))
    }

    method SetGauges(dc: Object, script: Script, ghost n: nat, ghost done: seq<Step>)
      requires Valid() && pc == Recording(dc, 0) && Follows(script, n, done, Own(run), 3)
      modifies this`run, this`pc, this`shown, this`unrecorded, registry
      ensures Valid() && pc == Deciding(dc) && Follows(script, n, done, Own(run), 7)
      ensures Shows(registry.series, cfg.check, dc.status.summary)
      ensures OthersSame(registry.series, old(registry.series), cfg.check)
    {
      hide After, Follows, Next, Own;
      ghost var s0, run0, own0 := View(), run, Own(run);
      ghost var s1 := Next(cfg, s0, SetGauge);
      ghost var s2 := Next(cfg, s1, SetGauge);
      ghost var s3 := Next(cfg, s2, SetGauge);
      PG.FourGauges(cfg, s0, dc);
      registry.RecordDrift(true, cfg.check, dc.status.summary.changed, dc.status.summary.added,
                           dc.status.summary.deleted, dc.status.summary.inSync);
      pc, shown, unrecorded := Deciding(dc), Some(dc.version), Later(unrecorded, dc.version);
      assert View() == Next(cfg, s3, SetGauge);
      GaugeSteps(cfg, origin, run0);
      GaugesFollow(script, n, done, run0);
      run := run0 + [SetGauge] + [SetGauge] + [SetGauge] + [SetGauge];
    }

    /** One reconcile: its own steps are a nonempty initial part of the plan, and it ends at rest. */
    method Reconcile(script: Script) returns (result: Result, ghost n: nat, ghost m: nat)
      requires Valid() && pc.Idle?
      modifies this`server, this`run, this`pc, this`log, this`shown, this`unrecorded, registry
      ensures Valid() && pc.Idle?
      ensures 0 < m <= |Plan(script, n)| && Own(run) == old(Own(run)) + Plan(script, n)[..m]
      ensures m in {1, 3, 8, 9 + n, 10 + n}
      ensures var sv := Interfered(old(server), script.interference(0));
              if script.read.None? then result == Forget && m == 1
              else if script.read.value >= |sv.history| then result == RetryWithBackoff && m == 1
              else
                var dc := sv.history[script.read.value];
                && n == WebhookCount(dc.spec)
                && (m == 3 <==> !script.outcome.Compared? || !StatusWritten(script, sv, dc))
                && result == (if script.outcome.CompareError? || !StatusWritten(script, sv, dc)
                                 || (m == 10 + n && !HashWritten(script, log))
                              then RetryWithBackoff
                              else RequeueAfter(if dc.spec.interval > 0 then dc.spec.interval else 300))
      ensures var sv := Interfered(old(server), script.interference(0));
              script.read.Some? && script.read.value < |sv.history| ==>
                Stores(script, sv, sv.history[script.read.value], server.history)
      ensures OthersSame(registry.series, old(registry.series), cfg.check)
      ensures var sv := Interfered(old(server), script.interference(0));
              if script.read.None? then Absent(registry.series, cfg.check)
              else if script.read.value >= |sv.history| || script.outcome.CompareError? then
                registry.series == old(registry.series)
              else if !script.outcome.Compared? then Absent(registry.series, cfg.check)
              else if StatusWritten(script, sv, sv.history[script.read.value]) then
                ShowsResults(registry.series, cfg.check, script.outcome.results)
              else registry.series == old(registry.series)
    {
      hide After, Own, Follows, Cleared, Interfered, StatusWritten, HashWritten, Stores, ShowsResults,
           OnFail, OnEvaluate, OnPut, OnSetGauge, OnDecide, OnSend, OnEndSends, OnRestart, Environment, Plan;
      ghost var done := Own(run);
      n := 0;
      assert Follows(script, 0, done, done, 0) by { NothingDone(script, 0, done); }
      Interfere(script.interference(0));
      ghost var before := View();
      if script.read.None? {
        // The object is gone: drop its series.
        registry.Delete(true, cfg.check);
        shown, unrecorded := None, None;
        Planned(Get(None), before, script, 0, done, 0);
        m := 1;
        Stopped(script, n, done, Own(run), m);
        return Forget, n, m;
      }
      if script.read.value >= |server.history| {
        Planned(Get(script.read), before, script, 0, done, 0);
        m := 1;
        Stopped(script, n, done, Own(run), m);
        return RetryWithBackoff, n, m;
      }
      var dc := server.history[script.read.value];
      n := WebhookCount(dc.spec);
      NothingDone(script, n, done);
      pc := Loaded(dc);
      Planned(Get(script.read), before, script, n, done, 0);

      var interval := Interval(dc.spec);
      match script.outcome {
        case CompareError =>
          // The last gauges stay; the error is retried with backoff whatever the write came to.
          before := View();
          var _ := MarkNotReady(dc, TransientFailure, script, n, done, before);
          result, m := RetryWithBackoff, 3;
        case Compared(results) =>
          result, m := Report(dc, interval, results, script, n, done);
        case _ =>
          result := PermanentFail(dc, interval, script, n, done);
          m := 3;
      }
      Stopped(script, n, done, Own(run), m);
    }
  }

  lemma NothingDone(script: Script, n: nat, done: seq<Step>)
    ensures Follows(script, n, done, done, 0)
  {
    assert done + Plan(script, n)[..0] == done;
  }

  lemma Stopped(script: Script, n: nat, done: seq<Step>, own: seq<Step>, m: nat)
    requires Follows(script, n, done, own, m)
    ensures m <= |Plan(script, n)| && own == done + Plan(script, n)[..m]
  {
  }

  lemma GaugeSteps(cfg: Config, origin: State, run: seq<Step>)
    ensures After(cfg, origin, run + [SetGauge] + [SetGauge] + [SetGauge] + [SetGauge])
            == Next(cfg, Next(cfg, Next(cfg, Next(cfg, After(cfg, origin, run), SetGauge), SetGauge), SetGauge), SetGauge)
  {
    hide Next, After;
    AfterSnoc(cfg, origin, run, SetGauge);
    AfterSnoc(cfg, origin, run + [SetGauge], SetGauge);
    AfterSnoc(cfg, origin, run + [SetGauge] + [SetGauge], SetGauge);
    AfterSnoc(cfg, origin, run + [SetGauge] + [SetGauge] + [SetGauge], SetGauge);
  }

  lemma GaugesFollow(script: Script, n: nat, done: seq<Step>, run: seq<Step>)
    requires Follows(script, n, done, Own(run), 3)
    ensures Follows(script, n, done, Own(run + [SetGauge] + [SetGauge] + [SetGauge] + [SetGauge]), 7)
  {
    hide Follows, Own;
    FollowsNext(script, n, done, Own(run), 3, SetGauge);
    OwnSnoc(run, SetGauge);
    FollowsNext(script, n, done, Own(run) + [SetGauge], 4, SetGauge);
    OwnSnoc(run + [SetGauge], SetGauge);
    FollowsNext(script, n, done, Own(run) + [SetGauge] + [SetGauge], 5, SetGauge);
    OwnSnoc(run + [SetGauge] + [SetGauge], SetGauge);
    FollowsNext(script, n, done, Own(run) + [SetGauge] + [SetGauge] + [SetGauge], 6, SetGauge);
    OwnSnoc(run + [SetGauge] + [SetGauge] + [SetGauge], SetGauge);
  }

  /** A reconciler's state is always one of the machine's reachable states, so every theorem about
      runs speaks about it. */
  lemma LifeIsRun(r: DriftCheckReconciler)
    requires r.Valid()
    ensures r.View() == After(r.cfg, Init(r.origin.gauges), r.run)
    ensures Core(r.cfg, r.View())
  {
    hide Core, After;
    RunKeepsCore(r.cfg, r.origin.gauges, r.run);
  }

  /** A conflict-free write was prepared from the live version, so it speaks of the live spec. */
  lemma SameSpec(cfg: Config, s: State)
    requires Core(cfg, s) && s.pc.Judged? && Accepts(s.server, s.pc.dc)
    ensures Live(s.server).spec == s.pc.dc.spec && Live(s.server).generation == s.pc.dc.generation
  {
    hide LogInv, HashInv, OpenInv;
    AcceptedIsRead(s.server, s.pc.dc);
  }
}
