/** One DriftCheck and the controller that reconciles it, as a step machine.

    The controller steps are the points at which Reconcile talks to the outside: the cached read,
    the evaluation, each status write, each gauge, each webhook. Between any two of them the
    environment may edit, touch, delete or re-create the object, restart the process, or make the
    reconcile panic. A cached
    read may return any version the object ever had, or "not found". Steps that do not apply to the
    current state leave it unchanged, so every sequence of steps is a run. */
module Protocol {
  import opened Text
  import opened Drift
  import opened Fingerprint
  import opened Metrics

  datatype SecretKeyRef = SecretKeyRef(name: string, key: string)
  datatype Webhook = Webhook(kind: string, url: string, urlSecretRef: Option<SecretKeyRef>)

  /** The part of the spec the protocol depends on; source and target act through Evaluate and Fail. */
  datatype Spec = Spec(interval: int, notify: Option<seq<Webhook>>)

  const READY := "Ready"

  datatype Condition = Condition(kind: string, holds: bool, reason: string, observedGeneration: nat)

  datatype DriftStatus = DriftStatus(
    drifted: seq<DriftedResource>,
    summary: Summary,
    observedGeneration: nat,
    lastNotifiedHash: string,
    conditions: seq<Condition>)

  const FRESH := DriftStatus([], Summary(0, 0, 0, 0), 0, "", [])

  /** A stored version of the object; version is its resourceVersion. */
  datatype Object = Object(uid: nat, generation: nat, version: nat, spec: Spec, status: DriftStatus)

  /** The API server: the live object, if any, and every version it ever served. */
  datatype Server = Server(current: Option<Object>, history: seq<Object>, uids: nat)

  /** Secrets of the check's namespace, by name and key. */
  type Secrets = map<string, map<string, string>>

  /** What one webhook's turn came to: the URL it resolved to, and whether the send was acknowledged. */
  datatype Attempt = Attempt(url: Option<string>, acked: bool)

  /** How a send round ended: recorded in status, not acknowledged by every webhook,
      its fingerprint write refused, or cut off by a restart or an abort. */
  datatype Fate = Open | Recorded | Undelivered | StampLost | Interrupted

  /** One pass of the send loop. version is the object version whose status it announces. */
  datatype Round = Round(
    uid: nat,
    version: nat,
    drifted: seq<DriftedResource>,
    webhooks: seq<Webhook>,
    event: Event,
    fingerprint: string,
    attempts: seq<Attempt>,
    fate: Fate)

  /** Why a status is about to be written. */
  datatype Verdict = Evaluated | PermanentFailure | TransientFailure

  /** Where the reconcile of this object stands. */
  datatype Pc =
    | Idle
    | Loaded(dc: Object)
    | Judged(dc: Object, verdict: Verdict)
    | Recording(dc: Object, labels: nat)
    | Deciding(dc: Object)
    | Sending(dc: Object, failed: bool)
    | Stamping(dc: Object)

  /** shown is the version whose summary the gauges were last set from. unrecorded is the newest later
      version that came about without the gauges being set: stored by an evaluation whose write was not
      acknowledged or whose reconcile was aborted, or by a re-creation. Both only observe. */
  datatype State = State(
    server: Server,
    gauges: map<Series, nat>,
    pc: Pc,
    log: seq<Round>,
    shown: Option<nat>,
    unrecorded: Option<nat>)

  /** The outcome of a status write: acknowledged, refused (a conflict or any other error, nothing
      stored), or stored with the reply lost on the way back. */
  datatype Reply = Accepted | Rejected | Lost

  datatype Step =
    // controller
    | Get(version: Option<nat>)
    | Fail(verdict: Verdict, reason: string)
    | Evaluate(results: seq<Result>)
    | Put(reply: Reply)
    | SetGauge
    | Decide
    | Send(secrets: Secrets, ok: bool)
    | EndSends
    // environment
    | Edit(spec: Spec)
    | Touch
    | Delete
    | Create(spec: Spec)
    | Restart
    | Abort

  datatype Config = Config(check: Key, sha: Sha)

  function Init(gauges: map<Series, nat>): State {
    State(Server(None, [], 0), gauges, Idle, [], None, None)
  }

  // ---- the API server

  function Commit(sv: Server, o: Object): Server {
    var stored := Object(o.uid, o.generation, |sv.history|, o.spec, o.status);
    Server(Some(stored), sv.history + [stored], sv.uids)
  }

  /** Optimistic concurrency: the write must come from the live version. */
  predicate Accepts(sv: Server, dc: Object) {
    sv.current.Some? && sv.current.value.uid == dc.uid && sv.current.value.version == dc.version
  }

  /** A status write stores the status only; spec and metadata stay the server's. */
  function WithStatus(o: Object, status: DriftStatus): Object {
    Object(o.uid, o.generation, o.version, o.spec, status)
  }

  function Live(sv: Server): Object
    requires sv.current.Some?
  {
    sv.current.value
  }

  // ---- conditions

  /** meta.SetStatusCondition: replace the entry of this type, or append one. */
  function SetCondition(cs: seq<Condition>, c: Condition): seq<Condition> {
    if cs == [] then [c]
    else if cs[0].kind == c.kind then [c] + cs[1..]
    else [cs[0]] + SetCondition(cs[1..], c)
  }

  function OfKind(cs: seq<Condition>, kind: string): seq<Condition> {
    if cs == [] then [] else (if cs[0].kind == kind then [cs[0]] else []) + OfKind(cs[1..], kind)
  }

  function ReadyGeneration(s: DriftStatus): nat {
    var ready := OfKind(s.conditions, READY);
    if ready == [] then 0 else ready[0].observedGeneration
  }

  predicate IsReady(s: DriftStatus) {
    var ready := OfKind(s.conditions, READY);
    ready != [] && ready[0].holds
  }

  // ---- what Reconcile computes in memory

  function EvaluatedStatus(dc: Object, results: seq<Result>): DriftStatus {
    DriftStatus(DriftedOf(results), SummaryOf(results), dc.generation, dc.status.lastNotifiedHash,
                SetCondition(dc.status.conditions, Condition(READY, true, "DriftEvaluated", dc.generation)))
  }

  function FailedStatus(dc: Object, reason: string): DriftStatus {
    DriftStatus(dc.status.drifted, dc.status.summary, dc.status.observedGeneration, dc.status.lastNotifiedHash,
                SetCondition(dc.status.conditions, Condition(READY, false, reason, dc.generation)))
  }

  function StampedStatus(dc: Object, hash: string): DriftStatus {
    DriftStatus(dc.status.drifted, dc.status.summary, dc.status.observedGeneration, hash, dc.status.conditions)
  }

  /** resolveWebhookURL: a Secret reference wins over the inline URL. */
  function ResolveUrl(secrets: Secrets, wh: Webhook): Option<string> {
    match wh.urlSecretRef
    case Some(ref) =>
      if ref.name !in secrets || ref.key !in secrets[ref.name] then None
      else
        var url := TrimSpace(secrets[ref.name][ref.key]);
        if url == "" then None else Some(url)
    case None => if wh.url == "" then None else Some(wh.url)
  }

  predicate Holds(secrets: Secrets, ref: SecretKeyRef) {
    ref.name in secrets && ref.key in secrets[ref.name]
  }

  /** With a Secret reference the endpoint is the Secret's entry without surrounding space, if it has
      one that is not blank, and the inline URL plays no part; without one it is the inline URL. */
  lemma ResolvesUrlExactly(secrets: Secrets, wh: Webhook, inline: string)
    ensures match wh.urlSecretRef
            case Some(ref) =>
              && ResolveUrl(secrets, wh) == ResolveUrl(secrets, Webhook(wh.kind, inline, wh.urlSecretRef))
              && (ResolveUrl(secrets, wh).Some? <==> Holds(secrets, ref) && !Blank(secrets[ref.name][ref.key]))
              && (ResolveUrl(secrets, wh).Some? ==> ResolveUrl(secrets, wh).value == TrimSpace(secrets[ref.name][ref.key]))
            case None => ResolveUrl(secrets, wh) == if wh.url == "" then None else Some(wh.url)
  {
    match wh.urlSecretRef
    case Some(ref) =>
      if Holds(secrets, ref) {
        hide Blank, IsSpace, TrimSpace;
        TrimSpaceTrims(secrets[ref.name][ref.key]);
      }
    case None =>
  }

  function AttemptOf(secrets: Secrets, wh: Webhook, ok: bool): Attempt {
    var url := ResolveUrl(secrets, wh);
    Attempt(url, url.Some? && ok)
  }

  /** A turn is acknowledged when the endpoint is known and the send succeeds. */
  lemma AttemptMeans(secrets: Secrets, wh: Webhook, ok: bool)
    ensures AttemptOf(secrets, wh, ok).url == ResolveUrl(secrets, wh)
    ensures AttemptOf(secrets, wh, ok).acked <==> ResolveUrl(secrets, wh).Some? && ok
  {
    hide ResolveUrl;
  }

  function NewRound(cfg: Config, dc: Object): Round
    requires dc.spec.notify.Some?
  {
    var resolved := DriftCount(dc.status.summary) == 0;
    Round(dc.uid, dc.version, dc.status.drifted, dc.spec.notify.value,
          EventOf(cfg.check.name, cfg.check.namespace, dc.status.drifted, dc.status.summary, resolved),
          DriftHash(cfg.sha, dc.status.drifted), [], Open)
  }

  function Concluded(r: Round, fate: Fate): Round {
    Round(r.uid, r.version, r.drifted, r.webhooks, r.event, r.fingerprint, r.attempts, fate)
  }

  function Attempted(r: Round, a: Attempt): Round {
    Round(r.uid, r.version, r.drifted, r.webhooks, r.event, r.fingerprint, r.attempts + [a], r.fate)
  }

  function SetLast(log: seq<Round>, r: Round): seq<Round>
    requires log != []
  {
    log[..|log| - 1] + [r]
  }

  function Last(log: seq<Round>): Round
    requires log != []
  {
    log[|log| - 1]
  }

  // ---- controller steps

  function OnGet(cfg: Config, s: State, version: Option<nat>): State {
    if !s.pc.Idle? then s
    else match version {
      case None => State(s.server, Cleared(s.gauges, cfg.check), Idle, s.log, None, None)
      case Some(v) =>
        if v < |s.server.history| then
          State(s.server, s.gauges, Loaded(s.server.history[v]), s.log, s.shown, s.unrecorded)
        else s
    }
  }

  function OnFail(cfg: Config, s: State, verdict: Verdict, reason: string): State {
    if !s.pc.Loaded? || verdict.Evaluated? then s
    else
      var dc := s.pc.dc;
      var pc := Judged(WithStatus(dc, FailedStatus(dc, reason)), verdict);
      if verdict.PermanentFailure? then State(s.server, Cleared(s.gauges, cfg.check), pc, s.log, None, None)
      else State(s.server, s.gauges, pc, s.log, s.shown, s.unrecorded)
  }

  function OnEvaluate(s: State, results: seq<Result>): State {
    if !s.pc.Loaded? then s
    else
      var dc := s.pc.dc;
      State(s.server, s.gauges, Judged(WithStatus(dc, EvaluatedStatus(dc, results)), Evaluated), s.log, s.shown, s.unrecorded)
  }

  function OnPut(s: State, reply: Reply): State {
    if !s.pc.Judged? && !s.pc.Stamping? then s
    else
      var dc := s.pc.dc;
      var stored := !reply.Rejected? && Accepts(s.server, dc);
      var server := if stored then Commit(s.server, WithStatus(Live(s.server), dc.status)) else s.server;
      if s.pc.Stamping? then
        State(server, s.gauges, Idle,
              if s.log == [] then [] else SetLast(s.log, Concluded(Last(s.log), if stored then Recorded else StampLost)),
              s.shown, s.unrecorded)
      else if stored && reply.Accepted? && s.pc.verdict.Evaluated? then
        State(server, s.gauges, Recording(Live(server), 0), s.log, s.shown, s.unrecorded)
      else
        State(server, s.gauges, Idle, s.log, s.shown,
              if stored && s.pc.verdict.Evaluated? then Some(Live(server).version) else s.unrecorded)
  }

  /** u, if it is a version after v. */
  function Later(u: Option<nat>, v: nat): Option<nat> {
    if u.Some? && u.value > v then u else None
  }

  function OnSetGauge(cfg: Config, s: State): State {
    if !s.pc.Recording? || s.pc.labels >= |LABELS| then s
    else
      var dc, n := s.pc.dc, s.pc.labels;
      var gauges := s.gauges[Series(cfg.check, LABELS[n]) := Reading(dc.status.summary, LABELS[n])];
      if n + 1 < |LABELS| then State(s.server, gauges, Recording(dc, n + 1), s.log, s.shown, s.unrecorded)
      else State(s.server, gauges, Deciding(dc), s.log, Some(dc.version), Later(s.unrecorded, dc.version))
  }

  /** The guards of notify: webhooks, fingerprint, and the never-notified sentinel. */
  predicate MustSend(cfg: Config, dc: Object) {
    && dc.spec.notify.Some? && dc.spec.notify.value != []
    && DriftHash(cfg.sha, dc.status.drifted) != dc.status.lastNotifiedHash
    && !(DriftCount(dc.status.summary) == 0 && dc.status.lastNotifiedHash == "")
  }

  function OnDecide(cfg: Config, s: State): State {
    if !s.pc.Deciding? then s
    else
      var dc := s.pc.dc;
      if MustSend(cfg, dc) then
        State(s.server, s.gauges, Sending(dc, false), s.log + [NewRound(cfg, dc)], s.shown, s.unrecorded)
      else State(s.server, s.gauges, Idle, s.log, s.shown, s.unrecorded)
  }

  function OnSend(s: State, secrets: Secrets, ok: bool): State {
    if !s.pc.Sending? || s.log == [] || |Last(s.log).attempts| >= |Last(s.log).webhooks| then s
    else
      var r := Last(s.log);
      var a := AttemptOf(secrets, r.webhooks[|r.attempts|], ok);
      State(s.server, s.gauges, Sending(s.pc.dc, s.pc.failed || !a.acked), SetLast(s.log, Attempted(r, a)), s.shown, s.unrecorded)
  }

  function OnEndSends(s: State): State {
    if !s.pc.Sending? || s.log == [] || |Last(s.log).attempts| < |Last(s.log).webhooks| then s
    else
      var dc, r := s.pc.dc, Last(s.log);
      if s.pc.failed then State(s.server, s.gauges, Idle, SetLast(s.log, Concluded(r, Undelivered)), s.shown, s.unrecorded)
      else State(s.server, s.gauges, Stamping(WithStatus(dc, StampedStatus(dc, r.fingerprint))), s.log, s.shown, s.unrecorded)
  }

  // ---- environment steps

  predicate IsEnvironment(a: Step) {
    a.Edit? || a.Touch? || a.Delete? || a.Create?
  }

  function Environment(sv: Server, a: Step): Server {
    match a
    case Edit(spec) =>
      if sv.current.None? then sv
      else
        var o := Live(sv);
        Commit(sv, Object(o.uid, o.generation + 1, o.version, spec, o.status))
    case Touch => if sv.current.None? then sv else Commit(sv, Live(sv))
    case Delete => Server(None, sv.history, sv.uids)
    case Create(spec) =>
      if sv.current.Some? then sv
      else Commit(Server(None, sv.history, sv.uids + 1), Object(sv.uids, 1, 0, spec, FRESH))
    case _ => sv
  }

  function AfterCreation(sv: Server, a: Step, unrecorded: Option<nat>): Option<nat> {
    if a.Create? && sv.current.None? then Some(|sv.history|) else unrecorded
  }

  /** What the API server does for other parties: an edit of the spec is a new generation, any other
      update only a new version, a re-creation a new object with an empty status. */
  lemma EnvironmentMeans(sv: Server, spec: Spec)
    ensures sv.current.Some? ==>
              var o := Live(sv);
              && Environment(sv, Edit(spec)).current
                 == Some(Object(o.uid, o.generation + 1, |sv.history|, spec, o.status))
              && Environment(sv, Touch).current == Some(Object(o.uid, o.generation, |sv.history|, o.spec, o.status))
              && Environment(sv, Create(spec)) == sv
    ensures Environment(sv, Delete) == Server(None, sv.history, sv.uids)
    ensures sv.current.None? ==>
              && Environment(sv, Edit(spec)) == sv && Environment(sv, Touch) == sv
              && Environment(sv, Create(spec)).current
                 == Some(Object(sv.uids, 1, |sv.history|, spec, DriftStatus([], Summary(0, 0, 0, 0), 0, "", [])))
              && Environment(sv, Create(spec)).uids == sv.uids + 1
  {
  }

  /** A process restart: the gauge registry and the reconcile in progress are gone. */
  function OnRestart(s: State): State {
    State(s.server, map[], Idle,
          if s.log != [] && Last(s.log).fate.Open? then SetLast(s.log, Concluded(Last(s.log), Interrupted)) else s.log,
          None, None)
  }

  /** A panic in the middle of a reconcile, recovered by the manager: the reconcile is gone, the gauges
      stay. The four calls that set the gauges do not fail, so none falls between two of them. */
  function OnAbort(s: State): State {
    if s.pc.Recording? && s.pc.labels > 0 then s
    else
      State(s.server, s.gauges, Idle,
            if s.log != [] && Last(s.log).fate.Open? then SetLast(s.log, Concluded(Last(s.log), Interrupted)) else s.log,
            s.shown,
            if s.pc.Recording? && Later(s.unrecorded, s.pc.dc.version).None? then Some(s.pc.dc.version) else s.unrecorded)
  }

  function Next(cfg: Config, s: State, a: Step): State {
    match a
    case Get(version) => OnGet(cfg, s, version)
    case Fail(verdict, reason) => OnFail(cfg, s, verdict, reason)
    case Evaluate(results) => OnEvaluate(s, results)
    case Put(reply) => OnPut(s, reply)
    case SetGauge => OnSetGauge(cfg, s)
    case Decide => OnDecide(cfg, s)
    case Send(secrets, ok) => OnSend(s, secrets, ok)
    case EndSends => OnEndSends(s)
    case Restart => OnRestart(s)
    case Abort => OnAbort(s)
    case _ => State(Environment(s.server, a), s.gauges, s.pc, s.log, s.shown, AfterCreation(s.server, a, s.unrecorded))
  }

  /** The state after a run. */
  function After(cfg: Config, s: State, run: seq<Step>): State {
    if run == [] then s else Next(cfg, After(cfg, s, run[..|run| - 1]), run[|run| - 1])
  }

  lemma AfterSnoc(cfg: Config, s: State, run: seq<Step>, a: Step)
    ensures After(cfg, s, run + [a]) == Next(cfg, After(cfg, s, run), a)
  {
    assert (run + [a])[..|run|] == run;
  }

  lemma {:induction false} AfterAppend(cfg: Config, s: State, run: seq<Step>, more: seq<Step>)
    ensures After(cfg, s, run + more) == After(cfg, After(cfg, s, run), more)
  {
    if more == [] {
      assert run + more == run;
    } else {
      var n := |more| - 1;
      AfterAppend(cfg, s, run, more[..n]);
      assert run + more == (run + more[..n]) + [more[n]];
      AfterSnoc(cfg, s, run + more[..n], more[n]);
    }
  }

  lemma AfterTwo(cfg: Config, s: State, a: Step, b: Step)
    ensures After(cfg, s, [a, b]) == Next(cfg, Next(cfg, s, a), b)
  {
    hide Next;
    AfterSnoc(cfg, s, [], a);
    AfterSnoc(cfg, s, [a], b);
    assert [] + [a] == [a] && [a] + [b] == [a, b];
  }

  lemma AfterFour(cfg: Config, s: State, a: Step, b: Step, c: Step, d: Step)
    ensures After(cfg, s, [a, b, c, d]) == Next(cfg, Next(cfg, Next(cfg, Next(cfg, s, a), b), c), d)
  {
    hide Next, After;
    AfterTwo(cfg, s, a, b);
    AfterTwo(cfg, After(cfg, s, [a, b]), c, d);
    AfterAppend(cfg, s, [a, b], [c, d]);
    assert [a, b] + [c, d] == [a, b, c, d];
  }
}
