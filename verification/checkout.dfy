/** HelmSource.Load: the checkout's lifecycle, with the dependency build running beside the worker. */
module Checkout {
  import opened Text

  datatype Failure =
    | NoTempDir | CloneFailed | BadSubPath | BuildCanceled | BuildFailed | BuildPanicked
    | RenderFailed | ParseFailed | CleanupFailed

  /** builds: spec.dependencyBuild. cancellable: the context is not the background context. */
  datatype Config = Config(builds: bool, cancellable: bool)

  /** Where the reconcile worker stands. AtCleanup and Returned carry the named err. */
  datatype Worker =
    | AtTemp | AtClone | AtSubPath | AtFn | AtSelect | AtRender | AtParse
    | AtCleanup(err: Option<Failure>)
    | Returned(err: Option<Failure>)

  /** Where the build goroutine stands: building; about to send what the build returned; in its deferred
      function, with or without a panic to recover from; about to send from there; gone. The verdict is
      what became of the build. */
  datatype Builder =
    | Idle
    | Building
    | Sending(verdict: Option<Failure>)
    | Deferred(panicking: bool, verdict: Option<Failure>)
    | Recovering(verdict: Option<Failure>)
    | Gone(verdict: Option<Failure>)

  /** dir: the checkout exists. sends counts channel sends, failures lists what went wrong for the
      worker, in order. loaded: the resources result is set. */
  datatype State = State(worker: Worker, builder: Builder, channel: seq<Option<Failure>>, cancelled: bool,
                         dir: bool, loaded: bool, sends: nat, failures: seq<Failure>)

  const CAPACITY := 1

  datatype Step =
    | MakeTemp(ok: bool) | Clone(ok: bool) | Resolve(ok: bool) | EnterFn
    | TakeCancel | TakeDone | Render(ok: bool) | Parse(ok: bool) | RemoveAll(ok: bool)
    | Cancel
    | Write | BuildReturns(ok: bool) | BuildPanics | Send | Recover | SendPanic

  function Start(): State {
    State(AtTemp, Idle, [], false, false, false, 0, [])
  }

  /** The worker leaves fn, or withCheckout before it, with an error. */
  function Fail(s: State, f: Failure): State {
    s.(worker := AtCleanup(Some(f)), failures := s.failures + [f])
  }

  /** The goroutine puts a value on the channel and goes on. */
  function Sent(s: State, builder: Builder, v: Option<Failure>): State {
    s.(builder := builder, channel := s.channel + [v], sends := s.sends + 1)
  }

  predicate BuilderStep(step: Step) {
    step.Write? || step.BuildReturns? || step.BuildPanics? || step.Send? || step.Recover? || step.SendPanic?
  }

  /** The worker's own steps, as against the goroutine's and the context's. */
  predicate WorkerStep(step: Step) {
    !step.Cancel? && !BuilderStep(step)
  }

  predicate Enabled(cfg: Config, s: State, step: Step) {
    match step
    case MakeTemp(_) => s.worker.AtTemp?
    case Clone(_) => s.worker.AtClone?
    case Resolve(_) => s.worker.AtSubPath?
    case EnterFn => s.worker.AtFn?
    case TakeCancel => s.worker.AtSelect? && s.cancelled
    case TakeDone => s.worker.AtSelect? && s.channel != []
    case Render(_) => s.worker.AtRender?
    case Parse(_) => s.worker.AtParse?
    case RemoveAll(_) => s.worker.AtCleanup?
    case Cancel => cfg.cancellable && !s.cancelled
    case Write => s.builder.Building?
    case BuildReturns(_) => s.builder.Building?
    case BuildPanics => s.builder.Building?
    case Send => s.builder.Sending? && |s.channel| < CAPACITY
    case Recover => s.builder.Deferred?
    case SendPanic => s.builder.Recovering? && |s.channel| < CAPACITY
  }

  function Next(cfg: Config, s: State, step: Step): State {
    if !Enabled(cfg, s, step) then s
    else match step
      case MakeTemp(ok) =>
        if ok then s.(worker := AtClone, dir := true)
        else s.(worker := Returned(Some(NoTempDir)), failures := s.failures + [NoTempDir])
      case Clone(ok) => if ok then s.(worker := AtSubPath) else Fail(s, CloneFailed)
      case Resolve(ok) => if ok then s.(worker := AtFn) else Fail(s, BadSubPath)
      case EnterFn => if cfg.builds then s.(worker := AtSelect, builder := Building) else s.(worker := AtRender)
      case TakeCancel => Fail(s, BuildCanceled)
      case TakeDone =>
        var t := s.(channel := s.channel[1..]);
        (match s.channel[0]
         case None => t.(worker := AtRender)
         case Some(f) => Fail(t, f))
      case Render(ok) => if ok then s.(worker := AtParse) else Fail(s, RenderFailed)
      case Parse(ok) => if ok then s.(worker := AtCleanup(None), loaded := true) else Fail(s, ParseFailed)
      case RemoveAll(ok) =>
        if ok then s.(worker := Returned(s.worker.err), dir := false)
        else s.(worker := Returned(if s.worker.err == None then Some(CleanupFailed) else s.worker.err),
                failures := s.failures + [CleanupFailed])
      case Cancel => s.(cancelled := true)
      case Write => s.(dir := true)
      case BuildReturns(ok) => s.(builder := Sending(if ok then None else Some(BuildFailed)))
      case BuildPanics => s.(builder := Deferred(true, Some(BuildPanicked)))
      case Send => Sent(s, Deferred(false, s.builder.verdict), s.builder.verdict)
      case Recover => s.(builder := if s.builder.panicking then Recovering(s.builder.verdict) else Gone(s.builder.verdict))
      case SendPanic => Sent(s, Gone(s.builder.verdict), s.builder.verdict)
  }

  /** The state after a run, in any interleaving. */
  function After(cfg: Config, s: State, steps: seq<Step>): State {
    if steps == [] then s else Next(cfg, After(cfg, s, steps[..|steps| - 1]), steps[|steps| - 1])
  }

  lemma {:induction false} AfterAppend(cfg: Config, s: State, first: seq<Step>, second: seq<Step>)
    ensures After(cfg, s, first + second) == After(cfg, After(cfg, s, first), second)
  {
    if second == [] {
      assert first + second == first;
    } else {
      var n := |second| - 1;
      assert first + second == (first + second[..n]) + [second[n]];
      AfterAppend(cfg, s, first, second[..n]);
    }
  }

  // ---- what every step keeps

  predicate Early(w: Worker) {
    w.AtTemp? || w.AtClone? || w.AtSubPath? || w.AtFn?
  }

  /** The worker is past the build, or fn has no build. */
  predicate PastBuild(w: Worker) {
    w.AtRender? || w.AtParse? || (w.AtCleanup? && w.err == None) || (w.Returned? && w.err == None)
  }

  /** The worker gave up waiting. */
  predicate GaveUp(w: Worker) {
    (w.AtCleanup? || w.Returned?) && w.err == Some(BuildCanceled)
  }

  predicate BuildWentWrong(w: Worker) {
    (w.AtCleanup? || w.Returned?) && (w.err == Some(BuildFailed) || w.err == Some(BuildPanicked))
  }

  predicate IsVerdict(v: Option<Failure>) {
    v == None || v == Some(BuildFailed) || v == Some(BuildPanicked)
  }

  /** The build has come to its end, with this verdict, and the goroutine has sent it. */
  predicate Finished(b: Builder, v: Option<Failure>) {
    b == Deferred(false, v) || b == Gone(v)
  }

  /** The goroutine has yet to send. */
  predicate Unsent(b: Builder) {
    b.Building? || b.Sending? || b.Recovering? || (b.Deferred? && b.panicking)
  }

  predicate ChannelInv(cfg: Config, s: State) {
    && (s.builder.Idle? ==> s.channel == [] && s.sends == 0 && !s.worker.AtSelect?)
    && (Unsent(s.builder) ==> s.channel == [] && s.sends == 0 && (s.worker.AtSelect? || GaveUp(s.worker)))
    && (!s.builder.Idle? && !s.builder.Building? ==> IsVerdict(s.builder.verdict))
    && (s.builder.Gone? || (s.builder.Deferred? && !s.builder.panicking) ==>
          && s.sends == 1
          && (s.channel == [] || s.channel == [s.builder.verdict])
          && (s.worker.AtSelect? ==> s.channel == [s.builder.verdict]))
    && (s.builder.Recovering? || (s.builder.Deferred? && s.builder.panicking) ==> s.builder.verdict == Some(BuildPanicked))
    && (s.builder.Sending? || (s.builder.Deferred? && !s.builder.panicking) ==> s.builder.verdict != Some(BuildPanicked))
  }

  predicate BuildInv(cfg: Config, s: State) {
    && (cfg.builds && PastBuild(s.worker) ==> Finished(s.builder, None))
    && (Early(s.worker) || !cfg.builds ==> s.builder.Idle?)
  }

  predicate WaitInv(cfg: Config, s: State) {
    && (!cfg.cancellable ==> !s.cancelled && !GaveUp(s.worker))
    && (GaveUp(s.worker) ==> s.cancelled && cfg.builds)
    && (BuildWentWrong(s.worker) ==> Finished(s.builder, s.worker.err))
  }

  predicate DirInv(s: State) {
    && (s.worker.AtTemp? ==> !s.dir)
    && (s.worker.Returned? && s.dir ==> CleanupFailed in s.failures || GaveUp(s.worker))
    && (s.worker.Returned? && CleanupFailed in s.failures ==> s.dir)
    && (!s.worker.AtTemp? && !s.worker.Returned? ==> s.dir)
  }

  predicate ErrorInv(s: State) {
    match s.worker
    case AtCleanup(err) => s.failures == (if err == None then [] else [err.value]) && err != Some(CleanupFailed)
                           && (s.loaded <==> err == None)
    case Returned(err) => err == (if s.failures == [] then None else Some(s.failures[0]))
                          && |s.failures| <= 2 && (s.loaded <==> err == None || err == Some(CleanupFailed))
                          && forall i | 0 <= i < |s.failures| - 1 :: s.failures[i] != CleanupFailed
    case _ => s.failures == [] && !s.loaded
  }

  predicate Inv(cfg: Config, s: State) {
    ChannelInv(cfg, s) && BuildInv(cfg, s) && WaitInv(cfg, s) && DirInv(s) && ErrorInv(s)
  }

  lemma GoroutineKeepsChannel(cfg: Config, s: State, step: Step)
    requires Inv(cfg, s) && BuilderStep(step)
    ensures ChannelInv(cfg, Next(cfg, s, step))
  {
    hide DirInv, ErrorInv, WaitInv, BuildInv;
  }

  lemma OthersKeepChannel(cfg: Config, s: State, step: Step)
    requires Inv(cfg, s) && !BuilderStep(step)
    ensures ChannelInv(cfg, Next(cfg, s, step))
  {
    hide DirInv, ErrorInv, WaitInv;
  }

  lemma NextKeepsBuild(cfg: Config, s: State, step: Step)
    requires Inv(cfg, s)
    ensures BuildInv(cfg, Next(cfg, s, step))
  {
    hide DirInv, ErrorInv, WaitInv;
  }

  lemma WorkerKeepsWait(cfg: Config, s: State, step: Step)
    requires Inv(cfg, s) && WorkerStep(step)
    ensures WaitInv(cfg, Next(cfg, s, step))
  {
    hide DirInv, ErrorInv;
  }

  lemma OthersKeepWait(cfg: Config, s: State, step: Step)
    requires Inv(cfg, s) && !WorkerStep(step)
    ensures WaitInv(cfg, Next(cfg, s, step))
  {
    hide DirInv, ErrorInv;
  }

  lemma NextKeepsDir(cfg: Config, s: State, step: Step)
    requires Inv(cfg, s)
    ensures DirInv(Next(cfg, s, step))
  {
    var t := Next(cfg, s, step);
    if step == RemoveAll(false) && Enabled(cfg, s, step) {
      assert t.failures[|s.failures|] == CleanupFailed;
    }
  }

  lemma CleanupKeepsError(cfg: Config, s: State, step: Step)
    requires ErrorInv(s) && step.RemoveAll?
    ensures ErrorInv(Next(cfg, s, step))
  {
  }

  lemma NextKeepsError(cfg: Config, s: State, step: Step)
    requires Inv(cfg, s) && !step.RemoveAll?
    ensures ErrorInv(Next(cfg, s, step))
  {
    hide DirInv;
  }

  lemma NextKeepsInv(cfg: Config, s: State, step: Step)
    requires Inv(cfg, s)
    ensures Inv(cfg, Next(cfg, s, step))
  {
    hide Next, ChannelInv, BuildInv, WaitInv, DirInv, ErrorInv;
    if BuilderStep(step) {
      GoroutineKeepsChannel(cfg, s, step);
    } else {
      OthersKeepChannel(cfg, s, step);
    }
    NextKeepsBuild(cfg, s, step);
    if WorkerStep(step) {
      WorkerKeepsWait(cfg, s, step);
    } else {
      OthersKeepWait(cfg, s, step);
    }
    NextKeepsDir(cfg, s, step);
    assert ErrorInv(s);
    if step.RemoveAll? {
      CleanupKeepsError(cfg, s, step);
    } else {
      NextKeepsError(cfg, s, step);
    }
  }

  lemma {:induction false} RunKeepsInv(cfg: Config, steps: seq<Step>)
    ensures Inv(cfg, After(cfg, Start(), steps))
  {
    if steps == [] {
    } else {
      hide Inv, Next;
      var n := |steps| - 1;
      RunKeepsInv(cfg, steps[..n]);
      NextKeepsInv(cfg, After(cfg, Start(), steps[..n]), steps[n]);
    }
  }

  // ---- the channel

  /** The goroutine never blocks: both its sends, the one after the build and the one of the deferred
      function, are enabled when it comes to them, whether or not the worker is still there. And no run
      goes through more than one of them: the deferred function sends only if the build panicked, so
      that nothing had been sent. */
  lemma {:induction false} NeverBlocks(cfg: Config, steps: seq<Step>)
    ensures var s := After(cfg, Start(), steps);
            && s.sends <= 1 && |s.channel| <= 1 && CAPACITY == 1
            && (s.builder.Sending? ==> Enabled(cfg, s, Send))
            && (s.builder.Recovering? ==> Enabled(cfg, s, SendPanic))
            && (s.sends == 0 <==> s.builder.Idle? || Unsent(s.builder))
  {
    RunKeepsInv(cfg, steps);
  }

  /** A build error reported to the caller is the one the goroutine sent, and a manifest is rendered
      only when the build went well and can no longer write. */
  lemma {:induction false} VerdictReachesCaller(cfg: Config, steps: seq<Step>)
    ensures var s := After(cfg, Start(), steps);
            && (s.worker.Returned? && (s.worker.err == Some(BuildFailed) || s.worker.err == Some(BuildPanicked)) ==>
                  Finished(s.builder, s.worker.err))
            && (cfg.builds && (s.worker.AtRender? || s.worker.AtParse?) ==>
                  Finished(s.builder, None) && !Enabled(cfg, s, Write))
            && (s.worker.Returned? && s.worker.err == Some(BuildCanceled) ==> cfg.cancellable && s.cancelled)
  {
    RunKeepsInv(cfg, steps);
  }

  // ---- progress

  /** The step the worker can take where it stands. */
  function Turn(s: State): Step {
    match s.worker
    case AtTemp => MakeTemp(true)
    case AtClone => Clone(true)
    case AtSubPath => Resolve(true)
    case AtFn => EnterFn
    case AtSelect => if s.cancelled then TakeCancel else TakeDone
    case AtRender => Render(true)
    case AtParse => Parse(true)
    case _ => RemoveAll(true)
  }

  /** What the goroutine can do next where it stands. */
  function BuilderTurn(b: Builder): Step {
    match b
    case Sending(_) => Send
    case Deferred(_, _) => Recover
    case Recovering(_) => SendPanic
    case _ => Write
  }

  /** Until it has returned the worker can take a turn, unless it waits for a build that has not been
      heard of and the context is live: then, and only then, it waits. Once the build itself is over
      the goroutine goes on by itself and wakes it. */
  lemma {:induction false} WaitsOnlyForTheBuild(cfg: Config, steps: seq<Step>)
    ensures var s := After(cfg, Start(), steps);
            && (!s.worker.Returned? ==>
                  ((exists step :: WorkerStep(step) && Enabled(cfg, s, step)) <==>
                     !(s.worker.AtSelect? && !s.cancelled && Unsent(s.builder))))
            && (Unsent(s.builder) && !s.builder.Building? ==> Enabled(cfg, s, BuilderTurn(s.builder)))
  {
    RunKeepsInv(cfg, steps);
    var s := After(cfg, Start(), steps);
    if !s.worker.Returned? && Enabled(cfg, s, Turn(s)) {
      assert WorkerStep(Turn(s));
    }
  }

  /** How many turns the worker is from returning, at most. */
  function Distance(w: Worker): nat {
    match w
    case AtTemp => 8
    case AtClone => 7
    case AtSubPath => 6
    case AtFn => 5
    case AtSelect => 4
    case AtRender => 3
    case AtParse => 2
    case AtCleanup(_) => 1
    case Returned(_) => 0
  }

  function Turns(cfg: Config, steps: seq<Step>): nat {
    if steps == [] then 0
    else
      var n := |steps| - 1;
      Turns(cfg, steps[..n])
      + if WorkerStep(steps[n]) && Enabled(cfg, After(cfg, Start(), steps[..n]), steps[n]) then 1 else 0
  }

  lemma NextApproaches(cfg: Config, s: State, step: Step)
    ensures Distance(Next(cfg, s, step).worker) <= Distance(s.worker)
    ensures WorkerStep(step) && Enabled(cfg, s, step) ==> Distance(Next(cfg, s, step).worker) < Distance(s.worker)
  {
  }

  lemma {:induction false} WorkerReturnsInTime(cfg: Config, steps: seq<Step>)
    ensures Turns(cfg, steps) + Distance(After(cfg, Start(), steps).worker) <= 8
  {
    if steps == [] {
    } else {
      hide Next, Distance, Enabled, WorkerStep;
      var n := |steps| - 1;
      WorkerReturnsInTime(cfg, steps[..n]);
      NextApproaches(cfg, After(cfg, Start(), steps[..n]), steps[n]);
    }
  }

  // ---- the error returned

  /** What is returned is the first thing that went wrong: a cleanup failure shows only when nothing
      else did. Resources come with no error, or with that one. */
  lemma {:induction false} FirstFailureWins(cfg: Config, steps: seq<Step>)
    requires After(cfg, Start(), steps).worker.Returned?
    ensures var s := After(cfg, Start(), steps);
            && s.worker.err == (if s.failures == [] then None else Some(s.failures[0]))
            && (s.worker.err == Some(CleanupFailed) <==> s.failures == [CleanupFailed])
            && (s.loaded <==> s.failures == [] || s.failures == [CleanupFailed])
  {
    RunKeepsInv(cfg, steps);
  }

  // ---- the checkout directory

  /** Once the worker has returned, the build alone can bring the directory back. */
  lemma {:induction false} GoneForGood(cfg: Config, s: State, more: seq<Step>)
    requires s.worker.Returned? && !s.dir && !s.builder.Building?
    ensures var t := After(cfg, s, more); t.worker == s.worker && !t.dir && !t.builder.Building?
  {
    if more != [] {
      GoneForGood(cfg, s, more[..|more| - 1]);
    }
  }

  lemma {:induction false} SettledBuilder(cfg: Config, s: State, more: seq<Step>)
    requires s.worker.Returned? && (s.builder.Idle? || Finished(s.builder, None))
    ensures After(cfg, s, more).worker == s.worker
    ensures s.builder.Idle? ==> After(cfg, s, more).builder.Idle?
    ensures Finished(s.builder, None) ==> Finished(After(cfg, s, more).builder, None)
  {
    if more != [] {
      SettledBuilder(cfg, s, more[..|more| - 1]);
    }
  }

  /** The central guarantee: when Load returns no error, the build (if there was one) has finished
      without error and the checkout is removed, and so it stays whatever happens next. */
  lemma {:induction false} NilMeansDoneAndRemoved(cfg: Config, steps: seq<Step>, more: seq<Step>)
    requires After(cfg, Start(), steps).worker == Returned(None)
    ensures var t := After(cfg, Start(), steps + more);
            && t.worker == Returned(None) && t.loaded && !t.dir
            && (if cfg.builds then Finished(t.builder, None) else t.builder.Idle?)
  {
    var s := After(cfg, Start(), steps);
    RunKeepsInv(cfg, steps);
    RunKeepsInv(cfg, steps + more);
    AfterAppend(cfg, Start(), steps, more);
    GoneForGood(cfg, s, more);
    SettledBuilder(cfg, s, more);
  }

  lemma WriteRevives(cfg: Config, s: State)
    requires s.builder.Building?
    ensures After(cfg, s, [Write]).dir
  {
    assert [Write][..0] == [];
    assert After(cfg, s, []) == s;
  }

  /** After any return, with or without an error: the checkout is there at some later time exactly when
      it is there already or the build is still running. */
  lemma {:induction false} ReappearsExactlyWhileBuilding(cfg: Config, steps: seq<Step>)
    requires After(cfg, Start(), steps).worker.Returned?
    ensures var s := After(cfg, Start(), steps);
            (exists more :: After(cfg, s, more).dir) <==> s.dir || s.builder.Building?
  {
    var s := After(cfg, Start(), steps);
    if s.dir {
      assert After(cfg, s, []).dir;
    } else if s.builder.Building? {
      WriteRevives(cfg, s);
    } else {
      forall more ensures !After(cfg, s, more).dir { GoneForGood(cfg, s, more); }
    }
  }

  /** A directory left behind on return has one of two causes. */
  lemma {:induction false} LeftoverHasCause(cfg: Config, steps: seq<Step>)
    requires After(cfg, Start(), steps).worker.Returned?
    ensures var s := After(cfg, Start(), steps);
            && (s.dir ==> CleanupFailed in s.failures || (cfg.builds && s.worker.err == Some(BuildCanceled)))
            && (CleanupFailed in s.failures ==> s.dir)
  {
    RunKeepsInv(cfg, steps);
  }

  const CANCELED_MIDWAY := [MakeTemp(true), Clone(true), Resolve(true), EnterFn, Cancel, TakeCancel, RemoveAll(true), Write]

  /** And the second cause is real: cancelled while the build runs, cleaned up without a failure, and
      the build writes again. */
  lemma LeakAfterCancel()
    ensures var s := After(Config(true, true), Start(), CANCELED_MIDWAY);
            s.worker == Returned(Some(BuildCanceled)) && s.failures == [BuildCanceled] && s.dir
  {
    var cfg, run := Config(true, true), CANCELED_MIDWAY;
    assert run[..8] == run && run[..7][..6] == run[..6] && run[..5][..4] == run[..4] && run[..3][..2] == run[..2];
    assert run[..8][..7] == run[..7] && run[..6][..5] == run[..5] && run[..4][..3] == run[..3] && run[..2][..1] == run[..1];
    assert After(cfg, Start(), run[..1]) == Start().(worker := AtClone, dir := true);
    assert After(cfg, Start(), run[..2]).worker == AtSubPath;
    assert After(cfg, Start(), run[..3]).worker == AtFn;
    assert After(cfg, Start(), run[..4]).builder == Building;
    assert After(cfg, Start(), run[..5]).cancelled;
    assert After(cfg, Start(), run[..6]).worker == AtCleanup(Some(BuildCanceled));
    assert After(cfg, Start(), run[..7]).worker == Returned(Some(BuildCanceled));
  }
}
