/** withCheckout and HelmSource.Load as the worker runs them: straight through, with the deferred cleanup. */
module CheckoutCall {
  import opened Checkout
  import opened Text

  /** How the wait for the dependency build ends: it succeeds, fails or panics in time, or the context
      is cancelled first. */
  datatype BuildEnd = Succeeds | Fails | Panics | Outlived

  /** What the outside world answers: the fresh name os.MkdirTemp picks, whether each call succeeds, and
      what the build does, if there is one. */
  datatype Script = Script(temp: Option<string>, cloned: bool, resolved: bool, build: BuildEnd,
                           rendered: bool, parsed: bool, removed: bool)

  predicate Possible(cfg: Config, o: Script) {
    o.build.Outlived? ==> cfg.cancellable
  }

  // The run of the step machine that the script stands for; steps that are not enabled change nothing.

  function Opening(o: Script): seq<Step> {
    [MakeTemp(o.temp.Some?), Clone(o.cloned), Resolve(o.resolved), EnterFn]
  }

  function Waiting(b: BuildEnd): seq<Step> {
    match b
    case Succeeds => [BuildReturns(true), Send, TakeDone]
    case Fails => [BuildReturns(false), Send, TakeDone]
    case Panics => [BuildPanics, Recover, SendPanic, TakeDone]
    case Outlived => [Cancel, TakeCancel]
  }

  function Closing(o: Script): seq<Step> {
    [Render(o.rendered), Parse(o.parsed), RemoveAll(o.removed)]
  }

  function Plan(o: Script): seq<Step> {
    Opening(o) + Waiting(o.build) + Closing(o)
  }

  /** The temporary directories of the process. */
  class TempSpace {
    var dirs: set<string>

    constructor ()
      ensures dirs == {}
    {
      dirs := {};
    }

    /** withCheckout: returns whether the resources result is set, and the named err. */
    method WithCheckout(cfg: Config, o: Script) returns (loaded: bool, err: Option<Failure>)
      requires Possible(cfg, o) && (o.temp.Some? ==> o.temp.value !in dirs)
      modifies this
      ensures var t := After(cfg, Start(), Plan(o));
              && t.worker == Returned(err) && t.loaded == loaded && (t.dir ==> o.temp.Some?)
              && dirs == old(dirs) + (if o.temp.Some? && t.dir then {o.temp.value} else {})
      ensures err == None ==> loaded && dirs == old(dirs)
    {
      hide Next, After, Plan;
      PlanOutcome(cfg, o);
      if o.temp.None? {
        return false, Some(NoTempDir);
      }
      var dir := o.temp.value;
      dirs := dirs + {dir};
      loaded, err := Work(cfg, o);
      // deferred
      if o.removed {
        dirs := dirs - {dir};
      } else if err == None {
        err := Some(CleanupFailed);
      }
    }

    /** The body of withCheckout between the creation of the directory and its deferred removal. */
    method Work(cfg: Config, o: Script) returns (loaded: bool, err: Option<Failure>)
      ensures err == WorkError(cfg, o) && (loaded <==> err == None)
    {
      WorkErrorIs(cfg, o);
      if !o.cloned {
        return false, Some(CloneFailed);
      }
      if !o.resolved {
        return false, Some(BadSubPath);
      }
      if cfg.builds && !o.build.Succeeds? {
        return false, BuildError(o.build);
      }
      if !o.rendered {
        return false, Some(RenderFailed);
      }
      if !o.parsed {
        return false, Some(ParseFailed);
      }
      return true, None;
    }
  }

  /** What runBuildDeps returns. */
  function BuildError(b: BuildEnd): Option<Failure> {
    match b
    case Succeeds => None
    case Fails => Some(BuildFailed)
    case Panics => Some(BuildPanicked)
    case Outlived => Some(BuildCanceled)
  }

  /** What each call that withCheckout makes after creating the directory says, in order. */
  function Answers(cfg: Config, o: Script): seq<Option<Failure>> {
    [ if o.cloned then None else Some(CloneFailed),
      if o.resolved then None else Some(BadSubPath),
      if cfg.builds then BuildError(o.build) else None,
      if o.rendered then None else Some(RenderFailed),
      if o.parsed then None else Some(ParseFailed) ]
  }

  /** The first failure among the answers: the calls after it are not made. */
  function First(answers: seq<Option<Failure>>): Option<Failure> {
    if answers == [] then None else if answers[0].Some? then answers[0] else First(answers[1..])
  }

  function WorkError(cfg: Config, o: Script): Option<Failure> {
    First(Answers(cfg, o))
  }

  /** The same, spelled out. */
  lemma WorkErrorIs(cfg: Config, o: Script)
    ensures !o.cloned ==> WorkError(cfg, o) == Some(CloneFailed)
    ensures o.cloned && !o.resolved ==> WorkError(cfg, o) == Some(BadSubPath)
    ensures o.cloned && o.resolved && cfg.builds && o.build.Fails? ==> WorkError(cfg, o) == Some(BuildFailed)
    ensures o.cloned && o.resolved && cfg.builds && o.build.Panics? ==> WorkError(cfg, o) == Some(BuildPanicked)
    ensures o.cloned && o.resolved && cfg.builds && o.build.Outlived? ==> WorkError(cfg, o) == Some(BuildCanceled)
    ensures o.cloned && o.resolved && (cfg.builds ==> o.build.Succeeds?) ==>
              WorkError(cfg, o) == if !o.rendered then Some(RenderFailed) else if !o.parsed then Some(ParseFailed) else None
  {
    var a := Answers(cfg, o);
    assert a[1..][1..] == a[2..] && a[2..][1..] == a[3..] && a[3..][1..] == a[4..] && a[4..][1..] == [];
    assert First(a[4..]) == a[4];
    assert First(a[3..]) == if a[3].Some? then a[3] else a[4];
    assert First(a[2..]) == if a[2].Some? then a[2] else First(a[3..]);
    assert First(a[1..]) == if a[1].Some? then a[1] else First(a[2..]);
  }

  // ---- where the run leads

  lemma AfterSnoc(cfg: Config, s: State, steps: seq<Step>, step: Step)
    ensures After(cfg, s, steps + [step]) == Next(cfg, After(cfg, s, steps), step)
  {
    hide Next;
    assert (steps + [step])[..|steps|] == steps;
  }

  lemma AfterTwo(cfg: Config, s: State, a: Step, b: Step)
    ensures After(cfg, s, [a, b]) == Next(cfg, Next(cfg, s, a), b)
  {
    hide Next;
    AfterSnoc(cfg, s, [], a);
    AfterSnoc(cfg, s, [a], b);
    assert [] + [a] == [a] && [a] + [b] == [a, b];
  }

  lemma AfterThree(cfg: Config, s: State, a: Step, b: Step, c: Step)
    ensures After(cfg, s, [a, b, c]) == Next(cfg, Next(cfg, Next(cfg, s, a), b), c)
  {
    hide Next, After;
    AfterTwo(cfg, s, a, b);
    AfterSnoc(cfg, s, [a, b], c);
    assert [a, b] + [c] == [a, b, c];
  }

  lemma AfterFour(cfg: Config, s: State, a: Step, b: Step, c: Step, d: Step)
    ensures After(cfg, s, [a, b, c, d]) == Next(cfg, Next(cfg, Next(cfg, Next(cfg, s, a), b), c), d)
  {
    hide Next, After;
    AfterThree(cfg, s, a, b, c);
    AfterSnoc(cfg, s, [a, b, c], d);
    assert [a, b, c] + [d] == [a, b, c, d];
  }

  lemma Opened(cfg: Config, o: Script)
    ensures var t := After(cfg, Start(), Opening(o));
            && !t.loaded && t.dir == o.temp.Some? && !t.cancelled && t.channel == []
            && (if o.temp.None? then t.worker == Returned(Some(NoTempDir)) && t.builder.Idle?
                else if !o.cloned || !o.resolved then t.worker == AtCleanup(WorkError(cfg, o)) && t.builder.Idle?
                else if cfg.builds then t.worker.AtSelect? && t.builder.Building?
                else t.worker.AtRender? && t.builder.Idle?)
  {
    hide After, WorkError;
    WorkErrorIs(cfg, o);
    AfterFour(cfg, Start(), MakeTemp(o.temp.Some?), Clone(o.cloned), Resolve(o.resolved), EnterFn);
    var s1 := Next(cfg, Start(), MakeTemp(o.temp.Some?));
    assert s1.worker == if o.temp.Some? then AtClone else Returned(Some(NoTempDir));
    var s2 := Next(cfg, s1, Clone(o.cloned));
    if o.temp.Some? {
      assert s2.worker == if o.cloned then AtSubPath else AtCleanup(Some(CloneFailed));
    }
  }

  /** The wait, when the worker is there to wait. */
  lemma Waited(cfg: Config, s: State, b: BuildEnd)
    requires s.worker.AtSelect? && s.builder.Building? && s.channel == [] && !s.cancelled
    requires b.Outlived? ==> cfg.cancellable
    ensures var t := After(cfg, s, Waiting(b));
            && t.dir == s.dir && t.loaded == s.loaded
            && t.worker == if b.Succeeds? then AtRender else AtCleanup(BuildError(b))
  {
    hide After;
    match b
    case Succeeds => AfterThree(cfg, s, BuildReturns(true), Send, TakeDone);
    case Fails => AfterThree(cfg, s, BuildReturns(false), Send, TakeDone);
    case Panics => AfterFour(cfg, s, BuildPanics, Recover, SendPanic, TakeDone);
    case Outlived => AfterTwo(cfg, s, Cancel, TakeCancel);
  }

  /** Otherwise nothing happens to it. */
  lemma {:induction false} Elsewhere(cfg: Config, s: State, steps: seq<Step>)
    requires !s.worker.AtSelect? && s.builder.Idle?
    requires forall step | step in steps :: !WorkerStep(step) || step.TakeDone? || step.TakeCancel?
    ensures var t := After(cfg, s, steps); t.worker == s.worker && t.dir == s.dir && t.loaded == s.loaded && t.builder.Idle?
  {
    if steps != [] {
      var n := |steps| - 1;
      Elsewhere(cfg, s, steps[..n]);
      assert steps[n] in steps;
    }
  }

  lemma Closed(cfg: Config, s: State, o: Script)
    requires s.worker.AtRender? || s.worker.AtCleanup? || s.worker.Returned?
    requires s.worker.AtRender? ==> !s.loaded
    ensures var t := After(cfg, s, Closing(o));
            var err := if !s.worker.AtRender? then s.worker.err
                       else if !o.rendered then Some(RenderFailed) else if !o.parsed then Some(ParseFailed) else None;
            && (s.worker.Returned? ==> t == s)
            && (!s.worker.Returned? ==>
                  && t.worker == Returned(if !o.removed && err == None then Some(CleanupFailed) else err)
                  && t.dir == (s.dir && !o.removed)
                  && (t.loaded <==> if s.worker.AtRender? then err == None else s.loaded))
  {
    hide After;
    AfterThree(cfg, s, Render(o.rendered), Parse(o.parsed), RemoveAll(o.removed));
    var s1 := Next(cfg, s, Render(o.rendered));
    var s2 := Next(cfg, s1, Parse(o.parsed));
    assert s2.dir == s.dir;
  }

  /** Where the plan leads, for every pattern of failures. */
  lemma PlanOutcome(cfg: Config, o: Script)
    requires Possible(cfg, o)
    ensures var t := After(cfg, Start(), Plan(o));
            && (o.temp.None? ==> t.worker == Returned(Some(NoTempDir)) && !t.dir && !t.loaded)
            && (o.temp.Some? ==>
                  && t.worker == Returned(if !o.removed && WorkError(cfg, o) == None then Some(CleanupFailed) else WorkError(cfg, o))
                  && t.dir == !o.removed && (t.loaded <==> WorkError(cfg, o) == None))
  {
    hide Next, After, Opening, Closing, WorkError;
    WorkErrorIs(cfg, o);
    var s1 := After(cfg, Start(), Opening(o));
    var s2 := After(cfg, s1, Waiting(o.build));
    AfterAppend(cfg, Start(), Opening(o), Waiting(o.build));
    AfterAppend(cfg, Start(), Opening(o) + Waiting(o.build), Closing(o));
    Opened(cfg, o);
    if s1.worker.AtSelect? {
      Waited(cfg, s1, o.build);
    } else {
      Elsewhere(cfg, s1, Waiting(o.build));
    }
    Closed(cfg, s2, o);
  }
}
