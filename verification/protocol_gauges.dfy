/** The drift gauges against the stored status, over runs. */
module ProtocolGauges {
  import opened Text
  import opened Drift
  import opened Metrics
  import opened Protocol
  import opened ProtocolInvariant

  /** The value a label has: from the summary being recorded, or from the version last shown. */
  predicate LabelInv(check: Key, gauges: map<Series, nat>, pc: Pc, shown: Option<nat>, h: seq<Object>, i: nat)
    requires i < |LABELS|
  {
    var k := Series(check, LABELS[i]);
    if pc.Recording? && i < pc.labels then k in gauges && gauges[k] == Reading(pc.dc.status.summary, LABELS[i])
    else match shown
      case Some(v) => v < |h| && k in gauges && gauges[k] == Reading(h[v].status.summary, LABELS[i])
      case None => k !in gauges
  }

  predicate GaugeInv(check: Key, gauges: map<Series, nat>, pc: Pc, shown: Option<nat>, h: seq<Object>) {
    && (shown.Some? ==> shown.value < |h|)
    && (forall i | 0 <= i < |LABELS| :: LabelInv(check, gauges, pc, shown, h, i))
    && (forall k | k in gauges && k.check == check :: k.status in LABELS)
  }

  /** No version after the given one has another summary. */
  predicate Steady(h: seq<Object>, from: nat) {
    from < |h| && forall j | from <= j < |h| :: h[j].status.summary == h[from].status.summary
  }

  /** The version whose summary is the current one: the unrecorded one if there is any since the
      gauges were set, or will be set by the recording in progress; else the one they show. */
  function Anchor(pc: Pc, shown: Option<nat>, unrecorded: Option<nat>): Option<nat> {
    var base := if pc.Recording? then Some(pc.dc.version) else shown;
    if base.Some? && Later(unrecorded, base.value).Some? then unrecorded else base
  }

  /** Versions come in the order shown, being recorded; and nothing changed since the anchor. */
  predicate AnchorInv(pc: Pc, shown: Option<nat>, unrecorded: Option<nat>, h: seq<Object>) {
    && (shown.Some? && unrecorded.Some? ==> shown.value < unrecorded.value)
    && (unrecorded.Some? ==> unrecorded.value < |h|)
    && (shown.Some? && pc.Recording? ==> shown.value < pc.dc.version)
    && (Anchor(pc, shown, unrecorded).Some? ==> Steady(h, Anchor(pc, shown, unrecorded).value))
  }

  predicate Showing(cfg: Config, s: State) {
    && GaugeInv(cfg.check, s.gauges, s.pc, s.shown, s.server.history)
    && AnchorInv(s.pc, s.shown, s.unrecorded, s.server.history)
  }

  // ---- how the parts move

  lemma HistoryGrows(check: Key, gauges: map<Series, nat>, pc: Pc, shown: Option<nat>, h: seq<Object>, o: Object)
    requires GaugeInv(check, gauges, pc, shown, h)
    ensures GaugeInv(check, gauges, pc, shown, h + [o])
  {
    forall i | 0 <= i < |LABELS| ensures LabelInv(check, gauges, pc, shown, h + [o], i) {
      assert LabelInv(check, gauges, pc, shown, h, i);
    }
  }

  lemma PcMoves(check: Key, gauges: map<Series, nat>, pc: Pc, shown: Option<nat>, h: seq<Object>, pc': Pc)
    requires GaugeInv(check, gauges, pc, shown, h)
    requires (pc.Recording? ==> pc.labels == 0) && (pc'.Recording? ==> pc'.labels == 0)
    ensures GaugeInv(check, gauges, pc', shown, h)
  {
    forall i | 0 <= i < |LABELS| ensures LabelInv(check, gauges, pc', shown, h, i) {
      assert LabelInv(check, gauges, pc, shown, h, i);
    }
  }

  lemma ClearedGauges(check: Key, gauges: map<Series, nat>, pc: Pc, h: seq<Object>)
    requires !pc.Recording?
    ensures GaugeInv(check, Cleared(gauges, check), pc, None, h)
    ensures GaugeInv(check, map[], pc, None, h)
  {
  }

  lemma DistinctLabels(i: nat, j: nat)
    requires i < |LABELS| && j < |LABELS| && LABELS[i] == LABELS[j]
    ensures i == j
  {
  }

  lemma LabelSet(check: Key, gauges: map<Series, nat>, dc: Object, n: nat, shown: Option<nat>, h: seq<Object>)
    requires n < |LABELS| && GaugeInv(check, gauges, Recording(dc, n), shown, h)
    ensures GaugeInv(check, gauges[Series(check, LABELS[n]) := Reading(dc.status.summary, LABELS[n])],
                     Recording(dc, n + 1), shown, h)
  {
    var g, pc' := gauges[Series(check, LABELS[n]) := Reading(dc.status.summary, LABELS[n])], Recording(dc, n + 1);
    forall i | 0 <= i < |LABELS| ensures LabelInv(check, g, pc', shown, h, i) {
      assert LabelInv(check, gauges, Recording(dc, n), shown, h, i);
      if LABELS[i] == LABELS[n] { DistinctLabels(i, n); }
    }
  }

  /** Once all four labels are set, the gauges show the recorded version. */
  lemma RecordingDone(check: Key, gauges: map<Series, nat>, dc: Object, shown: Option<nat>, h: seq<Object>)
    requires GaugeInv(check, gauges, Recording(dc, |LABELS|), shown, h)
    requires dc.version < |h| && h[dc.version] == dc
    ensures GaugeInv(check, gauges, Deciding(dc), Some(dc.version), h)
  {
    forall i | 0 <= i < |LABELS| ensures LabelInv(check, gauges, Deciding(dc), Some(dc.version), h, i) {
      assert LabelInv(check, gauges, Recording(dc, |LABELS|), shown, h, i);
    }
  }

  /** A new version with its predecessor's summary changes nothing. */
  lemma SteadyGrows(pc: Pc, shown: Option<nat>, unrecorded: Option<nat>, h: seq<Object>, o: Object)
    requires AnchorInv(pc, shown, unrecorded, h) && h != []
    requires o.status.summary == h[|h| - 1].status.summary
    ensures AnchorInv(pc, shown, unrecorded, h + [o])
  {
  }

  /** A new version that counts as unrecorded is the anchor from then on. */
  lemma Unrecorded(pc: Pc, pc': Pc, shown: Option<nat>, unrecorded: Option<nat>, h: seq<Object>, o: Object)
    requires AnchorInv(pc, shown, unrecorded, h) && (shown.Some? ==> shown.value < |h|)
    requires !pc'.Recording? || pc' == pc
    requires pc.Recording? ==> pc.dc.version < |h|
    ensures AnchorInv(pc', shown, Some(|h|), h + [o])
  {
  }

  /** A new version about to be recorded is the anchor too. */
  lemma AboutToRecord(pc: Pc, dc: Object, shown: Option<nat>, unrecorded: Option<nat>, h: seq<Object>)
    requires AnchorInv(pc, shown, unrecorded, h) && dc.version == |h| && (shown.Some? ==> shown.value < |h|)
    ensures AnchorInv(Recording(dc, 0), shown, unrecorded, h + [dc])
  {
  }

  /** A step that may remove or overwrite the check's series. */
  predicate MovesGauges(a: Step) {
    (a.Get? && a.version.None?) || (a.Fail? && a.verdict.PermanentFailure?) || a.SetGauge? || a.Restart?
  }

  // ---- steps

  lemma EnvironmentKeepsShowing(cfg: Config, s: State, a: Step)
    requires Core(cfg, s) && Showing(cfg, s) && IsEnvironment(a)
    ensures Showing(cfg, Next(cfg, s, a))
  {
    hide ServerInv, LogInv, HashInv, OpenInv, GaugeInv, AnchorInv, Settled;
    var sv, sv' := s.server, Environment(s.server, a);
    if |sv'.history| > |sv.history| {
      var o := sv'.history[|sv.history|];
      assert sv'.history == sv.history + [o];
      HistoryGrows(cfg.check, s.gauges, s.pc, s.shown, sv.history, o);
      ShownExists(cfg.check, s.gauges, s.pc, s.shown, sv.history);
      if a.Create? {
        if s.pc.Recording? { SettledVersion(sv, s.log, s.pc.dc); }
        Unrecorded(s.pc, s.pc, s.shown, s.unrecorded, sv.history, o);
      } else {
        LiveLast(sv);
        SteadyGrows(s.pc, s.shown, s.unrecorded, sv.history, o);
      }
    }
  }

  lemma LiveLast(sv: Server)
    requires ServerInv(sv) && sv.current.Some?
    ensures sv.history != [] && sv.history[|sv.history| - 1] == Live(sv) && Live(sv).version == |sv.history| - 1
  {
  }

  lemma ShownExists(check: Key, gauges: map<Series, nat>, pc: Pc, shown: Option<nat>, h: seq<Object>)
    requires GaugeInv(check, gauges, pc, shown, h)
    ensures shown.Some? ==> shown.value < |h|
  {
    hide LabelInv;
  }

  lemma PutKeepsShowing(cfg: Config, s: State, a: Step)
    requires Core(cfg, s) && Showing(cfg, s) && a.Put?
    ensures Showing(cfg, Next(cfg, s, a))
  {
    hide ServerInv, LogInv, HashInv, OpenInv, GaugeInv, AnchorInv, Settled, SetLast;
    if s.pc.Judged? || s.pc.Stamping? {
      var t, sv, dc := Next(cfg, s, a), s.server, s.pc.dc;
      PcMoves(cfg.check, s.gauges, s.pc, s.shown, sv.history, t.pc);
      AtRest(s.pc, t.pc, s.shown, s.unrecorded, sv.history);
      if !a.reply.Rejected? && Accepts(sv, dc) {
        AcceptedIsRead(sv, dc);
        LiveLast(sv);
        var o := t.server.history[|sv.history|];
        assert t.server.history == sv.history + [o];
        HistoryGrows(cfg.check, s.gauges, t.pc, s.shown, sv.history, o);
        ShownExists(cfg.check, s.gauges, s.pc, s.shown, sv.history);
        if s.pc.Judged? && s.pc.verdict.Evaluated? {
          if a.reply.Accepted? {
            AboutToRecord(s.pc, o, s.shown, s.unrecorded, sv.history);
          } else {
            Unrecorded(s.pc, t.pc, s.shown, s.unrecorded, sv.history, o);
          }
        } else {
          assert o.status.summary == Live(sv).status.summary;
          SteadyGrows(t.pc, s.shown, s.unrecorded, sv.history, o);
        }
      }
    }
  }

  /** Outside recordings the place in the reconcile plays no part. */
  lemma AtRest(pc: Pc, pc': Pc, shown: Option<nat>, unrecorded: Option<nat>, h: seq<Object>)
    requires AnchorInv(pc, shown, unrecorded, h) && !pc.Recording?
    ensures !pc'.Recording? ==> AnchorInv(pc', shown, unrecorded, h)
  {
  }

  /** The recording is complete: what is shown now is what was to be recorded. */
  lemma NowShown(dc: Object, n: nat, shown: Option<nat>, unrecorded: Option<nat>, h: seq<Object>)
    requires AnchorInv(Recording(dc, n), shown, unrecorded, h)
    ensures AnchorInv(Deciding(dc), Some(dc.version), Later(unrecorded, dc.version), h)
  {
  }

  lemma OneLabelMore(dc: Object, n: nat, shown: Option<nat>, unrecorded: Option<nat>, h: seq<Object>)
    requires AnchorInv(Recording(dc, n), shown, unrecorded, h)
    ensures AnchorInv(Recording(dc, n + 1), shown, unrecorded, h)
  {
  }

  lemma SetGaugeKeepsShowing(cfg: Config, s: State, a: Step)
    requires Core(cfg, s) && Showing(cfg, s) && a.SetGauge?
    ensures Showing(cfg, Next(cfg, s, a))
  {
    hide ServerInv, LogInv, HashInv, OpenInv, GaugeInv, AnchorInv, Settled, Later;
    if s.pc.Recording? {
      var dc, n := s.pc.dc, s.pc.labels;
      LabelSet(cfg.check, s.gauges, dc, n, s.shown, s.server.history);
      if n + 1 == |LABELS| {
        SettledVersion(s.server, s.log, dc);
        RecordingDone(cfg.check, s.gauges[Series(cfg.check, LABELS[n]) := Reading(dc.status.summary, LABELS[n])],
                      dc, s.shown, s.server.history);
        NowShown(dc, n, s.shown, s.unrecorded, s.server.history);
      } else {
        OneLabelMore(dc, n, s.shown, s.unrecorded, s.server.history);
      }
    }
  }

  /** A reconcile aborted before its recording leaves the version it stored unrecorded. */
  lemma NotRecorded(dc: Object, shown: Option<nat>, unrecorded: Option<nat>, h: seq<Object>)
    requires AnchorInv(Recording(dc, 0), shown, unrecorded, h) && dc.version < |h|
    ensures AnchorInv(Idle, shown, if Later(unrecorded, dc.version).None? then Some(dc.version) else unrecorded, h)
  {
  }

  lemma AbortKeepsShowing(cfg: Config, s: State)
    requires Core(cfg, s) && Showing(cfg, s)
    ensures Showing(cfg, OnAbort(s))
  {
    hide ServerInv, LogInv, HashInv, OpenInv, GaugeInv, AnchorInv, Settled, Later, SetLast;
    if !(s.pc.Recording? && s.pc.labels > 0) {
      PcMoves(cfg.check, s.gauges, s.pc, s.shown, s.server.history, Idle);
      if s.pc.Recording? {
        SettledVersion(s.server, s.log, s.pc.dc);
        NotRecorded(s.pc.dc, s.shown, s.unrecorded, s.server.history);
      } else {
        AtRest(s.pc, Idle, s.shown, s.unrecorded, s.server.history);
      }
    }
  }

  lemma NextKeepsShowing(cfg: Config, s: State, a: Step)
    requires Core(cfg, s) && Showing(cfg, s)
    ensures Showing(cfg, Next(cfg, s, a))
  {
    hide Core, Showing, OnAbort;
    match a
    case Put(_) => PutKeepsShowing(cfg, s, a);
    case SetGauge => SetGaugeKeepsShowing(cfg, s, a);
    case Abort => AbortKeepsShowing(cfg, s);
    case _ =>
      if IsEnvironment(a) {
        EnvironmentKeepsShowing(cfg, s, a);
      } else {
        OtherKeepsShowing(cfg, s, a);
      }
  }

  lemma OtherKeepsShowing(cfg: Config, s: State, a: Step)
    requires Showing(cfg, s) && !IsEnvironment(a) && !a.Put? && !a.SetGauge? && !a.Abort?
    ensures Showing(cfg, Next(cfg, s, a))
  {
    hide GaugeInv, AnchorInv, Cleared;
    var t := Next(cfg, s, a);
    if MovesGauges(a) && t != s {
      ClearedGauges(cfg.check, s.gauges, t.pc, s.server.history);
      NothingShown(t.pc, t.server.history);
    } else if t.pc != s.pc {
      PcMoves(cfg.check, s.gauges, s.pc, s.shown, s.server.history, t.pc);
      AtRest(s.pc, t.pc, s.shown, s.unrecorded, s.server.history);
    }
  }

  lemma NothingShown(pc: Pc, h: seq<Object>)
    requires !pc.Recording?
    ensures AnchorInv(pc, None, None, h)
  {
  }

  lemma {:induction false} RunKeepsShowing(cfg: Config, gauges: map<Series, nat>, run: seq<Step>)
    requires Absent(gauges, cfg.check)
    ensures Showing(cfg, After(cfg, Init(gauges), run))
  {
    hide Core, Next;
    if run != [] {
      hide Showing;
      RunKeepsShowing(cfg, gauges, run[..|run| - 1]);
      RunKeepsCore(cfg, gauges, run[..|run| - 1]);
      NextKeepsShowing(cfg, After(cfg, Init(gauges), run[..|run| - 1]), run[|run| - 1]);
    }
  }

  // ---- what follows

  /** Unless a recording is in progress, the check has no series at all, or exactly the four labels
      showing the summary of the version they were recorded from. They show the live summary exactly
      when there are any, and no unrecorded version since then has another summary. */
  lemma GaugesAgree(cfg: Config, gauges: map<Series, nat>, run: seq<Step>)
    requires Absent(gauges, cfg.check)
    requires !After(cfg, Init(gauges), run).pc.Recording?
    ensures var s := After(cfg, Init(gauges), run);
            var h := s.server.history;
            && (s.shown.None? ==> Absent(s.gauges, cfg.check))
            && (s.shown.Some? ==>
                  && s.shown.value < |h| && (s.unrecorded.Some? ==> s.shown.value < s.unrecorded.value < |h|)
                  && Shows(s.gauges, cfg.check, h[s.shown.value].status.summary)
                  && (forall k | k in s.gauges && k.check == cfg.check :: k.status in {Changed, New, Deleted, Unchanged}))
            && (s.server.current.Some? ==>
                  (Shows(s.gauges, cfg.check, Live(s.server).status.summary) <==>
                     && s.shown.Some?
                     && (s.unrecorded.Some? ==> h[s.unrecorded.value].status.summary == h[s.shown.value].status.summary)))
  {
    hide After, Core, Showing, Shows, Absent;
    RunKeepsShowing(cfg, gauges, run);
    RunKeepsCore(cfg, gauges, run);
    AgreeingState(cfg, After(cfg, Init(gauges), run));
  }

  lemma AgreeingState(cfg: Config, s: State)
    requires Core(cfg, s) && Showing(cfg, s) && !s.pc.Recording?
    ensures var h := s.server.history;
            && (s.shown.None? ==> Absent(s.gauges, cfg.check))
            && (s.shown.Some? ==>
                  && s.shown.value < |h| && (s.unrecorded.Some? ==> s.shown.value < s.unrecorded.value < |h|)
                  && Shows(s.gauges, cfg.check, h[s.shown.value].status.summary)
                  && (forall k | k in s.gauges && k.check == cfg.check :: k.status in {Changed, New, Deleted, Unchanged}))
            && (s.server.current.Some? ==>
                  (Shows(s.gauges, cfg.check, Live(s.server).status.summary) <==>
                     && s.shown.Some?
                     && (s.unrecorded.Some? ==> h[s.unrecorded.value].status.summary == h[s.shown.value].status.summary)))
  {
    hide ServerInv, LogInv, HashInv, OpenInv, PcInv, GaugeInv, Shows, Absent;
    ShownGauges(cfg.check, s.gauges, s.pc, s.shown, s.server.history);
    if s.server.current.Some? {
      LiveLast(s.server);
      if s.shown.None? {
        AbsentShowsNothing(s.gauges, cfg.check, Live(s.server).status.summary);
      } else {
        ShowsOne(s.gauges, cfg.check, s.server.history[s.shown.value].status.summary, Live(s.server).status.summary);
      }
    }
  }

  /** What becomes of a status write's gauges: they are set, or the reconcile is aborted first. */
  function Settling(recorded: bool): seq<Step> {
    if recorded then [SetGauge, SetGauge, SetGauge, SetGauge] else [Abort]
  }

  /** The step at which agreement is kept or lost: from gauges that show the live summary, an evaluated
      status write leaves them showing it exactly when it is not stored, or is acknowledged and
      recorded, or carries the same summary. */
  lemma PutAgreesExactly(cfg: Config, s: State, reply: Reply, recorded: bool)
    requires s.pc.Judged? && s.pc.verdict.Evaluated? && s.server.current.Some?
    requires Shows(s.gauges, cfg.check, Live(s.server).status.summary)
    ensures var t := After(cfg, Next(cfg, s, Put(reply)), Settling(recorded));
            var stored := !reply.Rejected? && Accepts(s.server, s.pc.dc);
            && t.server.current.Some?
            && (Shows(t.gauges, cfg.check, Live(t.server).status.summary) <==>
                  !stored || (reply.Accepted? && recorded) || s.pc.dc.status.summary == Live(s.server).status.summary)
  {
    hide After, Shows, Later, Metrics.Recorded;
    var u := Next(cfg, s, Put(reply));
    SettlingEffect(cfg, u, recorded);
    if !reply.Rejected? && Accepts(s.server, s.pc.dc) {
      assert Live(u.server).status == s.pc.dc.status && u.gauges == s.gauges;
      RecordedShows(s.gauges, cfg.check, s.pc.dc.status.summary);
      ShowsOne(s.gauges, cfg.check, Live(s.server).status.summary, s.pc.dc.status.summary);
    } else {
      assert u.server == s.server && u.gauges == s.gauges && u.pc.Idle?;
    }
  }

  lemma SettlingEffect(cfg: Config, s: State, recorded: bool)
    requires s.pc.Idle? || (s.pc.Recording? && s.pc.labels == 0)
    ensures var t := After(cfg, s, Settling(recorded));
            && t.server == s.server
            && t.gauges == if s.pc.Recording? && recorded then Metrics.Recorded(s.gauges, cfg.check, s.pc.dc.status.summary, 4)
                           else s.gauges
  {
    if recorded {
      hide After, Metrics.Recorded, Reading, Later;
      AfterFour(cfg, s, SetGauge, SetGauge, SetGauge, SetGauge);
      if s.pc.Recording? { FourGauges(cfg, s, s.pc.dc); }
    } else {
      assert [Abort][..0] == [];
    }
  }

  lemma FourGauges(cfg: Config, s: State, dc: Object)
    requires s.pc == Recording(dc, 0)
    ensures var t := Next(cfg, Next(cfg, Next(cfg, Next(cfg, s, SetGauge), SetGauge), SetGauge), SetGauge);
            t == State(s.server, Metrics.Recorded(s.gauges, cfg.check, dc.status.summary, 4), Deciding(dc), s.log,
                       Some(dc.version), Later(s.unrecorded, dc.version))
  {
    hide Reading, Later;
    var g, c, m := s.gauges, cfg.check, dc.status.summary;
    assert Metrics.Recorded(g, c, m, 0) == g;
    assert Metrics.Recorded(g, c, m, 1) == g[Series(c, LABELS[0]) := Reading(m, LABELS[0])];
    var s1 := Next(cfg, s, SetGauge);
    assert s1 == State(s.server, Metrics.Recorded(g, c, m, 1), Recording(dc, 1), s.log, s.shown, s.unrecorded);
    var s2 := Next(cfg, s1, SetGauge);
    assert s2 == State(s.server, Metrics.Recorded(g, c, m, 2), Recording(dc, 2), s.log, s.shown, s.unrecorded);
    var s3 := Next(cfg, s2, SetGauge);
    assert s3 == State(s.server, Metrics.Recorded(g, c, m, 3), Recording(dc, 3), s.log, s.shown, s.unrecorded);
  }

  lemma AbsentShowsNothing(gauges: map<Series, nat>, check: Key, m: Summary)
    requires Absent(gauges, check)
    ensures !Shows(gauges, check, m)
  {
    assert Changed in LABELS;
  }

  /** Gauges show one summary at most. */
  lemma ShowsOne(gauges: map<Series, nat>, check: Key, m: Summary, n: Summary)
    requires Shows(gauges, check, m)
    ensures Shows(gauges, check, n) <==> m == n
  {
    assert Changed in LABELS && New in LABELS && Deleted in LABELS && Unchanged in LABELS;
  }

  lemma ShownGauges(check: Key, gauges: map<Series, nat>, pc: Pc, shown: Option<nat>, h: seq<Object>)
    requires GaugeInv(check, gauges, pc, shown, h) && !pc.Recording?
    ensures shown.None? ==> Absent(gauges, check)
    ensures shown.Some? ==> shown.value < |h| && Shows(gauges, check, h[shown.value].status.summary)
    ensures forall k | k in gauges && k.check == check :: k.status in LABELS
  {
    forall l | l in LABELS
      ensures shown.None? ==> Series(check, l) !in gauges
      ensures shown.Some? ==> Series(check, l) in gauges
                              && gauges[Series(check, l)] == Reading(h[shown.value].status.summary, l)
    {
      var i :| 0 <= i < |LABELS| && LABELS[i] == l;
      assert LabelInv(check, gauges, pc, shown, h, i);
    }
  }

  /** Once a permanent failure or an observed deletion has cleared the gauges, the check has no series
      until a later recording sets one, whatever else happens. */
  lemma {:induction false} ClearedUntilRecorded(cfg: Config, s: State, a: Step, more: seq<Step>)
    requires (s.pc.Idle? && a == Get(None)) || (s.pc.Loaded? && a.Fail? && a.verdict.PermanentFailure?)
    requires forall b | b in more :: !b.SetGauge?
    ensures Absent(After(cfg, Next(cfg, s, a), more).gauges, cfg.check)
    ensures Next(cfg, s, a).server == s.server
    ensures forall k | k in s.gauges && k.check != cfg.check ::
              k in Next(cfg, s, a).gauges && Next(cfg, s, a).gauges[k] == s.gauges[k]
  {
    if more != [] {
      var n := |more| - 1;
      ClearedUntilRecorded(cfg, s, a, more[..n]);
      assert more[n] in more;
      StaysAbsent(cfg, After(cfg, Next(cfg, s, a), more[..n]), more[n]);
    }
  }

  lemma StaysAbsent(cfg: Config, s: State, a: Step)
    requires Absent(s.gauges, cfg.check) && !a.SetGauge?
    ensures Absent(Next(cfg, s, a).gauges, cfg.check)
  {
  }

  /** Failures that heal by themselves, status writes and notifications leave the gauges alone. */
  lemma {:induction false} GaugesKept(cfg: Config, s: State, run: seq<Step>)
    requires forall a | a in run :: !MovesGauges(a)
    ensures After(cfg, s, run).gauges == s.gauges
  {
    if run != [] {
      GaugesKept(cfg, s, run[..|run| - 1]);
      assert !MovesGauges(run[|run| - 1]);
    }
  }

  /** Reconciling one check never touches a series of another; only a restart does. */
  lemma {:induction false} OtherChecksUntouched(cfg: Config, s: State, run: seq<Step>, k: Series)
    requires k.check != cfg.check && forall a | a in run :: !a.Restart?
    ensures k in After(cfg, s, run).gauges <==> k in s.gauges
    ensures k in s.gauges ==> After(cfg, s, run).gauges[k] == s.gauges[k]
  {
    if run != [] {
      OtherChecksUntouched(cfg, s, run[..|run| - 1], k);
      assert !run[|run| - 1].Restart?;
      OtherCheckUntouched(cfg, After(cfg, s, run[..|run| - 1]), run[|run| - 1], k);
    }
  }

  lemma OtherCheckUntouched(cfg: Config, s: State, a: Step, k: Series)
    requires k.check != cfg.check && !a.Restart?
    ensures k in Next(cfg, s, a).gauges <==> k in s.gauges
    ensures k in s.gauges ==> Next(cfg, s, a).gauges[k] == s.gauges[k]
  {
  }
}
