/** The drift gauges: one series per DriftCheck and status label, in a process-wide registry. */
module Metrics {
  import opened Drift

  datatype Key = Key(name: string, namespace: string)
  datatype Series = Series(check: Key, status: Status)

  /** The label values, in the order in which they are set. */
  const LABELS := [Changed, New, Deleted, Unchanged]

  function Reading(s: Summary, status: Status): nat {
    match status
    case Changed => s.changed
    case New => s.added
    case Deleted => s.deleted
    case _ => s.inSync
  }

  /** The registry after the first n labels of a check have been set. */
  function Recorded(series: map<Series, nat>, check: Key, s: Summary, n: nat): map<Series, nat>
    requires n <= |LABELS|
  {
    if n == 0 then series
    else Recorded(series, check, s, n - 1)[Series(check, LABELS[n - 1]) := Reading(s, LABELS[n - 1])]
  }

  function Cleared(series: map<Series, nat>, check: Key): map<Series, nat> {
    map k | k in series && k.check != check :: series[k]
  }

  /** The four series of a check, all set from one summary, each label from its own counter. */
  predicate Shows(series: map<Series, nat>, check: Key, s: Summary) {
    && Series(check, Changed) in series && series[Series(check, Changed)] == s.changed
    && Series(check, New) in series && series[Series(check, New)] == s.added
    && Series(check, Deleted) in series && series[Series(check, Deleted)] == s.deleted
    && Series(check, Unchanged) in series && series[Series(check, Unchanged)] == s.inSync
  }

  /** And read label by label. */
  lemma ShowsReadings(series: map<Series, nat>, check: Key, s: Summary)
    ensures Shows(series, check, s) <==>
              forall l | l in LABELS :: Series(check, l) in series && series[Series(check, l)] == Reading(s, l)
  {
    assert Changed in LABELS && New in LABELS && Deleted in LABELS && Unchanged in LABELS;
  }

  predicate Absent(series: map<Series, nat>, check: Key) {
    forall k | k in series :: k.check != check
  }

  /** The global registry. A nil recorder (wired == false) leaves it alone. */
  class Registry {
    var series: map<Series, nat>

    constructor ()
      ensures series == map[]
    {
      series := map[];
    }

    method RecordDrift(wired: bool, check: Key, changed: nat, added: nat, deleted: nat, inSync: nat)
      modifies this
      ensures series == if wired then Recorded(old(series), check, Summary(changed, added, deleted, inSync), 4)
                        else old(series)
      ensures wired ==>
                && Series(check, Changed) in series && series[Series(check, Changed)] == changed
                && Series(check, New) in series && series[Series(check, New)] == added
                && Series(check, Deleted) in series && series[Series(check, Deleted)] == deleted
                && Series(check, Unchanged) in series && series[Series(check, Unchanged)] == inSync
      ensures forall k | k !in {Series(check, Changed), Series(check, New), Series(check, Deleted), Series(check, Unchanged)} ::
                (k in series <==> k in old(series)) && (k in series ==> series[k] == old(series)[k])
    {
      if !wired { return; }
      series := series[Series(check, Changed) := changed];
      series := series[Series(check, New) := added];
      series := series[Series(check, Deleted) := deleted];
      series := series[Series(check, Unchanged) := inSync];
      ghost var s := Summary(changed, added, deleted, inSync);
      assert Recorded(old(series), check, s, 1) == old(series)[Series(check, Changed) := changed];
      assert Recorded(old(series), check, s, 2) == Recorded(old(series), check, s, 1)[Series(check, New) := added];
      assert Recorded(old(series), check, s, 3) == Recorded(old(series), check, s, 2)[Series(check, Deleted) := deleted];
    }

    /** DeletePartialMatch on the check's name and namespace. */
    method Delete(wired: bool, check: Key)
      modifies this
      ensures series == if wired then Cleared(old(series), check) else old(series)
      ensures wired ==> forall k :: k in series <==> k in old(series) && k.check != check
      ensures forall k | k in series :: k in old(series) && series[k] == old(series)[k]
    {
      if !wired { return; }
      series := map k | k in series && k.check != check :: series[k];
    }
  }

  /** A completed recording shows exactly the summary, and no other check's series moves. */
  lemma RecordedShows(series: map<Series, nat>, check: Key, s: Summary)
    ensures Shows(Recorded(series, check, s, 4), check, s)
    ensures Absent(Cleared(Recorded(series, check, s, 4), check), check)
    ensures Cleared(Recorded(series, check, s, 4), check) == Cleared(series, check)
  {
    RecordedFrame(series, check, s, 4);
    assert Recorded(series, check, s, 1) == series[Series(check, Changed) := s.changed];
    assert Recorded(series, check, s, 2) == Recorded(series, check, s, 1)[Series(check, New) := s.added];
    assert Recorded(series, check, s, 3) == Recorded(series, check, s, 2)[Series(check, Deleted) := s.deleted];
    assert Recorded(series, check, s, 4) == Recorded(series, check, s, 3)[Series(check, Unchanged) := s.inSync];
  }

  lemma {:induction false} RecordedFrame(series: map<Series, nat>, check: Key, s: Summary, n: nat)
    requires n <= |LABELS|
    ensures forall k: Series | k.check != check ::
              (k in Recorded(series, check, s, n) <==> k in series)
              && (k in series ==> Recorded(series, check, s, n)[k] == series[k])
  {
    if n > 0 { RecordedFrame(series, check, s, n - 1); }
  }
}
