/** Properties of whole runs of the restore controller, whatever requests fail, get lost
    or crash the operator, and of passes that meet no fault. */
module RestoreRuns {
  import opened Types
  import opened Selection
  import opened RestoreProtocol

  // ---- Safety over every run ----

  /** Write-ahead intent: while the targets stay fixed, every Job the restore has created
      is named in its persisted entries, even if reads are out of date. */
  lemma WriteAheadIntent(log: seq<World>, i: nat)
    requires Run(log) && i < |log| && !log[i].retargeted && log[i].restore.Some?
    ensures log[i].created <= Listed(log[i].restore.value.status.entries)
    ensures log[i].created != {} ==> Planned(log[i], log[i].restore.value.status.entries)
  {
    RunInv(log, i);
  }

  lemma NothingCreated(w: World)
    requires Inv(w) && w.restore.Some? && !w.restore.value.finalizer
    ensures w.created == {}
  {
  }

  lemma EnvGone(w: World, a: EnvAction)
    requires w.restore.Some? && Env(w, a).restore.None?
    ensures !w.restore.value.finalizer && Env(w, a).created == w.created
  {
    hide RestoreTargets;
  }

  lemma DropGone(w: World, r: Request)
    requires Promised(w, r) && w.restore.Some? && Do(w, r).restore.None?
    ensures r == Drop && Do(w, r) == w.(restore := None)
  {
    hide RestoreTargets, PromisedStatus;
  }

  /** When the restore object goes away, no Job it created is left. */
  lemma GoneMeansClean(log: seq<World>, i: nat)
    requires Run(log) && i + 1 < |log|
    requires log[i].restore.Some? && log[i + 1].restore.None? && !log[i + 1].retargeted
    ensures log[i + 1].created !! log[i + 1].jobs.Keys
  {
    var w, w' := log[i], log[i + 1];
    RunInv(log, i);
    assert Next(w, w');
    hide Run, Inv, Promised, Env, Do;
    if EnvStep(w, w') {
      var a :| w' == Env(w, a);
      EnvGone(w, a);
      NothingCreated(w);
    } else {
      var r :| Promised(w, r) && w' == Do(w, r);
      DropGone(w, r);
      DroppedClean(w);
    }
  }

  /** With current reads of the restore object none is created later either. */
  lemma StaysClean(log: seq<World>, i: nat)
    requires Run(log) && i < |log|
    requires log[i].restore.None? && !log[i].stale && !log[i].retargeted
    ensures log[i].created !! log[i].jobs.Keys
  {
    RunInv(log, i);
  }

  /** A persisted Completed entry never reverts, and while the restore object is read as it
      is no step creates its Job again, however old the Jobs that are read. */
  lemma CompletedEntryIsFinal(log: seq<World>, i: nat, j: nat, k: nat)
    requires Run(log) && i <= j < |log| && log[i].restore.Some?
    requires k < |log[i].restore.value.status.entries|
    requires log[i].restore.value.status.entries[k].phase == Completed
    ensures !log[j].retargeted && log[j].restore.Some? ==>
              && k < |log[j].restore.value.status.entries|
              && log[j].restore.value.status.entries[k] == log[i].restore.value.status.entries[k]
    ensures var job := log[i].restore.value.status.entries[k].job;
            Steady(log[j]) && job in log[j].jobs ==>
              && job in log[i].jobs
              && (log[i].jobs[job].completed || !log[j].misled ==> log[j].jobs[job].completed)
  {
    RunInv(log, i);
    RunInv(log, j);
    RunLater(log, i, j);
  }

  lemma NextDone(w: World, w': World, job: string)
    requires Next(w, w') && job in w'.everDone
    ensures job in w.everDone || (job in w'.jobs && w'.jobs[job].completed)
  {
    hide RestoreTargets, Promised;
  }

  lemma {:induction false} DoneOnce(log: seq<World>, j: nat, job: string)
    requires Run(log) && j < |log| && job in log[j].everDone
    ensures exists i | 0 <= i <= j :: job in log[i].jobs && log[i].jobs[job].completed
  {
    hide Inv, Next;
    if job in log[j].jobs && log[j].jobs[job].completed {
    } else {
      var w, w' := log[j - 1], log[j];
      assert Next(w, w');
      NextDone(w, w', job);
      DoneOnce(log, j - 1, job);
    }
  }

  /** Completed is sound: all entries are Completed, and each one's Job had a completion time. */
  lemma CompletedIsSound(log: seq<World>, j: nat)
    requires Run(log) && j < |log| && log[j].restore.Some?
    requires log[j].restore.value.status.phase == Completed
    ensures AllCompleted(log[j].restore.value.status.entries)
    ensures !log[j].retargeted ==>
              && Planned(log[j], log[j].restore.value.status.entries)
              && forall e | e in log[j].restore.value.status.entries ::
                   exists i | 0 <= i <= j :: e.job in log[i].jobs && log[i].jobs[e.job].completed
  {
    RunInv(log, j);
    if !log[j].retargeted {
      forall e | e in log[j].restore.value.status.entries
        ensures exists i | 0 <= i <= j :: e.job in log[i].jobs && log[i].jobs[e.job].completed
      {
        DoneOnce(log, j, e.job);
      }
    }
  }

  /** Completed is absorbing, whatever happens to the targets and the cache; with
      current reads of the restore object no Job is created afterwards. */
  lemma CompletedIsAbsorbing(log: seq<World>, i: nat, j: nat)
    requires Run(log) && i <= j < |log| && log[i].restore.Some?
    requires log[i].restore.value.status.phase == Completed
    ensures log[j].restore.Some? ==> log[j].restore.value.status == log[i].restore.value.status
    ensures !log[j].stale ==> log[j].jobs.Keys <= log[i].jobs.Keys
  {
    RunLater(log, i, j);
    assert forall job | job in log[j].jobs && !log[j].stale :: OlderJob(log[i], log[j], job);
  }

  // ---- A measure of the work left ----

  predicate FinishedTarget(w: World, o: Restore, target: string) {
    exists e | e in o.status.entries :: e.job == JobName(w.name, target) && e.phase == Completed
  }

  function Unfinished(w: World, o: Restore): set<string> {
    set t | t in w.plan && !FinishedTarget(w, o, t)
  }

  function Jobless(w: World, o: Restore): set<string> {
    set t | t in Unfinished(w, o) && JobName(w.name, t) !in w.jobs
  }

  /** Finalizer missing, statuses not initialised, Jobs missing, instances not Completed. */
  function Measure(w: World, o: Restore): nat {
    (if o.finalizer then 0 else 1) + (if Planned(w, o.status.entries) then 0 else 1)
    + |Jobless(w, o)| + |Unfinished(w, o)|
  }

  lemma {:induction false} JobsKept(log: seq<World>, i: nat, j: nat)
    requires i <= j < |log| && forall k | i <= k < j :: log[k].jobs.Keys <= log[k + 1].jobs.Keys
    ensures log[i].jobs.Keys <= log[j].jobs.Keys
  {
    if i < j { JobsKept(log, i, j - 1); }
  }

  lemma SubsetSize<T>(a: set<T>, b: set<T>)
    requires a <= b
    ensures |a| <= |b|
  {
    assert b == a + (b - a);
  }

  /** Faults never raise the measure, if no Job is deleted and the targets stay fixed. */
  lemma MeasureNeverRises(log: seq<World>, i: nat, j: nat)
    requires Run(log) && i <= j < |log| && !log[j].retargeted
    requires log[i].restore.Some? && log[j].restore.Some?
    requires forall k | i <= k < j :: log[k].jobs.Keys <= log[k + 1].jobs.Keys
    ensures Measure(log[j], log[j].restore.value) <= Measure(log[i], log[i].restore.value)
  {
    hide JobName;
    var a, b := log[i], log[j];
    var o, p := a.restore.value, b.restore.value;
    RunLater(log, i, j);
    RunInv(log, i);
    JobsKept(log, i, j);
    forall t | t in b.plan && FinishedTarget(a, o, t) ensures FinishedTarget(b, p, t) {
      var e :| e in o.status.entries && e.job == JobName(a.name, t) && e.phase == Completed;
      var k :| 0 <= k < |o.status.entries| && o.status.entries[k] == e;
      assert p.status.entries[k] in p.status.entries;
    }
    SubsetSize(Unfinished(b, p), Unfinished(a, o));
    SubsetSize(Jobless(b, p), Jobless(a, o));
  }

  /** No work is left exactly when the finalizer is set and every target's entry is Completed. */
  lemma NoWorkLeft(w: World, o: Restore)
    requires Inv(w) && w.restore == Some(o) && !w.retargeted && Distinct(w.plan)
    ensures Measure(w, o) == 0 <==> o.finalizer && Planned(w, o.status.entries) && AllCompleted(o.status.entries)
  {
    hide JobName;
    var entries := o.status.entries;
    if Planned(w, entries) {
      forall k | 0 <= k < |entries| ensures entries[k].phase == Completed <==> w.plan[k] !in Unfinished(w, o) {
        if FinishedTarget(w, o, w.plan[k]) {
          var e :| e in entries && e.job == JobName(w.name, w.plan[k]) && e.phase == Completed;
          var m :| 0 <= m < |entries| && entries[m] == e;
          JobNameInjective(w.name, w.plan[m], w.plan[k]);
        }
        assert entries[k] in entries && w.plan[k] in w.plan;
      }
      if AllCompleted(entries) {
        assert forall k | 0 <= k < |entries| :: entries[k] in entries;
        assert Unfinished(w, o) == {};
      }
    }
  }
}
