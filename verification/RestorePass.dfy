/** One pass of the restore controller that meets no fault and no interference, as a
    function of the world, and what a few such passes achieve. */
module RestorePass {
  import opened Types
  import opened Selection
  import opened RestoreProtocol
  import Command = RestoreCommand

  /** The phase a Job's status gives an entry that had phase `p`. */
  function Observe(p: Phase, job: Job): Phase {
    if job.completed then Completed
    else if job.failed > 0 then Failed
    else if job.active > 0 then Running
    else p
  }

  predicate SomePhase(entries: seq<Entry>, p: Phase) { exists e | e in entries :: e.phase == p }

  /** The overall phase of a restore. */
  function Overall(entries: seq<Entry>): Phase {
    if SomePhase(entries, Failed) then Failed
    else if AllCompleted(entries) then Completed
    else if SomePhase(entries, Running) then Running
    else Pending
  }

  function Fresh(restore: string, names: seq<string>): (entries: seq<Entry>)
    ensures |entries| == |names|
    ensures forall i | 0 <= i < |names| :: entries[i] == Entry(names[i], Pending, JobName(restore, names[i]))
  {
    seq(|names|, i requires 0 <= i < |names| => Entry(names[i], Pending, JobName(restore, names[i])))
  }

  /** How the loop over the targets ends: the world, the entries in memory, and whether no error stopped it. */
  datatype Loop = Loop(world: World, entries: seq<Entry>, ok: bool)

  function Process(w: World, names: seq<string>, entries: seq<Entry>, i: nat): (r: Loop)
    requires i <= |entries| == |names|
    ensures |r.entries| == |entries|
    decreases |names| - i
  {
    if i == |names| then Loop(w, entries, true)
    else
      var e := entries[i];
      if e.phase == Completed then Process(w, names, entries, i + 1)
      else if e.job in w.jobs then
        Process(w, names, entries[i := e.(phase := Observe(e.phase, w.jobs[e.job]))], i + 1)
      else
        var job := JobName(w.name, names[i]);
        if !Buildable(w.backup) || job in w.jobs then Loop(w, entries, false)
        else Process(Do(w, Create(job)), names, entries[i := e.(phase := Running)], i + 1)
  }

  function Persist(w: World, phase: Phase, entries: seq<Entry>): World
    requires w.restore.Some?
  {
    Do(w, Write(Status(phase, entries)))
  }

  /** The loop, with the status initialised first where its length does not fit. */
  function Started(w: World, o: Restore, names: seq<string>): (World, seq<Entry>)
    requires w.restore == Some(o)
  {
    if |o.status.entries| == |names| then (w, o.status.entries)
    else (Persist(w, o.status.phase, Fresh(w.name, names)), Fresh(w.name, names))
  }

  function Reconciled(w: World, o: Restore, names: seq<string>): World
    requires w.restore == Some(o)
  {
    var (w1, entries) := Started(w, o, names);
    var r := Process(w1, names, entries, 0);
    ProcessKeepsRestore(w1, names, entries, 0);
    Persist(r.world, if r.ok then Overall(r.entries) else Failed, r.entries)
  }

  function NamedJobs(entries: seq<Entry>): set<string> {
    set e | e in entries && e.job != "" :: e.job
  }

  function QuietPass(w: World): World {
    match w.restore
    case None => w
    case Some(o) =>
      if o.deleting then Do(w.(jobs := w.jobs - NamedJobs(o.status.entries)), Drop)
      else if !o.finalizer then Do(w, AddFinalizer)
      else if o.status.phase == Completed then w
      else match SelectedNames(w)
        case Err => Persist(w, Failed, o.status.entries)
        case Ok(names) => Reconciled(w, o, names)
  }

  lemma {:induction false} ProcessKeepsRestore(w: World, names: seq<string>, entries: seq<Entry>, i: nat)
    requires i <= |entries| == |names|
    ensures var w' := Process(w, names, entries, i).world;
            w' == w.(jobs := w'.jobs, created := w'.created)
    decreases |names| - i
  {
    if i < |names| {
      var e := entries[i];
      var job := JobName(w.name, names[i]);
      if e.phase == Completed {
        ProcessKeepsRestore(w, names, entries, i + 1);
      } else if e.job in w.jobs {
        ProcessKeepsRestore(w, names, entries[i := e.(phase := Observe(e.phase, w.jobs[e.job]))], i + 1);
      } else if Buildable(w.backup) && job !in w.jobs {
        ProcessKeepsRestore(Do(w, Create(job)), names, entries[i := e.(phase := Running)], i + 1);
      }
    }
  }

  // ---- The loop in closed form ----

  /** What the loop makes of one entry. */
  function After(w: World, e: Entry): Entry {
    if e.phase == Completed then e
    else if e.job in w.jobs then e.(phase := Observe(e.phase, w.jobs[e.job]))
    else e.(phase := Running)
  }

  /** How the loop ends from index `i` on, told from where it starts. */
  ghost predicate Handled(w: World, entries: seq<Entry>, i: nat, r: Loop) {
    && r.ok && |r.entries| == |entries|
    && (forall k | 0 <= k < |entries| :: r.entries[k] == if k < i then entries[k] else After(w, entries[k]))
    && (forall k | i <= k < |entries| && r.entries[k].phase != Completed :: r.entries[k].job in r.world.jobs)
    && (forall job | job in w.jobs :: job in r.world.jobs && r.world.jobs[job] == w.jobs[job])
    && (forall job | job in r.world.jobs && job !in w.jobs ::
          exists k | i <= k < |entries| :: entries[k].job == job && entries[k].phase != Completed)
  }

  lemma HandledOne(w: World, entries: seq<Entry>, i: nat, r: Loop)
    requires i < |entries| && (entries[i].phase == Completed || entries[i].job in w.jobs)
    requires Handled(w, entries[i := After(w, entries[i])], i + 1, r)
    ensures Handled(w, entries, i, r)
  {
    hide Observe;
  }

  lemma HandledCreate(w: World, entries: seq<Entry>, i: nat, r: Loop)
    requires Planned(w, entries) && Distinct(w.plan) && i < |entries|
    requires entries[i].phase != Completed && entries[i].job !in w.jobs
    requires Handled(Do(w, Create(entries[i].job)), entries[i := After(w, entries[i])], i + 1, r)
    ensures Handled(w, entries, i, r)
  {
    hide Observe, JobName, RestoreTargets;
    var job := entries[i].job;
    var w', entries' := Do(w, Create(job)), entries[i := After(w, entries[i])];
    forall k | i < k < |entries| ensures After(w', entries[k]) == After(w, entries[k]) {
      if entries[k].job == job { JobNameInjective(w.name, w.plan[i], w.plan[k]); }
    }
    forall new_ | new_ in r.world.jobs && new_ !in w.jobs
      ensures exists k | i <= k < |entries| :: entries[k].job == new_ && entries[k].phase != Completed
    {
      if new_ in w'.jobs {
        assert entries[i].job == new_;
      } else {
        var k :| i + 1 <= k < |entries'| && entries'[k].job == new_ && entries'[k].phase != Completed;
        assert entries[k] == entries'[k];
      }
    }
  }

  lemma AfterPlanned(w: World, entries: seq<Entry>, i: nat)
    requires Planned(w, entries) && i < |entries|
    ensures var e, entries' := entries[i], entries[i := After(w, entries[i])];
            && Planned(w, entries') && Planned(Do(w, Create(e.job)), entries')
            && e.job == JobName(w.name, w.plan[i]) && |entries| == |w.plan|
            && (e.phase == Completed ==> entries' == entries)
            && (e.phase != Completed && e.job in w.jobs ==> After(w, e) == e.(phase := Observe(e.phase, w.jobs[e.job])))
            && (e.phase != Completed && e.job !in w.jobs ==> After(w, e) == e.(phase := Running))
  {
    hide JobName, Observe;
  }

  /** With planned entries and distinct targets no iteration disturbs another: each entry
      follows its own Job, and exactly the missing Jobs of unfinished entries are created. */
  lemma {:induction false} ProcessPlanned(w: World, entries: seq<Entry>, i: nat)
    requires Planned(w, entries) && Distinct(w.plan) && i <= |entries|
    requires Buildable(w.backup) || forall k | i <= k < |entries| :: entries[k].job in w.jobs
    ensures Handled(w, entries, i, Process(w, w.plan, entries, i))
    decreases |entries| - i
  {
    hide RestoreTargets, Buildable, JobName, Observe;
    if i < |entries| {
      hide Handled, Planned, After;
      var e := entries[i];
      AfterPlanned(w, entries, i);
      if e.phase == Completed || e.job in w.jobs {
        ProcessPlanned(w, entries[i := After(w, e)], i + 1);
        HandledOne(w, entries, i, Process(w, w.plan, entries, i));
      } else {
        ProcessPlanned(Do(w, Create(e.job)), entries[i := After(w, e)], i + 1);
        HandledCreate(w, entries, i, Process(w, w.plan, entries, i));
      }
    }
  }

  // ---- Crash recovery ----

  predicate Reported(job: Job) { job.completed || job.failed > 0 || job.active > 0 }

  function JobPhase(job: Job): Phase {
    if job.completed then Completed else if job.failed > 0 then Failed else Running
  }

  /** The entries and phase the Jobs alone determine. */
  function StatusOfJobs(w: World): Status
    requires JobNames(w) <= w.jobs.Keys
  {
    var entries := seq(|w.plan|, i requires 0 <= i < |w.plan| =>
      Entry(w.plan[i], JobPhase(w.jobs[JobName(w.name, w.plan[i])]), JobName(w.name, w.plan[i])));
    Status(Overall(entries), entries)
  }

  /** The controller has work to do, and can tell on which targets. */
  ghost predicate Ready(w: World) {
    && Inv(w) && OnPlan(w) && w.restore.Some?
    && w.restore.value.finalizer && !w.restore.value.deleting && w.restore.value.status.phase != Completed
    && SelectedNames(w) == Ok(w.plan)
  }

  lemma StartPlanned(w: World)
    requires Ready(w)
    ensures var (w1, entries) := Started(w, w.restore.value, w.plan);
            && Planned(w1, entries) && w1.restore.Some? && w1.jobs == w.jobs && w1.plan == w.plan && w1.name == w.name
            && w1.backup == w.backup && w1.instances == w.instances && w1.selector == w.selector
            && w1.restore.value.finalizer && !w1.restore.value.deleting
            && w1.restore.value.status.phase == w.restore.value.status.phase
            && (forall e: Entry | e.phase == Completed :: e in entries <==> e in w.restore.value.status.entries)
  {
    hide RestoreTargets;
  }

  /** Every entry persisted as Completed has a Job that is completed, or none. */
  predicate CompletedSettled(w: World) {
    w.restore.Some? ==> forall e | e in w.restore.value.status.entries && e.phase == Completed :: Settled(w, e.job)
  }

  /** What a pass persists whose loop meets no error. */
  lemma QuietStatus(w: World, w1: World, entries: seq<Entry>)
    requires Ready(w) && (w1, entries) == Started(w, w.restore.value, w.plan)
    requires w1.restore.Some? && |entries| == |w.plan| && Process(w1, w.plan, entries, 0).ok
    ensures var r := Process(w1, w.plan, entries, 0);
            QuietPass(w).restore.Some? && QuietPass(w).restore.value.status == Status(Overall(r.entries), r.entries)
  {
    hide RestoreTargets, Overall, Inv, Process, Started;
    ProcessKeepsRestore(w1, w.plan, entries, 0);
  }

  lemma EntriesRecover(w: World, w1: World, entries: seq<Entry>)
    requires JobNames(w) <= w.jobs.Keys && Planned(w1, entries) && w1.jobs == w.jobs
    requires w1.name == w.name && w1.plan == w.plan && forall job | job in JobNames(w) :: Reported(w.jobs[job])
    ensures |StatusOfJobs(w).entries| == |entries|
    ensures forall k | 0 <= k < |entries| ::
              After(w1, entries[k]) == StatusOfJobs(w).entries[k]
              <==> (entries[k].phase == Completed ==> Settled(w, entries[k].job))
  {
    hide Overall, JobName, After, Settled, JobPhase, Reported;
    forall k | 0 <= k < |entries|
      ensures After(w1, entries[k]) == StatusOfJobs(w).entries[k]
              <==> (entries[k].phase == Completed ==> Settled(w, entries[k].job))
    {
      assert w.plan[k] in w.plan;
      assert JobName(w.name, w.plan[k]) in JobNames(w);
      AfterReport(w1, w, entries[k]);
    }
  }

  lemma PlannedJobsExist(w: World, w1: World, entries: seq<Entry>)
    requires JobNames(w) <= w.jobs.Keys && Planned(w1, entries) && w1.jobs == w.jobs
    requires w1.name == w.name && w1.plan == w.plan
    ensures forall k | 0 <= k < |entries| :: entries[k].job in w1.jobs
  {
    hide JobName;
    forall k | 0 <= k < |entries| ensures entries[k].job in w1.jobs { assert w.plan[k] in w.plan; }
  }

  /** Whatever faults came before, one fault-free pass over Jobs that have all reported
      persists a status that depends on the Jobs alone, if and only if no entry is already
      Completed whose Job is not; no other earlier phase survives the pass. */
  lemma CrashRecovery(w: World)
    requires Ready(w)
    requires forall job | job in JobNames(w) :: job in w.jobs && Reported(w.jobs[job])
    ensures QuietPass(w).restore.Some?
    ensures QuietPass(w).restore.value.status == StatusOfJobs(w) <==> CompletedSettled(w)
  {
    StartPlanned(w);
    var (w1, entries) := Started(w, w.restore.value, w.plan);
    assert StatusOfJobs(w).phase == Overall(StatusOfJobs(w).entries);
    hide RestoreTargets, Overall, Inv, After, Settled, Started, Reported, StatusOfJobs, Process, QuietPass,
         CompletedSettled;
    PlannedJobsExist(w, w1, entries);
    EntriesRecover(w, w1, entries);
    ProcessPlanned(w1, entries, 0);
    QuietStatus(w, w1, entries);
    RecoveredEntries(w, w1, entries, Process(w1, w.plan, entries, 0), StatusOfJobs(w).entries);
  }

  lemma RecoveredEntries(w: World, w1: World, entries: seq<Entry>, r: Loop, target: seq<Entry>)
    requires w.restore.Some? && Handled(w1, entries, 0, r) && |target| == |entries|
    requires forall e: Entry | e.phase == Completed :: e in entries <==> e in w.restore.value.status.entries
    requires forall k | 0 <= k < |entries| ::
               After(w1, entries[k]) == target[k] <==> (entries[k].phase == Completed ==> Settled(w, entries[k].job))
    ensures r.entries == target <==> CompletedSettled(w)
  {
    hide After, Settled;
    if CompletedSettled(w) {
      forall k | 0 <= k < |entries| ensures r.entries[k] == target[k] { assert entries[k] in entries; }
    } else {
      var e :| e in w.restore.value.status.entries && e.phase == Completed && !Settled(w, e.job);
      var k :| 0 <= k < |entries| && entries[k] == e;
      assert r.entries[k] != target[k];
    }
  }

  lemma AfterReport(w: World, w': World, e: Entry)
    requires w'.jobs == w.jobs && e.job in w.jobs && Reported(w.jobs[e.job])
    ensures After(w, e) == e.(phase := JobPhase(w.jobs[e.job])) <==> (e.phase == Completed ==> Settled(w', e.job))
  {
  }

  /** The same for the end of any run, however many of its passes failed or crashed and
      however far its caches were behind. Only a Job deleted and created anew can leave an
      entry Completed whose Job is not, and then only after an old read of the restore
      object or of that Job. */
  lemma RecoveryAfterAnyRun(log: seq<World>)
    requires Run(log)
    requires var w := log[|log| - 1];
             && OnPlan(w) && SelectedNames(w) == Ok(w.plan)
             && w.restore.Some? && w.restore.value.finalizer && !w.restore.value.deleting
             && w.restore.value.status.phase != Completed
             && forall job | job in JobNames(w) :: job in w.jobs && Reported(w.jobs[job])
    ensures var w := log[|log| - 1];
            && QuietPass(w).restore.Some?
            && (QuietPass(w).restore.value.status == StatusOfJobs(w) <==> CompletedSettled(w))
            && (Reliable(w) ==> CompletedSettled(w))
  {
    hide StatusOfJobs, QuietPass, RestoreTargets;
    RunInv(log, |log| - 1);
    CrashRecovery(log[|log| - 1]);
  }

  /** Once every entry is Completed, a pass persists overall Completed, whatever the Jobs say. */
  lemma CompletedUnseen(w: World)
    requires Ready(w) && Planned(w, w.restore.value.status.entries) && AllCompleted(w.restore.value.status.entries)
    ensures QuietPass(w).restore.Some? && QuietPass(w).restore.value.status.phase == Completed
    ensures QuietPass(w).jobs == w.jobs
  {
    hide RestoreTargets, Inv, JobName;
    SkipsCompleted(w, w.restore.value.status.entries, 0);
  }

  lemma {:induction false} SkipsCompleted(w: World, entries: seq<Entry>, i: nat)
    requires |entries| == |w.plan| && i <= |entries| && AllCompleted(entries)
    ensures Process(w, w.plan, entries, i) == Loop(w, entries, true)
    decreases |entries| - i
  {
    if i < |entries| {
      assert entries[i] in entries;
      SkipsCompleted(w, entries, i + 1);
    }
  }

  /** One target whose entry has been persisted as Completed under phase Failed: the aggregate
      write was refused and the failure recorded. */
  ghost predicate FailedWithDone(w: World, target: string) {
    var job := JobName(w.name, target);
    && w.plan == [target] && SelectedNames(w) == Ok([target]) && !w.retargeted
    && w.restore.Some? && w.restore.value.finalizer && !w.restore.value.deleting
    && w.restore.value.status == Status(Failed, [Entry(target, Completed, job)])
  }

  /** A Job that succeeds, as far as the entries: created, completed, noted, not yet aggregated. */
  lemma NotesSuccess(w: World, target: string) returns (log: seq<World>)
    requires Init(w) && w.plan == [target] && SelectedNames(w) == Ok([target]) && !w.retargeted
    requires w.restore.value.finalizer && !w.restore.value.deleting && w.restore.value.status.phase == Unset
    ensures Run(log) && FailedWithDone(log[|log| - 1], target) && log[|log| - 1].name == w.name
  {
    hide RestoreTargets, JobName;
    var job := JobName(w.name, target);
    var pending := Status(Unset, [Entry(target, Pending, job)]);
    log := [w];
    RequestGrows(log, Write(pending));
    var w1 := Do(w, Write(pending));
    log := log + [w1];
    assert job in JobNames(w1);
    RequestGrows(log, Create(job));
    var w2 := Do(w1, Create(job));
    log := log + [w2];
    EnvGrows(log, Progress(job, Job(true, 0, 0)));
    var w3 := Env(w2, Progress(job, Job(true, 0, 0)));
    log := log + [w3];
    var done := Status(Failed, [Entry(target, Completed, job)]);
    assert Promised(w3, Write(done));
    RequestGrows(log, Write(done));
    log := log + [Do(w3, Write(done))];
  }

  /** Someone deletes that Job; a pass reads the restore object from before, finds no Job and
      creates it anew; it starts to run. */
  lemma CreatesAnew(before: seq<World>, target: string) returns (log: seq<World>)
    requires Run(before) && FailedWithDone(before[|before| - 1], target)
    ensures Run(log) && FailedWithDone(log[|log| - 1], target)
    ensures var w := log[|log| - 1];
            JobName(w.name, target) in w.jobs && w.jobs[JobName(w.name, target)] == Job(false, 0, 1)
  {
    hide RestoreTargets, JobName;
    var w0 := before[|before| - 1];
    var job := JobName(w0.name, target);
    EnvGrows(before, JobRemoved(job));
    var w1 := Env(w0, JobRemoved(job));
    log := before + [w1];
    RequestGrows(log, Miss);
    var w2 := Do(w1, Miss);
    log := log + [w2];
    assert job in JobNames(w2);
    RequestGrows(log, Create(job));
    var w3 := Do(w2, Create(job));
    log := log + [w3];
    EnvGrows(log, Progress(job, Job(false, 0, 1)));
    log := log + [Env(w3, Progress(job, Job(false, 0, 1)))];
  }

  /** So a run can end in a world that meets every hypothesis of recovery but has a Completed
      entry whose Job is only running, and the next pass persists overall Completed. */
  lemma OldReadUnsettles()
    ensures exists log: seq<World> ::
              && Run(log)
              && var w := log[|log| - 1];
                 && Ready(w) && (forall job | job in JobNames(w) :: job in w.jobs && Reported(w.jobs[job]))
                 && !CompletedSettled(w)
                 && QuietPass(w).restore.Some? && QuietPass(w).restore.value.status.phase == Completed
                 && exists job | job in JobNames(w) :: job in QuietPass(w).jobs && !QuietPass(w).jobs[job].completed
  {
    var a := Instance("a", "", None, None, None, None);
    var backup := Command.Backup("logical", "", "", "local", map["pvcName" := "p"]);
    var o := Restore(1, true, false, Status(Unset, []));
    var start := World("r", ["a"], Some(o), map[], [a], None, backup, 2, {}, {}, false, false, false);
    assert Names([a]) == ["a"];
    var log := NotesSuccess(start, "a");
    log := CreatesAnew(log, "a");
    var w := log[|log| - 1];
    hide Run, QuietPass, RestoreTargets, Inv;
    RunInv(log, |log| - 1);
    RunningUnderCompleted(w, "a");
    CompletedUnseen(w);
  }

  lemma RunningUnderCompleted(w: World, target: string)
    requires Inv(w) && FailedWithDone(w, target)
    requires JobName(w.name, target) in w.jobs && w.jobs[JobName(w.name, target)] == Job(false, 0, 1)
    ensures Ready(w) && JobNames(w) == {JobName(w.name, target)} && !CompletedSettled(w)
    ensures forall job | job in JobNames(w) :: job in w.jobs && Reported(w.jobs[job]) && !w.jobs[job].completed
    ensures Planned(w, w.restore.value.status.entries) && AllCompleted(w.restore.value.status.entries)
  {
    hide RestoreTargets, JobName;
    var e := w.restore.value.status.entries[0];
    assert e in w.restore.value.status.entries && !Settled(w, e.job);
  }

  // ---- What the phases say about the Jobs ----

  /** What the persisted status of a pass over reported Jobs says: Failed exactly if some Job has
      failed pods and no completion, Completed exactly if all have completed, and otherwise
      Running; and target by target likewise. */
  lemma StatusMeaning(w: World)
    requires JobNames(w) <= w.jobs.Keys
    ensures forall t | t in w.plan :: JobName(w.name, t) in w.jobs
    ensures var status := StatusOfJobs(w);
            && (status.phase == Failed <==> exists t | t in w.plan :: FailedJob(w.jobs[JobName(w.name, t)]))
            && (status.phase == Completed <==> forall t | t in w.plan :: w.jobs[JobName(w.name, t)].completed)
            && (status.phase == Running <==>
                  && (forall t | t in w.plan :: !FailedJob(w.jobs[JobName(w.name, t)]))
                  && exists t | t in w.plan :: !w.jobs[JobName(w.name, t)].completed)
            && |status.entries| == |w.plan|
            && forall i | 0 <= i < |w.plan| ::
                 var job := w.jobs[JobName(w.name, w.plan[i])];
                 && status.entries[i].name == w.plan[i] && status.entries[i].job == JobName(w.name, w.plan[i])
                 && (status.entries[i].phase == Completed <==> job.completed)
                 && (status.entries[i].phase == Failed <==> FailedJob(job))
  {
    PhaseOfTargets(w, Failed);
    PhaseOfTargets(w, Running);
    PhaseOfTargets(w, Completed);
    EntriesOfJobs(w);
    var status := StatusOfJobs(w);
    assert status.phase == Overall(status.entries);
    OverallMeaning(status.entries);
    hide Overall, JobName, StatusOfJobs;
    assert forall job :: FailedJob(job) <==> JobPhase(job) == Failed;
    assert forall job: Job :: job.completed <==> JobPhase(job) == Completed;
  }

  lemma EntriesOfJobs(w: World)
    requires JobNames(w) <= w.jobs.Keys
    ensures forall t | t in w.plan :: JobName(w.name, t) in w.jobs
    ensures |StatusOfJobs(w).entries| == |w.plan|
    ensures forall i | 0 <= i < |w.plan| ::
              StatusOfJobs(w).entries[i]
              == Entry(w.plan[i], JobPhase(w.jobs[JobName(w.name, w.plan[i])]), JobName(w.name, w.plan[i]))
    ensures forall e | e in StatusOfJobs(w).entries :: e.phase in {Failed, Running, Completed}
  {
    hide JobName, Overall;
    forall t | t in w.plan ensures JobName(w.name, t) in w.jobs { assert JobName(w.name, t) in JobNames(w); }
  }

  lemma PhaseOfTargets(w: World, p: Phase)
    requires JobNames(w) <= w.jobs.Keys
    ensures forall t | t in w.plan :: JobName(w.name, t) in w.jobs
    ensures (exists e | e in StatusOfJobs(w).entries :: e.phase == p)
            <==> exists t | t in w.plan :: JobPhase(w.jobs[JobName(w.name, t)]) == p
  {
    hide JobName, Overall, StatusOfJobs, JobPhase;
    EntriesOfJobs(w);
    var entries := StatusOfJobs(w).entries;
    if e :| e in entries && e.phase == p {
      var i :| 0 <= i < |entries| && entries[i] == e;
      assert w.plan[i] in w.plan;
    }
    if t :| t in w.plan && JobPhase(w.jobs[JobName(w.name, t)]) == p {
      var i :| 0 <= i < |w.plan| && w.plan[i] == t;
      assert entries[i] in entries;
    }
  }

  predicate FailedJob(job: Job) { !job.completed && job.failed > 0 }

  /** Failed before Completed before Running before Pending. */
  lemma OverallMeaning(entries: seq<Entry>)
    ensures Overall(entries) == Failed <==> exists e | e in entries :: e.phase == Failed
    ensures Overall(entries) == Completed <==> forall e | e in entries :: e.phase == Completed
    ensures Overall(entries) == Running <==>
              && (forall e | e in entries :: e.phase != Failed) && exists e | e in entries :: e.phase == Running
    ensures Overall(entries) == Pending <==>
              && (forall e | e in entries :: e.phase != Failed && e.phase != Running)
              && exists e | e in entries :: e.phase != Completed
  {
  }

  /** The same for what the pass persists. */
  lemma PassMeaning(w: World)
    requires Ready(w) && CompletedSettled(w)
    requires forall job | job in JobNames(w) :: job in w.jobs && Reported(w.jobs[job])
    ensures forall t | t in w.plan :: JobName(w.name, t) in w.jobs
    ensures QuietPass(w).restore.Some?
    ensures var phase := QuietPass(w).restore.value.status.phase;
            && (phase == Failed <==> exists t | t in w.plan :: FailedJob(w.jobs[JobName(w.name, t)]))
            && (phase == Completed <==> forall t | t in w.plan :: w.jobs[JobName(w.name, t)].completed)
            && phase in {Failed, Completed, Running}
  {
    hide QuietPass, StatusOfJobs, RestoreTargets, Inv, JobName, Reported;
    CrashRecovery(w);
    StatusMeaning(w);
  }

  /** Jobs that have reported nothing change no entry; entries that are all Pending make the
      restore Pending. */
  lemma NothingReported(w: World)
    requires Ready(w) && Planned(w, w.restore.value.status.entries)
    requires forall e | e in w.restore.value.status.entries ::
               e.phase != Completed && e.job in w.jobs && !Reported(w.jobs[e.job])
    ensures QuietPass(w).restore.Some? && QuietPass(w).jobs == w.jobs
    ensures var before, after := w.restore.value.status, QuietPass(w).restore.value.status;
            && after.entries == before.entries
            && (before.entries != [] && (forall e | e in before.entries :: e.phase == Pending) ==>
                  after.phase == Pending)
  {
    hide RestoreTargets, Inv, JobName, Overall;
    var entries := w.restore.value.status.entries;
    KeepsUnreported(w, entries, 0);
    OverallMeaning(entries);
    if entries != [] { assert entries[0] in entries; }
  }

  lemma {:induction false} KeepsUnreported(w: World, entries: seq<Entry>, i: nat)
    requires |entries| == |w.plan| && i <= |entries|
    requires forall e | e in entries :: e.phase != Completed && e.job in w.jobs && !Reported(w.jobs[e.job])
    ensures Process(w, w.plan, entries, i) == Loop(w, entries, true)
    decreases |entries| - i
  {
    if i < |entries| {
      var e := entries[i];
      assert e in entries;
      assert entries[i := e.(phase := Observe(e.phase, w.jobs[e.job]))] == entries;
      KeepsUnreported(w, entries, i + 1);
    }
  }

  /** The first pass creates every target's Job and reports Running. */
  lemma FirstPassRuns(w: World)
    requires Ready(w) && Buildable(w.backup) && w.restore.value.status.entries == [] && w.plan != []
    requires w.jobs.Keys !! JobNames(w)
    ensures QuietPass(w).restore.Some?
    ensures QuietPass(w).restore.value.status.phase == Running
    ensures var entries := QuietPass(w).restore.value.status.entries;
            && |entries| == |w.plan|
            && forall i | 0 <= i < |w.plan| ::
                 && entries[i] == Entry(w.plan[i], Running, JobName(w.name, w.plan[i]))
                 && JobName(w.name, w.plan[i]) in QuietPass(w).jobs
                 && !Reported(QuietPass(w).jobs[JobName(w.name, w.plan[i])])
  {
    StartPlanned(w);
    FreshStart(w);
    var (w1, entries) := Started(w, w.restore.value, w.plan);
    hide RestoreTargets, Overall, JobName, Buildable, Observe, Inv, Started, Process, Ready, QuietPass, Planned,
         Handled;
    ProcessPlanned(w1, entries, 0);
    QuietStatus(w, w1, entries);
    ProcessKeepsRestore(w1, w.plan, entries, 0);
    QuietJobs(w, w1, entries);
    var r := Process(w1, w.plan, entries, 0);
    AllCreated(w1, entries, r);
    ProcessJobs(w1, w.plan, entries, 0);
    hide Reported;
    RunningAll(r.entries);
  }

  /** The loop leaves the Jobs there are alone, and those it creates have reported nothing. */
  lemma {:induction false} ProcessJobs(w: World, names: seq<string>, entries: seq<Entry>, i: nat)
    requires i <= |entries| == |names|
    ensures var w' := Process(w, names, entries, i).world;
            && (forall job | job in w.jobs :: job in w'.jobs && w'.jobs[job] == w.jobs[job])
            && (forall job | job in w'.jobs && job !in w.jobs :: !Reported(w'.jobs[job]))
    decreases |names| - i
  {
    hide JobName, Observe, Buildable;
    if i < |names| {
      var e := entries[i];
      if e.phase == Completed {
        ProcessJobs(w, names, entries, i + 1);
      } else if e.job in w.jobs {
        ProcessJobs(w, names, entries[i := e.(phase := Observe(e.phase, w.jobs[e.job]))], i + 1);
      } else if Buildable(w.backup) && JobName(w.name, names[i]) !in w.jobs {
        ProcessJobs(Do(w, Create(JobName(w.name, names[i]))), names, entries[i := e.(phase := Running)], i + 1);
      }
    }
  }

  /** The pass over a marked restore takes away exactly the Jobs its entries name, and then the
      restore itself. */
  lemma DeletionMeaning(w: World)
    requires w.restore.Some? && w.restore.value.deleting
    ensures var w', entries := QuietPass(w), w.restore.value.status.entries;
            && w' == w.(restore := None, jobs := w'.jobs)
            && (forall job :: job in w'.jobs <==>
                  job in w.jobs && (job == "" || forall e | e in entries :: e.job != job))
            && (forall job | job in w'.jobs :: w'.jobs[job] == w.jobs[job])
  {
  }

  lemma RunningAll(entries: seq<Entry>)
    requires entries != [] && forall k | 0 <= k < |entries| :: entries[k].phase == Running
    ensures Overall(entries) == Running
  {
    assert entries[0] in entries;
  }

  lemma FreshStart(w: World)
    requires Ready(w) && w.restore.value.status.entries == [] && w.plan != [] && w.jobs.Keys !! JobNames(w)
    ensures var (w1, entries) := Started(w, w.restore.value, w.plan);
            && entries == Fresh(w.name, w.plan) && |entries| == |w.plan|
            && (forall k | 0 <= k < |entries| ::
                  entries[k] == Entry(w.plan[k], Pending, JobName(w.name, w.plan[k])) && entries[k].job !in w1.jobs)
  {
    hide RestoreTargets, JobName, Inv;
    forall k | 0 <= k < |w.plan| ensures JobName(w.name, w.plan[k]) !in w.jobs {
      assert w.plan[k] in w.plan && JobName(w.name, w.plan[k]) in JobNames(w);
    }
  }

  lemma AllCreated(w: World, entries: seq<Entry>, r: Loop)
    requires Handled(w, entries, 0, r)
    requires forall k | 0 <= k < |entries| :: entries[k].phase == Pending && entries[k].job !in w.jobs
    ensures |r.entries| == |entries|
    ensures forall k | 0 <= k < |entries| ::
              r.entries[k] == entries[k].(phase := Running) && r.entries[k].job in r.world.jobs
  {
    hide Observe;
  }

  lemma QuietJobs(w: World, w1: World, entries: seq<Entry>)
    requires Ready(w) && (w1, entries) == Started(w, w.restore.value, w.plan)
    requires w1.restore.Some? && |entries| == |w.plan|
    ensures QuietPass(w).jobs == Process(w1, w.plan, entries, 0).world.jobs
  {
    hide RestoreTargets, Overall, Inv, Process, Started;
    ProcessKeepsRestore(w1, w.plan, entries, 0);
  }

  /** A pass that finds no targets, or cannot build a Job it needs, records Failed and keeps the
      entries it has; what it has already created stays. */
  lemma FailureRecorded(w: World)
    requires w.restore.Some? && w.restore.value.finalizer && !w.restore.value.deleting
    requires w.restore.value.status.phase != Completed
    ensures SelectedNames(w).Err? ==>
              && QuietPass(w).restore.Some? && QuietPass(w).jobs == w.jobs
              && QuietPass(w).restore.value.status == w.restore.value.status.(phase := Failed)
    ensures SelectedNames(w).Ok? && !Buildable(w.backup)
            && |SelectedNames(w).value| == |w.restore.value.status.entries|
            && (exists e | e in w.restore.value.status.entries :: e.phase != Completed && e.job !in w.jobs) ==>
              && QuietPass(w).restore.Some? && QuietPass(w).jobs == w.jobs
              && QuietPass(w).restore.value.status.phase == Failed
  {
    hide RestoreTargets, Buildable, JobName, Overall, Observe;
    if SelectedNames(w).Ok? && !Buildable(w.backup)
       && |SelectedNames(w).value| == |w.restore.value.status.entries|
       && exists e | e in w.restore.value.status.entries :: e.phase != Completed && e.job !in w.jobs {
      var entries := w.restore.value.status.entries;
      var e :| e in entries && e.phase != Completed && e.job !in w.jobs;
      var k :| 0 <= k < |entries| && entries[k] == e;
      Unbuildable(w, SelectedNames(w).value, entries, 0, k);
    }
  }

  lemma {:induction false} Unbuildable(w: World, names: seq<string>, entries: seq<Entry>, i: nat, k: nat)
    requires i <= k < |entries| == |names| && !Buildable(w.backup)
    requires entries[k].phase != Completed && entries[k].job !in w.jobs
    ensures !Process(w, names, entries, i).ok && Process(w, names, entries, i).world == w
    decreases |names| - i
  {
    hide RestoreTargets, Buildable, JobName, Observe;
    if i < k {
      var e := entries[i];
      if e.phase == Completed {
        Unbuildable(w, names, entries, i + 1, k);
      } else if e.job in w.jobs {
        Unbuildable(w, names, entries[i := e.(phase := Observe(e.phase, w.jobs[e.job]))], i + 1, k);
      }
    }
  }

  // ---- Progress ----

  /** Every Job succeeds. */
  function Succeed(w: World): World {
    w.(jobs := map job | job in w.jobs :: w.jobs[job].(completed := true), everDone := w.everDone + w.jobs.Keys)
  }

  lemma SucceedKeeps(w: World)
    requires Inv(w)
    ensures Inv(Succeed(w))
  {
    hide InvRestore;
    JobsOnly(w, Succeed(w));
  }

  /** Every target's entry is Completed, or its Job has completed. */
  ghost predicate AllDone(w: World) {
    && w.restore.Some? && w.restore.value.finalizer && !w.restore.value.deleting
    && Planned(w, w.restore.value.status.entries)
    && SelectedNames(w) == Ok(w.plan) && Distinct(w.plan)
    && forall e | e in w.restore.value.status.entries ::
         e.phase == Completed || (e.job in w.jobs && w.jobs[e.job].completed)
  }

  lemma HandledAll(w: World, entries: seq<Entry>, r: Loop)
    requires Planned(w, entries) && Handled(w, entries, 0, r)
    ensures Planned(w, r.entries) && forall e | e in r.entries :: e.phase == Completed || e.job in r.world.jobs
  {
    hide JobName, Observe;
  }

  lemma SucceedDone(w: World, phase: Phase, entries: seq<Entry>)
    requires w.restore.Some? && w.restore.value.finalizer && !w.restore.value.deleting
    requires SelectedNames(w) == Ok(w.plan) && Distinct(w.plan)
    requires Planned(w, entries) && forall e | e in entries :: e.phase == Completed || e.job in w.jobs
    ensures AllDone(Succeed(Persist(w, phase, entries)))
  {
    hide RestoreTargets, JobName;
  }

  /** The creating pass leaves each target finished or with a Job. */
  lemma CreatingPass(w: World)
    requires Ready(w) && Buildable(w.backup)
    ensures AllDone(Succeed(QuietPass(w)))
  {
    StartPlanned(w);
    var (w1, entries) := Started(w, w.restore.value, w.plan);
    hide RestoreTargets, Overall, JobName, Buildable, Observe, Handled, Process,
         Planned, Inv, AllDone, Succeed, Started;
    ProcessPlanned(w1, entries, 0);
    ProcessKeepsRestore(w1, w.plan, entries, 0);
    var r := Process(w1, w.plan, entries, 0);
    HandledAll(w1, entries, r);
    SamePlanned(w1, r.world, r.entries);
    SucceedDone(r.world, if r.ok then Overall(r.entries) else Failed, r.entries);
  }

  lemma SamePlanned(w: World, w': World, entries: seq<Entry>)
    requires w'.name == w.name && w'.plan == w.plan
    ensures Planned(w', entries) == Planned(w, entries)
  {
  }

  lemma ObservingPass(w: World)
    requires AllDone(w)
    ensures AllDone(QuietPass(w)) && QuietPass(w).restore.value.status.phase == Completed
  {
    hide RestoreTargets, JobName, Buildable;
    var o := w.restore.value;
    if o.status.phase != Completed {
      var entries := o.status.entries;
      forall k | 0 <= k < |entries| && entries[k].phase != Completed ensures entries[k].job in w.jobs {
        assert entries[k] in entries;
      }
      ObserveAll(w, entries, 0);
      ProcessKeepsRestore(w, w.plan, entries, 0);
    }
  }

  lemma {:induction false} ObserveAll(w: World, entries: seq<Entry>, i: nat)
    requires |entries| == |w.plan| && i <= |entries|
    requires forall k | 0 <= k < i :: entries[k].phase == Completed
    requires forall k | i <= k < |entries| ::
               entries[k].phase == Completed || (entries[k].job in w.jobs && w.jobs[entries[k].job].completed)
    ensures var r := Process(w, w.plan, entries, i);
            r.ok && AllCompleted(r.entries) && r.world == w
            && forall k | 0 <= k < |entries| :: r.entries[k] == entries[k].(phase := Completed)
    decreases |entries| - i
  {
    if i < |entries| {
      assert entries[i].phase == Completed ==> entries[i := entries[i].(phase := Completed)] == entries;
      ObserveAll(w, entries[i := entries[i].(phase := Completed)], i + 1);
    } else {
      assert forall k | 0 <= k < |entries| :: entries[k] == entries[k].(phase := Completed);
    }
  }

  /** From any reachable, non-deleting world three fault-free passes (finalizer, create,
      observe) reach overall Completed, if the created Jobs succeed in between. */
  lemma ThreePasses(w: World)
    requires Inv(w) && OnPlan(w) && w.restore.Some? && !w.restore.value.deleting
    requires SelectedNames(w) == Ok(w.plan) && Buildable(w.backup)
    ensures var w3 := QuietPass(Succeed(QuietPass(Succeed(QuietPass(w)))));
            w3.restore.Some? && w3.restore.value.status.phase == Completed
  {
    hide RestoreTargets, QuietPass, Buildable, Overall;
    var w1 := Succeed(QuietPass(w));
    var w2 := Succeed(QuietPass(w1));
    if !w.restore.value.finalizer {
      FinalizerPass(w);
      CreatingPass(w1);
    } else if w.restore.value.status.phase == Completed {
      CompletedStays(w);
      CompletedStays(w1);
      CompletedStays(w2);
      return;
    } else {
      CreatingPass(w);
      ObservingPass(w1);
      assert AllDone(w2);
    }
    ObservingPass(w2);
  }

  lemma ThreePassesAfterAnyRun(log: seq<World>)
    requires Run(log)
    requires var w := log[|log| - 1];
             && OnPlan(w) && SelectedNames(w) == Ok(w.plan) && Buildable(w.backup)
             && w.restore.Some? && !w.restore.value.deleting
    ensures var w3 := QuietPass(Succeed(QuietPass(Succeed(QuietPass(log[|log| - 1])))));
            w3.restore.Some? && w3.restore.value.status.phase == Completed
  {
    hide QuietPass, RestoreTargets, Inv, Buildable, Succeed;
    RunInv(log, |log| - 1);
    ThreePasses(log[|log| - 1]);
  }

  lemma FinalizerPass(w: World)
    requires Inv(w) && OnPlan(w) && w.restore.Some? && !w.restore.value.deleting && !w.restore.value.finalizer
    requires SelectedNames(w) == Ok(w.plan) && Buildable(w.backup)
    ensures Ready(Succeed(QuietPass(w))) && Buildable(Succeed(QuietPass(w)).backup)
  {
    hide RestoreTargets, Buildable;
    assert Promised(w, AddFinalizer);
    ControllerKeeps(w, AddFinalizer);
    SucceedKeeps(QuietPass(w));
  }

  lemma CompletedStays(w: World)
    requires w.restore.Some? && w.restore.value.finalizer && !w.restore.value.deleting
    requires w.restore.value.status.phase == Completed
    ensures QuietPass(w) == w
    ensures var s := Succeed(w); s.restore == w.restore
  {
  }

  // ---- When the targets change ----

  /** Every Job the restore created is named in its entries. */
  predicate Covered(w: World) {
    w.restore.Some? ==> w.created <= Listed(w.restore.value.status.entries)
  }

  lemma {:induction false} ProcessNames(w: World, names: seq<string>, entries: seq<Entry>, i: nat)
    requires i <= |entries| == |names|
    ensures var r := Process(w, names, entries, i);
            && w.created <= r.world.created
            && (forall job | job in r.world.created && job !in w.created ::
                  exists k | i <= k < |names| :: job == JobName(w.name, names[k]))
            && (forall k | 0 <= k < |entries| :: r.entries[k].job == entries[k].job)
    decreases |names| - i
  {
    hide RestoreTargets, Buildable, JobName, Observe;
    if i < |names| {
      var e := entries[i];
      var job := JobName(w.name, names[i]);
      if e.phase == Completed {
        ProcessNames(w, names, entries, i + 1);
      } else if e.job in w.jobs {
        ProcessNames(w, names, entries[i := e.(phase := Observe(e.phase, w.jobs[e.job]))], i + 1);
      } else if Buildable(w.backup) && job !in w.jobs {
        ProcessNames(Do(w, Create(job)), names, entries[i := e.(phase := Running)], i + 1);
      }
    }
  }

  lemma SameJobs(a: seq<Entry>, b: seq<Entry>)
    requires |a| == |b| && forall k | 0 <= k < |a| :: a[k].job == b[k].job
    ensures Listed(a) == Listed(b)
  {
    forall j | j in Listed(a) ensures j in Listed(b) {
      var k :| 0 <= k < |a| && a[k].job == j;
      assert b[k] in b;
    }
    forall j | j in Listed(b) ensures j in Listed(a) {
      var k :| 0 <= k < |b| && b[k].job == j;
      assert a[k] in a;
    }
  }

  /** A pass over a target list of another length forgets all entries; it keeps the
      write-ahead intent exactly when every Job created so far is a Job of the new list. */
  lemma LengthChangeCovers(w: World, names: seq<string>)
    requires w.restore.Some? && w.restore.value.finalizer && !w.restore.value.deleting
    requires w.restore.value.status.phase != Completed
    requires SelectedNames(w) == Ok(names) && |names| != |w.restore.value.status.entries|
    ensures Covered(QuietPass(w)) <==> w.created <= Listed(Fresh(w.name, names))
  {
    hide RestoreTargets, Buildable, JobName, Observe, Overall;
    var (w1, entries) := Started(w, w.restore.value, names);
    var r := Process(w1, names, entries, 0);
    ProcessKeepsRestore(w1, names, entries, 0);
    ProcessNames(w1, names, entries, 0);
    SameJobs(entries, r.entries);
    forall k | 0 <= k < |names| ensures JobName(w.name, names[k]) in Listed(entries) {
      assert entries[k] in entries;
    }
  }

  /** It happens: both Jobs of two targets have been created when one instance is removed. */
  lemma LengthChangeUncovers()
    ensures exists log: seq<World> ::
              && Run(log)
              && var w := log[|log| - 1];
                 Covered(w) && Distinct(w.plan) && !w.stale && !w.misled && !Covered(QuietPass(w))
  {
    var a, b := Instance("a", "", None, None, None, None), Instance("b", "", None, None, None, None);
    var backup := Command.Backup("logical", "", "", "local", map["pvcName" := "p"]);
    var o := Restore(1, true, false, Status(Unset, []));
    var start := World("r", ["a", "b"], Some(o), map[], [a, b], None, backup, 2, {}, {}, false, false, false);
    assert Names([a, b]) == ["a", "b"] && Names([a]) == ["a"];
    var log := CreatesBoth(start, "a", "b", [a]);
    hide Run, QuietPass, JobName, Covered, RestoreTargets;
    var w := log[|log| - 1];
    LengthChangeCovers(w, ["a"]);
    NotForOne(w, "a", "b");
  }

  lemma NotForOne(w: World, first: string, second: string)
    requires first != second && JobName(w.name, second) in w.created
    ensures !(w.created <= Listed(Fresh(w.name, [first])))
  {
    if JobName(w.name, second) in Listed(Fresh(w.name, [first])) { JobNameInjective(w.name, first, second); }
  }

  /** A pass creates both Jobs and crashes; then the cluster is edited. */
  lemma CreatesBoth(w: World, first: string, second: string, instances: seq<Instance>) returns (log: seq<World>)
    requires Init(w) && w.plan == [first, second] && first != second && !w.retargeted && !w.stale && !w.misled
    requires w.restore.value.finalizer && !w.restore.value.deleting && w.restore.value.status.phase == Unset
    ensures Run(log)
    ensures var x := log[|log| - 1];
            && x.name == w.name && x.plan == w.plan && !x.stale && !x.misled
            && x.instances == instances && x.selector == w.selector
            && x.restore.Some? && x.restore.value.finalizer && !x.restore.value.deleting
            && x.restore.value.status.phase == Unset && |x.restore.value.status.entries| == 2
            && JobName(w.name, second) in x.created && Covered(x)
  {
    hide RestoreTargets, JobName;
    var j1, j2 := JobName(w.name, first), JobName(w.name, second);
    if j1 == j2 { JobNameInjective(w.name, first, second); }
    var pending := Status(Unset, [Entry(first, Pending, j1), Entry(second, Pending, j2)]);
    log := [w];
    assert Promised(w, Write(pending));
    RequestGrows(log, Write(pending));
    var w1 := Do(w, Write(pending));
    log := log + [w1];
    assert j1 in JobNames(w1) && j2 in JobNames(w1);
    RequestGrows(log, Create(j1));
    var w2 := Do(w1, Create(j1));
    log := log + [w2];
    RequestGrows(log, Create(j2));
    var w3 := Do(w2, Create(j2));
    log := log + [w3];
    EnvGrows(log, EditCluster(instances));
    log := log + [Env(w3, EditCluster(instances))];
    assert pending.entries[0] in pending.entries && pending.entries[1] in pending.entries;
  }

  /** The Jobs the loop creates, told from the names, the entries and the Jobs there are. */
  function NewJobs(restore: string, have: set<string>, buildable: bool, names: seq<string>, entries: seq<Entry>)
    : set<string>
    requires |entries| == |names|
    decreases |names|
  {
    if names == [] then {}
    else
      var job := JobName(restore, names[0]);
      if entries[0].phase == Completed || entries[0].job in have
      then NewJobs(restore, have, buildable, names[1..], entries[1..])
      else if !buildable || job in have then {}
      else {job} + NewJobs(restore, have + {job}, buildable, names[1..], entries[1..])
  }

  lemma {:induction false} ProcessCreates(w: World, names: seq<string>, entries: seq<Entry>, i: nat)
    requires i <= |entries| == |names|
    ensures Process(w, names, entries, i).world.created
            == w.created + NewJobs(w.name, w.jobs.Keys, Buildable(w.backup), names[i..], entries[i..])
    decreases |names| - i
  {
    hide RestoreTargets, Buildable, JobName, Observe;
    if i < |names| {
      var e := entries[i];
      var job := JobName(w.name, names[i]);
      assert names[i..][1..] == names[i + 1..] && entries[i..][1..] == entries[i + 1..];
      if e.phase == Completed {
        ProcessCreates(w, names, entries, i + 1);
      } else if e.job in w.jobs {
        var entries' := entries[i := e.(phase := Observe(e.phase, w.jobs[e.job]))];
        assert entries'[i + 1..] == entries[i + 1..];
        ProcessCreates(w, names, entries', i + 1);
      } else if Buildable(w.backup) && job !in w.jobs {
        var entries' := entries[i := e.(phase := Running)];
        assert entries'[i + 1..] == entries[i + 1..];
        assert Do(w, Create(job)).jobs.Keys == w.jobs.Keys + {job};
        ProcessCreates(Do(w, Create(job)), names, entries', i + 1);
      }
    }
  }

  /** A live, unfinished restore whose target list has become `names`, as long as its entries. */
  ghost predicate SameLengthChange(w: World, names: seq<string>) {
    && w.restore.Some? && w.restore.value.finalizer && !w.restore.value.deleting
    && w.restore.value.status.phase != Completed
    && SelectedNames(w) == Ok(names) && |names| == |w.restore.value.status.entries|
  }

  /** A list of the same length keeps the old entries, matched by position. The pass keeps
      the write-ahead intent exactly when each Job it will create is named by some entry. */
  lemma SameLengthChangeCovers(w: World, names: seq<string>)
    requires SameLengthChange(w, names)
    ensures var entries := w.restore.value.status.entries;
            Covered(QuietPass(w)) <==>
              Covered(w) && NewJobs(w.name, w.jobs.Keys, Buildable(w.backup), names, entries) <= Listed(entries)
  {
    hide RestoreTargets, Buildable, JobName, Observe, Overall;
    var entries := w.restore.value.status.entries;
    var r := Process(w, names, entries, 0);
    assert names[0..] == names && entries[0..] == entries;
    ProcessKeepsRestore(w, names, entries, 0);
    ProcessCreates(w, names, entries, 0);
    ProcessNames(w, names, entries, 0);
    SameJobs(entries, r.entries);
  }

  lemma {:induction false} NewJobsNamed(restore: string, have: set<string>, buildable: bool, names: seq<string>,
                                        entries: seq<Entry>, listed: set<string>)
    requires |entries| == |names|
    requires forall i | 0 <= i < |names| && entries[i].phase != Completed && entries[i].job !in have ::
               JobName(restore, names[i]) in listed
    ensures NewJobs(restore, have, buildable, names, entries) <= listed
    decreases |names|
  {
    hide JobName;
    if names != [] {
      forall i | 0 <= i < |names| - 1 && entries[1..][i].phase != Completed && entries[1..][i].job !in have
        ensures JobName(restore, names[1..][i]) in listed
      {
        assert entries[1..][i] == entries[i + 1] && names[1..][i] == names[i + 1];
      }
      NewJobsNamed(restore, have, buildable, names[1..], entries[1..], listed);
      NewJobsNamed(restore, have + {JobName(restore, names[0])}, buildable, names[1..], entries[1..], listed);
    }
  }

  /** It is kept if every position that needs a Job has its new target's Job named by some entry, */
  lemma NamedTargetsCover(w: World, names: seq<string>)
    requires SameLengthChange(w, names) && Covered(w)
    requires var entries := w.restore.value.status.entries;
             forall i | 0 <= i < |names| && entries[i].phase != Completed && entries[i].job !in w.jobs ::
               JobName(w.name, names[i]) in Listed(entries)
    ensures Covered(QuietPass(w))
  {
    hide QuietPass, Covered, NewJobs, Buildable, JobName;
    var entries := w.restore.value.status.entries;
    SameLengthChangeCovers(w, names);
    NewJobsNamed(w.name, w.jobs.Keys, Buildable(w.backup), names, entries, Listed(entries));
  }

  lemma {:induction false} FirstNewJob(restore: string, have: set<string>, names: seq<string>,
                                    entries: seq<Entry>, i: nat)
    requires i < |names| == |entries|
    requires forall k | 0 <= k < i :: entries[k].phase == Completed || entries[k].job in have
    requires entries[i].phase != Completed && entries[i].job !in have && JobName(restore, names[i]) !in have
    ensures JobName(restore, names[i]) in NewJobs(restore, have, true, names, entries)
    decreases i
  {
    hide JobName;
    if i > 0 {
      assert entries[1..][i - 1] == entries[i] && names[1..][i - 1] == names[i];
      FirstNewJob(restore, have, names[1..], entries[1..], i - 1);
    }
  }

  /** and lost if the first position that needs a Job gets one that exists nowhere yet. */
  lemma UnnamedTargetUncovers(w: World, names: seq<string>, i: nat)
    requires SameLengthChange(w, names) && Buildable(w.backup) && i < |names|
    requires var entries := w.restore.value.status.entries;
             && (forall k | 0 <= k < i :: entries[k].phase == Completed || entries[k].job in w.jobs)
             && entries[i].phase != Completed && entries[i].job !in w.jobs
             && JobName(w.name, names[i]) !in w.jobs && JobName(w.name, names[i]) !in Listed(entries)
    ensures !Covered(QuietPass(w))
  {
    hide QuietPass, Covered, NewJobs, Buildable, JobName, Listed;
    SameLengthChangeCovers(w, names);
    FirstNewJob(w.name, w.jobs.Keys, names, w.restore.value.status.entries, i);
  }

  /** It happens: the operator crashes after it has persisted the entries for "a", someone
      replaces that instance by "b", and the next pass creates a Job no entry names. */
  lemma SameLengthChangeUncovers()
    ensures exists log: seq<World> ::
              && Run(log)
              && var w := log[|log| - 1];
                 && Covered(w) && Distinct(w.plan) && !w.stale && !w.misled
                 && !Covered(QuietPass(w))
  {
    hide Run, QuietPass, Covered, JobName;
    var w0, w1, w2 := Replaced();
    UnnamedTargetUncovers(w2, ["b"], 0);
    var log := [w0, w1, w2];
    assert log[|log| - 1] == w2;
  }

  /** The run in which the only instance is replaced. */
  lemma Replaced() returns (w0: World, w1: World, w2: World)
    ensures Run([w0, w1, w2]) && Covered(w2) && Distinct(w2.plan) && !w2.stale && !w2.misled
    ensures SameLengthChange(w2, ["b"]) && Buildable(w2.backup) && w2.jobs == map[]
    ensures var e := w2.restore.value.status.entries[0];
            e.phase != Completed && JobName(w2.name, "b") !in Listed(w2.restore.value.status.entries)
  {
    var backup := Command.Backup("logical", "", "", "local", map["pvcName" := "p"]);
    var a, b := Instance("a", "", None, None, None, None), Instance("b", "", None, None, None, None);
    var entry := Entry("a", Pending, JobName("r", "a"));
    var o := Restore(1, true, false, Status(Unset, []));
    w0 := World("r", ["a"], Some(o), map[], [a], None, backup, 2, {}, {}, false, false, false);
    assert Names([a]) == ["a"] && Names([b]) == ["b"];
    CrashAndEdit(w0, o, [entry], [b]);
    w1 := Do(w0, Write(Status(Unset, [entry])));
    w2 := Env(w1, EditCluster([b]));
    assert JobName("r", "b") != entry.job by {
      if JobName("r", "b") == entry.job { JobNameInjective("r", "a", "b"); }
    }
  }

  /** A pass persists the entries and crashes; then the cluster is edited. */
  lemma CrashAndEdit(w: World, o: Restore, entries: seq<Entry>, instances: seq<Instance>)
    requires Init(w) && w.restore == Some(o) && o.finalizer && !o.deleting
    requires Planned(w, entries) && forall e | e in entries :: e.phase == Pending
    ensures var w1 := Do(w, Write(Status(Unset, entries)));
            Run([w, w1, Env(w1, EditCluster(instances))])
  {
    hide RestoreTargets, JobName;
    var w1 := Do(w, Write(Status(Unset, entries)));
    assert Promised(w, Write(Status(Unset, entries)));
    assert ControllerStep(w, w1) && EnvStep(w1, Env(w1, EditCluster(instances)));
  }
}
