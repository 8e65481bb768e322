/** controllers/postgresrestore_controller.go as a protocol. A `World` is what the API
    server holds about one restore: the restore object, its Jobs, and the objects it
    refers to. A run is a sequence of worlds; between two of them the environment acts,
    or the controller makes one request. */
module RestoreProtocol {
  import opened Types
  import opened Selection
  import Command = RestoreCommand

  datatype Phase = Unset | Pending | Running | Completed | Failed

  /** Whether CompletionTime is set, and how many pods failed and are active. */
  datatype Job = Job(completed: bool, failed: nat, active: nat)

  datatype Entry = Entry(name: string, phase: Phase, job: string)

  datatype Status = Status(phase: Phase, entries: seq<Entry>)

  datatype Restore = Restore(version: nat, finalizer: bool, deleting: bool, status: Status)

  /** `plan` is the run's fixed list of targets. The last five fields are history: the
      Jobs this restore's controller has created, the Jobs that ever had a completion time,
      whether some read of the restore object gave an old version of it, whether some read
      of a Job gave the completion of an earlier Job of that name, and whether the restore's
      selector was edited or ever gave another list than `plan`. */
  datatype World = World(
    name: string, plan: seq<string>,
    restore: Option<Restore>, jobs: map<string, Job>,
    instances: seq<Instance>, selector: Option<Selector>, backup: Command.Backup,
    next: nat,
    created: set<string>, everDone: set<string>,
    stale: bool, misled: bool, retargeted: bool)

  function JobName(restore: string, target: string): string { restore + "-" + target + "-restore" }

  lemma JobNameAsWritten()
    ensures JobName("r", "a") == "r-a-restore"
  {
  }

  lemma JobNameInjective(restore: string, a: string, b: string)
    requires JobName(restore, a) == JobName(restore, b)
    ensures a == b
  {
    var x, y := JobName(restore, a), JobName(restore, b);
    var n := |restore| + 1;
    assert x[n..n + |a|] == a && y[n..n + |b|] == b;
  }

  lemma JobNameNotEmpty(restore: string, target: string)
    ensures JobName(restore, target) != ""
  {
  }

  function JobNames(w: World): set<string> {
    set t | t in w.plan :: JobName(w.name, t)
  }

  function Listed(entries: seq<Entry>): set<string> {
    set e | e in entries :: e.job
  }

  function SelectedNames(w: World): Result<seq<string>> {
    match RestoreTargets(w.instances, w.selector)
    case Err => Err
    case Ok(targets) => Ok(Names(targets))
  }

  /** Whether `createRestoreJob` succeeds. */
  predicate Buildable(backup: Command.Backup) {
    Command.Supported(backup) && Command.Mountable(backup)
  }

  predicate Planned(w: World, entries: seq<Entry>) {
    && |entries| == |w.plan|
    && forall i | 0 <= i < |entries| :: entries[i].name == w.plan[i] && entries[i].job == JobName(w.name, w.plan[i])
  }

  predicate Settled(w: World, job: string) { job in w.jobs ==> w.jobs[job].completed }

  /** The targets have been fixed, and are distinct. */
  predicate OnPlan(w: World) { !w.retargeted && Distinct(w.plan) }

  /** Moreover, the restore object has been read as it was. */
  predicate Steady(w: World) { !w.stale && OnPlan(w) }

  /** Moreover, no Job has been taken for an earlier one of its name. */
  predicate Reliable(w: World) { Steady(w) && !w.misled }

  // ---- The environment ----

  datatype EnvAction =
    | Progress(job: string, state: Job)     // the Job controller reports
    | JobRemoved(job: string)               // someone deletes a Job
    | UserDelete                            // someone deletes the restore
    | Touch                                 // someone else writes the restore's metadata
    | EditCluster(instances: seq<Instance>) // someone edits the cluster
    | EditBackup(backup: Command.Backup)    // someone edits the backup
    | EditSelector(selector: Option<Selector>) // someone edits the restore

  function Env(w: World, a: EnvAction): World {
    match a
    case Progress(job, state) =>
      if job in w.jobs && (w.jobs[job].completed ==> state.completed)
      then w.(jobs := w.jobs[job := state], everDone := if state.completed then w.everDone + {job} else w.everDone)
      else w
    case JobRemoved(job) => w.(jobs := w.jobs - {job})
    case UserDelete =>
      if w.restore.None? || w.restore.value.deleting then w
      else if w.restore.value.finalizer then Rewrite(w, w.restore.value.(deleting := true))
      else w.(restore := None)
    case Touch => if w.restore.None? then w else Rewrite(w, w.restore.value)
    case EditCluster(instances) => NoteSelection(w.(instances := instances))
    case EditBackup(backup) => w.(backup := backup)
    case EditSelector(selector) =>
      if w.restore.None? then w else Rewrite(w, w.restore.value).(selector := selector, retargeted := true)
  }

  /** Stores the object under the next resource version. */
  function Rewrite(w: World, o: Restore): World {
    w.(restore := Some(o.(version := w.next)), next := w.next + 1)
  }

  function NoteSelection(w: World): World {
    w.(retargeted := w.retargeted || SelectedNames(w) !in {Err, Ok(w.plan)})
  }

  // ---- The controller's requests ----

  datatype Request =
    | Miss                    // a read gave an old restore object: recorded, nothing changes
    | Mislead                 // a read gave the completion of a Job that has been replaced: recorded
    | AddFinalizer
    | Write(status: Status)   // Status().Update
    | Create(job: string)
    | Remove(job: string)
    | Drop                    // the update that removes the finalizer

  function Do(w: World, r: Request): World
    requires r.AddFinalizer? || r.Write? ==> w.restore.Some?
  {
    match r
    case Miss => w.(stale := true)
    case Mislead => w.(misled := true)
    case AddFinalizer => Rewrite(w, w.restore.value.(finalizer := true))
    case Write(status) => Rewrite(w, w.restore.value.(status := status))
    case Create(job) => w.(jobs := w.jobs[job := Job(false, 0, 0)], created := w.created + {job})
    case Remove(job) => w.(jobs := w.jobs - {job})
    case Drop => w.(restore := None)
  }

  /** Whether the API server accepts the request, sent with resource version `v`. */
  predicate Accepts(w: World, r: Request, v: nat) {
    match r
    case Miss | Mislead => true
    case AddFinalizer | Write(_) | Drop => w.restore.Some? && w.restore.value.version == v
    case Create(job) => job !in w.jobs
    case Remove(job) => job in w.jobs
  }

  /** What the controller promises about each request that takes effect. */
  ghost predicate Promised(w: World, r: Request) {
    match r
    case Miss | Mislead => true
    case AddFinalizer => w.restore.Some? && !w.restore.value.deleting
    case Write(status) => w.restore.Some? && PromisedStatus(w, w.restore.value, status)
    case Create(job) =>
      && job !in w.jobs
      && (w.restore.Some? ==> w.restore.value.finalizer)
      && (!w.stale ==> w.restore.Some? && w.restore.value.status.phase != Completed)
      && (!w.retargeted ==> job in JobNames(w))
      && (!w.retargeted && w.restore.Some? ==> Planned(w, w.restore.value.status.entries))
      && (Steady(w) && w.restore.Some? ==>
            forall e | e in w.restore.value.status.entries && e.job == job :: e.phase != Completed)
    case Remove(job) =>
      if w.restore.Some? then w.restore.value.deleting else w.stale
    case Drop =>
      && w.restore.Some? && w.restore.value.deleting
      && forall e | e in w.restore.value.status.entries && e.job != "" :: e.job !in w.jobs
  }

  ghost predicate PromisedStatus(w: World, o: Restore, s: Status) {
    && o.finalizer && !o.deleting
    && o.status.phase != Completed
    && (s.phase == Completed ==> AllCompleted(s.entries) && (!w.retargeted ==> Planned(w, s.entries)))
    && (!w.retargeted ==> PlannedStatus(w, s.entries) && Kept(w, o.status.entries, s.entries))
  }

  predicate AllCompleted(entries: seq<Entry>) {
    forall e | e in entries :: e.phase == Completed
  }

  /** Entries a controller may hold in memory or persist while the targets are fixed. */
  ghost predicate PlannedStatus(w: World, entries: seq<Entry>) {
    && (entries == [] || Planned(w, entries))
    && (forall e | e in entries && e.phase == Completed :: e.job in w.everDone)
    && (Reliable(w) ==> forall e | e in entries && e.phase == Completed :: Settled(w, e.job))
  }

  /** Once planned, entries stay planned and a Completed entry stays Completed. */
  predicate Kept(w: World, old_: seq<Entry>, new_: seq<Entry>) {
    Planned(w, old_) ==>
      && Planned(w, new_)
      && forall i | 0 <= i < |old_| && old_[i].phase == Completed :: new_[i].phase == Completed
  }

  // ---- Runs ----

  ghost predicate EnvStep(w: World, w': World) { exists a :: w' == Env(w, a) }

  ghost predicate ControllerStep(w: World, w': World) {
    exists r :: Promised(w, r) && w' == Do(w, r)
  }

  ghost predicate Next(w: World, w': World) { EnvStep(w, w') || ControllerStep(w, w') }

  ghost predicate Init(w: World) {
    && w.restore.Some? && w.restore.value.status == Status(Unset, []) && w.restore.value.version < w.next
    && (w.restore.value.deleting ==> w.restore.value.finalizer)
    && w.jobs == map[] && w.created == {} && w.everDone == {}
    && (w.retargeted || SelectedNames(w) in {Err, Ok(w.plan)})
  }

  ghost predicate Run(log: seq<World>) {
    && log != []
    && Init(log[0])
    && forall i | 0 <= i < |log| - 1 :: Next(log[i], log[i + 1])
  }

  // ---- What every world of a run satisfies ----

  ghost predicate Inv(w: World) {
    && (w.restore.Some? ==> InvRestore(w, w.restore.value))
    && w.jobs.Keys <= w.created
    && (forall j | j in w.jobs && w.jobs[j].completed :: j in w.everDone)
    && (!w.retargeted ==> SelectedNames(w) in {Err, Ok(w.plan)})
    && (w.restore.None? && !w.stale && !w.retargeted ==> w.created !! w.jobs.Keys)
  }

  ghost predicate InvRestore(w: World, o: Restore) {
    && o.version < w.next
    && (o.status.phase == Completed ==>
          AllCompleted(o.status.entries) && (!w.retargeted ==> Planned(w, o.status.entries)))
    && (!o.finalizer ==> w.created == {} && o.status == Status(Unset, []) && !o.deleting)
    && (!w.retargeted ==> PlannedStatus(w, o.status.entries) && w.created <= Listed(o.status.entries))
  }

  /** How a later world of a run differs from an earlier one. */
  ghost predicate Later(a: World, b: World) {
    && b.name == a.name && b.plan == a.plan && (!b.retargeted ==> b.selector == a.selector)
    && a.next <= b.next
    && (a.stale ==> b.stale) && (a.misled ==> b.misled) && (a.retargeted ==> b.retargeted)
    && a.everDone <= b.everDone && a.created <= b.created
    && (a.restore.None? ==> b.restore.None? && (!b.stale ==> NoNewJobs(a, b)))
    && (a.restore.Some? ==> LaterJobs(a, b, a.restore.value.status))
    && (a.restore.Some? && b.restore.Some? ==> LaterRestore(b, a.restore.value, b.restore.value))
  }

  /** No Job appears for a Completed entry, nor any once the whole restore is Completed. */
  ghost predicate LaterJobs(a: World, b: World, s: Status) {
    && (s.phase == Completed && !b.stale ==> NoNewJobs(a, b))
    && (Steady(b) ==> forall e | e in s.entries && e.phase == Completed && e.job in b.jobs :: OlderJob(a, b, e.job))
  }

  /** The Job is not newer than `a`, and has not lost its completion time. */
  predicate OlderJob(a: World, b: World, job: string)
    requires job in b.jobs
  {
    job in a.jobs && (a.jobs[job].completed ==> b.jobs[job].completed)
  }

  predicate NoNewJobs(a: World, b: World) {
    forall job | job in b.jobs :: OlderJob(a, b, job)
  }

  ghost predicate LaterRestore(b: World, o: Restore, p: Restore) {
    && o.version <= p.version
    && (o.version == p.version ==> o == p)
    && (o.finalizer ==> p.finalizer) && (o.deleting ==> p.deleting)
    && (o.status.phase == Completed ==> p.status == o.status)
    && (!b.retargeted ==> Kept(b, o.status.entries, p.status.entries))
  }

  lemma InitInv(w: World)
    requires Init(w)
    ensures Inv(w)
  {
  }

  lemma ListedPlanned(w: World, entries: seq<Entry>)
    requires Planned(w, entries)
    ensures Listed(entries) == JobNames(w)
  {
    forall t | t in w.plan ensures JobName(w.name, t) in Listed(entries) {
      var i :| 0 <= i < |w.plan| && w.plan[i] == t;
      assert entries[i] in entries;
    }
  }

  /** Jobs that report or vanish harm nothing. */
  lemma JobsOnly(w: World, w': World)
    requires Inv(w)
    requires w' == w.(jobs := w'.jobs, everDone := w'.everDone) && w.everDone <= w'.everDone && NoNewJobs(w, w')
    requires forall j | j in w'.jobs && w'.jobs[j].completed :: j in w'.everDone
    ensures Inv(w') && Later(w, w')
  {
    hide RestoreTargets, AllCompleted;
    if w.restore.Some? {
      var entries := w.restore.value.status.entries;
      assert Planned(w', entries) == Planned(w, entries);
    }
  }

  lemma UserDeleteKeeps(w: World)
    requires Inv(w)
    ensures Inv(Env(w, UserDelete)) && Later(w, Env(w, UserDelete))
  {
    hide RestoreTargets, AllCompleted;
  }

  lemma TouchKeeps(w: World)
    requires Inv(w)
    ensures Inv(Env(w, Touch)) && Later(w, Env(w, Touch))
  {
    hide RestoreTargets, AllCompleted;
  }

  lemma EditClusterKeeps(w: World, instances: seq<Instance>)
    requires Inv(w)
    ensures Inv(Env(w, EditCluster(instances))) && Later(w, Env(w, EditCluster(instances)))
  {
    hide RestoreTargets, AllCompleted;
  }

  lemma EditBackupKeeps(w: World, backup: Command.Backup)
    requires Inv(w)
    ensures Inv(Env(w, EditBackup(backup))) && Later(w, Env(w, EditBackup(backup)))
  {
    hide RestoreTargets, AllCompleted;
  }

  lemma EditSelectorKeeps(w: World, selector: Option<Selector>)
    requires Inv(w)
    ensures Inv(Env(w, EditSelector(selector))) && Later(w, Env(w, EditSelector(selector)))
  {
    hide RestoreTargets, AllCompleted;
  }

  lemma EnvKeeps(w: World, a: EnvAction)
    requires Inv(w)
    ensures Inv(Env(w, a)) && Later(w, Env(w, a))
  {
    hide Inv, Later, Env;
    match a {
      case Progress(_, _) => JobProgress(w, a);
      case JobRemoved(_) => JobProgress(w, a);
      case UserDelete => UserDeleteKeeps(w);
      case Touch => TouchKeeps(w);
      case EditCluster(instances) => EditClusterKeeps(w, instances);
      case EditBackup(backup) => EditBackupKeeps(w, backup);
      case EditSelector(selector) => EditSelectorKeeps(w, selector);
    }
  }

  lemma JobProgress(w: World, a: EnvAction)
    requires Inv(w) && (a.Progress? || a.JobRemoved?)
    ensures Inv(Env(w, a)) && Later(w, Env(w, a))
  {
    hide InvRestore, Later;
    JobsOnly(w, Env(w, a));
  }

  lemma CreateKeeps(w: World, job: string)
    requires Inv(w) && Promised(w, Create(job))
    ensures Inv(Do(w, Create(job))) && Later(w, Do(w, Create(job)))
  {
    CreateInv(w, job);
    CreateLater(w, job);
  }

  lemma CreateInv(w: World, job: string)
    requires Inv(w) && Promised(w, Create(job))
    ensures Inv(Do(w, Create(job)))
  {
    hide RestoreTargets, AllCompleted;
    if !w.retargeted && w.restore.Some? {
      ListedPlanned(w, w.restore.value.status.entries);
    }
  }

  lemma CreateLater(w: World, job: string)
    requires Inv(w) && Promised(w, Create(job))
    ensures Later(w, Do(w, Create(job)))
  {
    hide RestoreTargets, AllCompleted;
  }

  lemma WriteKeeps(w: World, s: Status)
    requires Inv(w) && Promised(w, Write(s))
    ensures Inv(Do(w, Write(s))) && Later(w, Do(w, Write(s)))
  {
    hide Inv, Later, Promised;
    WriteInv(w, s);
    WriteLater(w, s);
  }

  lemma WriteInv(w: World, s: Status)
    requires Inv(w) && Promised(w, Write(s))
    ensures Inv(Do(w, Write(s)))
  {
    hide RestoreTargets;
    if !w.retargeted {
      if Planned(w, s.entries) { ListedPlanned(w, s.entries); }
      if Planned(w, w.restore.value.status.entries) { ListedPlanned(w, w.restore.value.status.entries); }
    }
  }

  lemma WriteLater(w: World, s: Status)
    requires Inv(w) && Promised(w, Write(s))
    ensures Later(w, Do(w, Write(s)))
  {
    hide RestoreTargets;
  }

  lemma NoteKeeps(w: World, r: Request)
    requires Inv(w) && (r.Miss? || r.Mislead?)
    ensures Inv(Do(w, r)) && Later(w, Do(w, r))
  {
    hide RestoreTargets, AllCompleted;
  }

  lemma AddFinalizerKeeps(w: World)
    requires Inv(w) && Promised(w, AddFinalizer)
    ensures Inv(Do(w, AddFinalizer)) && Later(w, Do(w, AddFinalizer))
  {
    hide RestoreTargets, AllCompleted;
  }

  lemma RemoveKeeps(w: World, job: string)
    requires Inv(w) && Promised(w, Remove(job))
    ensures Inv(Do(w, Remove(job))) && Later(w, Do(w, Remove(job)))
  {
    hide InvRestore, Later;
    JobsOnly(w, Do(w, Remove(job)));
  }

  lemma DropKeeps(w: World)
    requires Inv(w) && Promised(w, Drop)
    ensures Inv(Do(w, Drop)) && Later(w, Do(w, Drop))
  {
    hide RestoreTargets, AllCompleted;
    if !w.retargeted { DroppedClean(w); }
  }

  /** No Job that was created is left when the finalizer is dropped. */
  lemma DroppedClean(w: World)
    requires Inv(w) && Promised(w, Drop) && !w.retargeted
    ensures w.created !! w.jobs.Keys
  {
    hide RestoreTargets, JobName;
    var entries := w.restore.value.status.entries;
    forall job | job in w.created ensures job !in w.jobs {
      assert job in Listed(entries);
      var k :| 0 <= k < |entries| && entries[k].job == job;
      JobNameNotEmpty(w.name, w.plan[k]);
      assert entries[k] in entries;
    }
  }

  lemma ControllerKeeps(w: World, r: Request)
    requires Inv(w) && Promised(w, r)
    ensures Inv(Do(w, r)) && Later(w, Do(w, r))
  {
    hide Inv, Later, Promised;
    match r {
      case Miss | Mislead => NoteKeeps(w, r);
      case AddFinalizer => AddFinalizerKeeps(w);
      case Write(s) => WriteKeeps(w, s);
      case Create(job) => CreateKeeps(w, job);
      case Remove(job) => RemoveKeeps(w, job);
      case Drop => DropKeeps(w);
    }
  }

  lemma NextKeeps(w: World, w': World)
    requires Inv(w) && Next(w, w')
    ensures Inv(w') && Later(w, w')
  {
    hide Inv, Later, Env, Do;
    if EnvStep(w, w') {
      var a :| w' == Env(w, a);
      EnvKeeps(w, a);
    } else {
      var r :| Promised(w, r) && w' == Do(w, r);
      ControllerKeeps(w, r);
    }
  }

  lemma LaterSelf(w: World)
    requires Inv(w)
    ensures Later(w, w)
  {
  }

  lemma LaterTransitive(a: World, b: World, c: World)
    requires Inv(a) && Later(a, b) && Later(b, c)
    ensures Later(a, c)
  {
    hide RestoreTargets;
    if a.restore.Some? && Steady(c) {
      var s := a.restore.value.status;
      forall e | e in s.entries && e.phase == Completed && e.job in c.jobs
        ensures OlderJob(a, c, e.job)
      {
        if b.restore.Some? {
          var i :| 0 <= i < |s.entries| && s.entries[i] == e;
          var e' := b.restore.value.status.entries[i];
          assert e'.phase == Completed && e'.job == e.job;
        }
      }
    }
  }

  lemma {:induction false} RunInv(log: seq<World>, i: nat)
    requires Run(log) && i < |log|
    ensures Inv(log[i])
  {
    if i == 0 { InitInv(log[0]); } else {
      RunInv(log, i - 1);
      NextKeeps(log[i - 1], log[i]);
    }
  }

  lemma {:induction false} RunLater(log: seq<World>, i: nat, j: nat)
    requires Run(log) && i <= j < |log|
    ensures Later(log[i], log[j])
  {
    hide Inv, Later, Next, Init;
    RunInv(log, i);
    if i == j { LaterSelf(log[i]); } else {
      RunLater(log, i, j - 1);
      RunInv(log, j - 1);
      NextKeeps(log[j - 1], log[j]);
      LaterTransitive(log[i], log[j - 1], log[j]);
    }
  }

  lemma RunGrows(log: seq<World>, w: World)
    requires Run(log) && Next(log[|log| - 1], w)
    ensures Run(log + [w])
  {
  }

  lemma RequestGrows(log: seq<World>, r: Request)
    requires Run(log) && Promised(log[|log| - 1], r)
    ensures Run(log + [Do(log[|log| - 1], r)])
  {
    var w := log[|log| - 1];
    assert ControllerStep(w, Do(w, r));
    RunGrows(log, Do(w, r));
  }

  lemma EnvGrows(log: seq<World>, a: EnvAction)
    requires Run(log)
    ensures Run(log + [Env(log[|log| - 1], a)])
  {
    var w := log[|log| - 1];
    assert EnvStep(w, Env(w, a));
    RunGrows(log, Env(w, a));
  }
}
