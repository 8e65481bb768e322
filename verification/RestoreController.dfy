/** controllers/postgresrestore_controller.go: the reconciler. It runs against a script
    that says, request by request, what the environment does first, how far behind a cache
    is, and what becomes of the request; the script is arbitrary, and a script that has
    run out means no interference and no fault. */
module RestoreController {
  import opened Types
  import opened Selection
  import opened RestoreProtocol
  import opened RestorePass
  import Command = RestoreCommand

  datatype Event = Event(env: seq<EnvAction>, lag: nat, fate: Fate)

  /** `Rejected` is a conflict or AlreadyExists; `Down` means the operator has died. */
  datatype Reply = Accepted | NotFound | Rejected | Error | Down

  /** The environment acted and reads were made; the controller wrote nothing. */
  ghost predicate Unwritten(w: World, w': World) {
    && Inv(w') && Later(w, w') && w'.created == w.created && NoNewJobs(w, w')
    && (w.restore.Some? && w.restore.value.finalizer ==> w'.restore.Some?)
    && (w.restore.Some? && w'.restore.Some? ==> w'.restore.value.status == w.restore.value.status)
  }

  lemma UnwrittenSelf(w: World)
    requires Inv(w)
    ensures Unwritten(w, w)
  {
  }

  lemma UnwrittenTransitive(a: World, b: World, c: World)
    requires Inv(a) && Unwritten(a, b) && Unwritten(b, c)
    ensures Unwritten(a, c)
  {
    hide Inv, LaterJobs;
    LaterTransitive(a, b, c);
  }

  lemma EnvUnwritten(w: World, a: EnvAction)
    requires Inv(w)
    ensures Unwritten(w, Env(w, a)) && Next(w, Env(w, a))
  {
    hide RestoreTargets, Inv, Later;
    EnvKeeps(w, a);
  }

  lemma NoteUnwritten(w: World, r: Request)
    requires Inv(w) && (r.Miss? || r.Mislead?)
    ensures Unwritten(w, Do(w, r)) && Next(w, Do(w, r))
  {
    hide RestoreTargets, Inv, Later;
    ControllerKeeps(w, r);
    assert Promised(w, r);
  }

  lemma UnwrittenInv(w: World, w': World)
    requires Unwritten(w, w')
    ensures Inv(w')
  {
  }

  lemma Missed(before: World, w: World, seen: World)
    requires Inv(before) && Unwritten(before, w) && Unwritten(w, Do(w, Miss)) && Later(seen, w) && Inv(seen)
    ensures Unwritten(before, Do(w, Miss)) && Later(seen, Do(w, Miss)) && Do(w, Miss).stale
  {
    hide Inv, LaterJobs;
    UnwrittenTransitive(before, w, Do(w, Miss));
    LaterTransitive(seen, w, Do(w, Miss));
  }

  lemma Misled(before: World, w: World, name: string)
    requires Inv(before) && Unwritten(before, w) && Unwritten(w, Do(w, Mislead))
    ensures Unwritten(before, Do(w, Mislead)) && Do(w, Mislead).misled && Do(w, Mislead).everDone == w.everDone
  {
    hide Inv, LaterJobs;
    UnwrittenTransitive(before, w, Do(w, Mislead));
  }

  lemma StartWorking(w: World, seen: World)
    requires Inv(w) && Inv(seen) && Later(seen, w) && (!w.stale ==> seen.restore == w.restore) && seen.restore.Some?
    requires seen.restore.value.finalizer && !seen.restore.value.deleting
    requires seen.restore.value.status.phase != Completed
    ensures Working(w, seen, seen.restore.value) && Intact(w, seen)
  {
    hide RestoreTargets;
  }

  /** A pass that read the restore at `start`, where it was being deleted. */
  ghost predicate Deleting(w: World, start: World) {
    && Inv(start) && Inv(w) && Later(start, w)
    && start.restore.Some? && start.restore.value.deleting
    && (!w.stale ==> w.restore.Some?)
  }

  lemma StillDeleting(w: World, w': World, start: World)
    requires Deleting(w, start) && Unwritten(w, w')
    ensures Deleting(w', start) && w'.jobs.Keys <= w.jobs.Keys
    ensures w'.restore.Some? ==> w'.restore.value.deleting
  {
    hide RestoreTargets, LaterJobs;
    LaterTransitive(start, w, w');
    assert forall j | j in w'.jobs :: OlderJob(w, w', j);
  }

  lemma RemovedJob(w: World, start: World, job: string)
    requires Deleting(w, start) && Promised(w, Remove(job))
    ensures Deleting(Do(w, Remove(job)), start)
  {
    hide RestoreTargets, LaterJobs;
    ControllerKeeps(w, Remove(job));
    LaterTransitive(start, w, Do(w, Remove(job)));
  }

  lemma QuietDeletion(w: World)
    requires w.restore.Some? && w.restore.value.deleting
    ensures QuietPass(w) == Do(w.(jobs := w.jobs - NamedJobs(w.restore.value.status.entries)), Drop)
  {
  }

  /** None of the Jobs these entries name exists. */
  predicate Purged(w: World, entries: seq<Entry>) {
    forall e | e in entries && e.job != "" :: e.job !in w.jobs
  }

  lemma NoNamedJobs(jobs: map<string, Job>, entries: seq<Entry>)
    ensures jobs - NamedJobs(entries[..0]) == jobs
    ensures forall w :: Purged(w, entries[..0])
  {
  }

  lemma NamedJobsNext(jobs: map<string, Job>, entries: seq<Entry>, i: nat)
    requires i < |entries|
    ensures var before := jobs - NamedJobs(entries[..i]);
            jobs - NamedJobs(entries[..i + 1]) == if entries[i].job == "" then before else before - {entries[i].job}
  {
    assert entries[..i + 1] == entries[..i] + [entries[i]];
  }

  // ---- What a pass knows between two requests ----

  /** `start` is the world whose restore object `d` was read or last written at. */
  ghost predicate Working(w: World, start: World, d: Restore) {
    && Inv(w) && Later(start, w) && start.restore.Some?
    && var base := start.restore.value;
       && d.version == base.version
       && d.finalizer && base.finalizer && !d.deleting && !base.deleting
       && base.status.phase != Completed
       && (!w.retargeted ==> PlannedStatus(w, d.status.entries) && Kept(w, base.status.entries, d.status.entries))
  }

  /** No write has been lost: the persisted status is still the one `d` was read with. */
  ghost predicate Intact(w: World, start: World) {
    start.restore.Some? && !w.stale ==> w.restore.Some? && w.restore.value.status == start.restore.value.status
  }

  /** Inside the loop over the targets. */
  ghost predicate Looping(w: World, start: World, d: Restore, names: seq<string>) {
    && Working(w, start, d) && Intact(w, start)
    && |d.status.entries| == |names|
    && (!w.retargeted ==> names == w.plan && Planned(w, start.restore.value.status.entries))
  }

  lemma StillWorking(w: World, w': World, start: World, d: Restore)
    requires Inv(start) && Working(w, start, d) && Unwritten(w, w')
    ensures Working(w', start, d) && (w.retargeted ==> w'.retargeted)
    ensures Intact(w, start) ==> Intact(w', start)
    ensures forall names: seq<string> | Looping(w, start, d, names) :: Looping(w', start, d, names)
  {
    hide RestoreTargets;
    LaterTransitive(start, w, w');
  }

  /** A write that is accepted meets the very object `d` was read with. */
  lemma MayWrite(w: World, start: World, d: Restore, s: Status)
    requires Working(w, start, d) && Accepts(w, Write(s), d.version)
    requires s.phase == Completed ==> AllCompleted(s.entries) && (!w.retargeted ==> Planned(w, s.entries))
    requires !w.retargeted ==> PlannedStatus(w, s.entries) && Kept(w, start.restore.value.status.entries, s.entries)
    ensures Promised(w, Write(s))
  {
    hide RestoreTargets, Inv;
  }

  lemma MayCreate(w: World, start: World, d: Restore, names: seq<string>, i: nat)
    requires Looping(w, start, d, names) && i < |names| && d.status.entries[i].phase != Completed
    requires Accepts(w, Create(JobName(w.name, names[i])), d.version)
    ensures Promised(w, Create(JobName(w.name, names[i])))
  {
    hide RestoreTargets, JobName;
    var job := JobName(w.name, names[i]);
    if Steady(w) {
      var entries := w.restore.value.status.entries;
      forall e | e in entries && e.job == job ensures e.phase != Completed {
        var k :| 0 <= k < |entries| && entries[k] == e;
        JobNameInjective(w.name, w.plan[k], w.plan[i]);
      }
    }
  }

  /** No finished entry has the Job of an unfinished target. */
  lemma FinishedElsewhere(w: World, start: World, d: Restore, names: seq<string>, i: nat)
    requires Looping(w, start, d, names) && i < |names| && d.status.entries[i].phase != Completed && OnPlan(w)
    ensures forall e | e in d.status.entries && e.phase == Completed :: e.job != JobName(w.name, names[i])
  {
    hide RestoreTargets, JobName, Inv, Later;
    var entries := d.status.entries;
    forall e | e in entries && e.phase == Completed ensures e.job != JobName(w.name, names[i]) {
      var k :| 0 <= k < |entries| && entries[k] == e;
      if e.job == JobName(w.name, names[i]) { JobNameInjective(w.name, w.plan[k], w.plan[i]); }
    }
  }

  lemma CreatedPlanned(w: World, entries: seq<Entry>, job: string)
    requires PlannedStatus(w, entries)
    requires OnPlan(w) ==> forall e | e in entries && e.phase == Completed :: e.job != job
    ensures PlannedStatus(Do(w, Create(job)), entries)
  {
    hide RestoreTargets, JobName;
  }

  /** A created Job leaves what the loop knows intact. */
  lemma CreatedWorking(w: World, start: World, d: Restore, names: seq<string>, i: nat)
    requires Inv(start) && Looping(w, start, d, names) && i < |names| && d.status.entries[i].phase != Completed
    requires Promised(w, Create(JobName(w.name, names[i])))
    ensures Looping(Do(w, Create(JobName(w.name, names[i]))), start, d, names)
  {
    hide RestoreTargets, JobName, PlannedStatus, Inv, Later, OnPlan;
    var job := JobName(w.name, names[i]);
    CreateKeeps(w, job);
    LaterTransitive(start, w, Do(w, Create(job)));
    if OnPlan(w) { FinishedElsewhere(w, start, d, names, i); }
    if !w.retargeted { CreatedPlanned(w, d.status.entries, job); }
  }

  lemma StartDeleting(before: World, w: World, seen: World)
    requires Inv(w) && Inv(seen) && Later(seen, w) && (!w.stale ==> seen.restore == w.restore)
    requires seen.restore.Some? && seen.restore.value.deleting
    ensures Deleting(w, seen)
  {
  }

  lemma ReadLater(seen: World, w: World, w': World)
    requires Inv(seen) && Later(seen, w) && Unwritten(w, w')
    ensures Later(seen, w')
  {
    LaterTransitive(seen, w, w');
  }

  /** The targets found in the cluster as it was read are the planned ones. */
  lemma PlannedNames(cluster: World, read: World, w: World, d: Restore, targets: seq<Instance>)
    requires Inv(cluster) && Later(cluster, w) && Working(w, read, d)
    requires RestoreTargets(cluster.instances, read.selector) == Ok(targets)
    ensures !w.retargeted ==> Names(targets) == w.plan
  {
    hide RestoreTargets;
    assert !w.retargeted ==> cluster.selector == read.selector;
  }

  lemma StartLooping(w: World, start: World, d: Restore, names: seq<string>)
    requires Inv(start) && Working(w, start, d) && Intact(w, start)
    requires !w.retargeted ==> names == w.plan
    requires |d.status.entries| == |names| == |start.restore.value.status.entries|
    ensures Looping(w, start, d, names)
  {
    hide RestoreTargets;
  }

  /** Fresh entries may replace entries of another length. */
  lemma FreshFits(w: World, read: World, names: seq<string>)
    requires Later(read, w) && read.restore.Some? && |read.restore.value.status.entries| != |names|
    requires !w.retargeted ==> names == w.plan
    ensures !w.retargeted ==>
              PlannedStatus(w, Fresh(w.name, names)) && Kept(w, read.restore.value.status.entries, Fresh(w.name, names))
  {
    hide RestoreTargets, JobName;
  }

  /** After an accepted write the draft stands at the new object. */
  lemma WrittenWorking(w: World, start: World, d: Restore, s: Status)
    requires Inv(start) && Working(w, start, d) && Promised(w, Write(s)) && s.phase != Completed
    ensures var w' := Do(w, Write(s));
            Working(w', w', d.(version := w.next, status := s)) && Intact(w', w') && Inv(w')
  {
    hide RestoreTargets, JobName;
    WriteKeeps(w, s);
    LaterSelf(Do(w, Write(s)));
  }

  /** After a write whose answer was lost the draft still stands at the old object. */
  lemma LostWorking(w: World, start: World, d: Restore, s: Status)
    requires Inv(start) && Working(w, start, d) && Promised(w, Write(s)) && s == d.status
    ensures Working(Do(w, Write(s)), start, d)
  {
    hide RestoreTargets, JobName;
    WriteKeeps(w, s);
    LaterTransitive(start, w, Do(w, Write(s)));
  }

  lemma SeenJob(seen: World, w: World, job: string)
    requires Inv(seen) && Later(seen, w) && job in seen.jobs
    ensures seen.jobs[job].completed ==> job in w.everDone
  {
  }

  lemma EntryJob(w: World, start: World, d: Restore, names: seq<string>, i: nat)
    requires Looping(w, start, d, names) && i < |names|
    ensures |d.status.entries| == |names| && Working(w, start, d)
    ensures !w.retargeted ==> d.status.entries[i].job == JobName(w.name, names[i])
  {
    hide RestoreTargets, JobName;
  }

  /** The entries once the phase that Job `name` reports is taken over. */
  function Noted(w: World, entries: seq<Entry>, i: nat, name: string): seq<Entry>
    requires i < |entries|
  {
    if name in w.jobs then entries[i := entries[i].(phase := Observe(entries[i].phase, w.jobs[name]))] else entries
  }

  /** What finding or creating the Job of an unfinished entry does without faults. */
  ghost predicate Ensured(w: World, names: seq<string>, entries: seq<Entry>, i: nat,
                          r: Outcome, name: string, w': World, entries': seq<Entry>)
    requires i < |names| == |entries|
  {
    var e, job := entries[i], JobName(w.name, names[i]);
    if e.job in w.jobs then r == Finished && name == e.job && w' == w && entries' == entries
    else if !Buildable(w.backup) || job in w.jobs then r == Errored && w' == w && entries' == entries
    else r == Finished && name == job && w' == Do(w, Create(job)) && entries' == entries[i := e.(phase := Running)]
  }

  /** What one iteration of the loop over the targets does without faults. */
  ghost predicate Processed(w: World, names: seq<string>, entries: seq<Entry>, i: nat,
                            r: Outcome, w': World, entries': seq<Entry>)
  {
    && i < |names| == |entries| == |entries'|
    && r != Died && w'.restore == w.restore && w'.backup == w.backup
    && Process(w, names, entries, i)
       == if r == Finished then Process(w', names, entries', i + 1) else Loop(w', entries', false)
  }

  lemma EnsuredProcess(w: World, names: seq<string>, entries: seq<Entry>, i: nat,
                       r: Outcome, name: string, w': World, entries': seq<Entry>)
    requires i < |names| == |entries| == |entries'| && entries[i].phase != Completed
    requires Ensured(w, names, entries, i, r, name, w', entries')
    ensures Processed(w, names, entries, i, r, w', if r == Finished then Noted(w', entries', i, name) else entries')
  {
    hide Buildable, JobName;
    if w' != w {
      assert entries'[i := entries'[i].(phase := Running)] == entries';
    }
  }

  lemma CompletedSkipped(w: World, names: seq<string>, entries: seq<Entry>, i: nat)
    requires i < |names| == |entries| && entries[i].phase == Completed
    ensures Processed(w, names, entries, i, Finished, w, entries)
  {
  }

  lemma LoopLength(w: World, start: World, d: Restore, names: seq<string>)
    requires Looping(w, start, d, names)
    ensures |d.status.entries| == |names| && start.restore.Some?
  {
  }

  lemma LoopEnds(w: World, names: seq<string>, entries: seq<Entry>)
    requires |names| == |entries|
    ensures Process(w, names, entries, |names|) == Loop(w, entries, true)
  {
  }

  lemma ObserveCompleted(p: Phase, job: Job)
    requires p != Completed
    ensures Observe(p, job) == Completed <==> job.completed
  {
  }

  /** An unfinished entry may take any phase its Job gives it. */
  lemma SetPhase(w: World, start: World, d: Restore, names: seq<string>, i: nat, p: Phase)
    requires Looping(w, start, d, names) && i < |names| && d.status.entries[i].phase != Completed
    requires p == Completed && !w.retargeted ==>
               d.status.entries[i].job in w.everDone && (Reliable(w) ==> Settled(w, d.status.entries[i].job))
    ensures var entries := d.status.entries[i := d.status.entries[i].(phase := p)];
            Looping(w, start, d.(status := d.status.(entries := entries)), names)
  {
    hide RestoreTargets, JobName, Inv, Later;
    if !w.retargeted {
      var old_ := d.status.entries;
      var new_ := old_[i := old_[i].(phase := p)];
      forall e | e in new_ && e.phase == Completed && e !in old_ ensures e.job == old_[i].job { }
    }
  }

  /** The restore object as the reconciler holds it in memory. */
  class Draft {
    const selector: Option<Selector>
    var version: nat
    var finalizer: bool
    var deleting: bool
    var phase: Phase
    var entries: seq<Entry>

    constructor (o: Restore, selector: Option<Selector>)
      ensures Value() == o && this.selector == selector
    {
      this.selector := selector;
      version, finalizer, deleting := o.version, o.finalizer, o.deleting;
      phase, entries := o.status.phase, o.status.entries;
    }

    function Value(): Restore
      reads this
    {
      Restore(version, finalizer, deleting, Status(phase, entries))
    }
  }

  class Reconciler {
    var log: seq<World>
    var script: seq<Event>

    constructor (log: seq<World>, script: seq<Event>)
      requires log != [] && Run(log)
      ensures Valid() && this.log == log && this.script == script
    {
      this.log, this.script := log, script;
    }

    ghost predicate Valid()
      reads this
    {
      log != [] && Run(log)
    }

    function Now(): World
      reads this
      requires log != []
    {
      log[|log| - 1]
    }

    /** The environment's turn before a request. */
    method Tick() returns (lag: nat, fate: Fate)
      requires Valid()
      modifies this
      ensures Valid() && old(log) <= log && Unwritten(old(Now()), Now())
      ensures old(script) == [] ==> script == [] && log == old(log) && lag == 0 && fate == Served
    {
      RunInv(log, |log| - 1);
      UnwrittenSelf(Now());
      if script == [] { return 0, Served; }
      var e := script[0];
      script := script[1..];
      for i := 0 to |e.env|
        invariant Valid() && old(log) <= log && Inv(Now()) && Unwritten(old(Now()), Now())
      {
        EnvUnwritten(Now(), e.env[i]);
        UnwrittenTransitive(old(Now()), Now(), Env(Now(), e.env[i]));
        RunGrows(log, Env(Now(), e.env[i]));
        log := log + [Env(Now(), e.env[i])];
      }
      return e.lag, e.fate;
    }

    /** Waits for the environment's turn and picks the world a cached read sees. */
    method ReadWorld() returns (reply: Reply, seen: World)
      requires Valid()
      modifies this
      ensures Valid() && old(log) <= log && Unwritten(old(Now()), Now())
      ensures reply in {Accepted, Error, Down}
      ensures Inv(seen) && Later(seen, Now())
      ensures old(script) == [] ==> script == [] && log == old(log) && reply == Accepted && seen == Now()
    {
      hide Inv, Later, Unwritten;
      var lag, fate := Tick();
      var k := if lag < |log| then |log| - 1 - lag else 0;
      seen := log[k];
      RunInv(log, k);
      RunLater(log, k, |log| - 1);
      reply := if fate == Served then Accepted else if fate == Crash then Down else Error;
    }

    /** Records what a read has missed. */
    method Note(q: Request)
      requires Valid() && Inv(Now()) && (q.Miss? || q.Mislead?)
      modifies this`log
      ensures Valid() && old(log) <= log && Now() == Do(old(Now()), q) && Unwritten(old(Now()), Now())
    {
      NoteUnwritten(Now(), q);
      RunGrows(log, Do(Now(), q));
      log := log + [Do(Now(), q)];
    }

    /** Reads the restore object, perhaps in an old version. */
    method ReadRestore() returns (reply: Reply, seen: World)
      requires Valid()
      modifies this
      ensures Valid() && old(log) <= log && Unwritten(old(Now()), Now())
      ensures reply in {Accepted, Error, Down}
      ensures Inv(seen) && Later(seen, Now())
      ensures reply == Accepted && !Now().stale ==> seen.restore == Now().restore
      ensures old(script) == [] ==> script == [] && log == old(log) && reply == Accepted && seen == Now()
    {
      RunInv(log, |log| - 1);
      hide Run, Inv, Later, Unwritten;
      ghost var before := Now();
      reply, seen := ReadWorld();
      if reply == Accepted && seen.restore != Now().restore {
        ghost var middle := Now();
        UnwrittenInv(before, middle);
        Note(Miss);
        Missed(before, middle, seen);
      }
    }

    /** Reads one Job, perhaps an earlier one of its name. */
    method ReadJob(name: string) returns (reply: Reply, job: Option<Job>)
      requires Valid()
      modifies this
      ensures Valid() && old(log) <= log && Unwritten(old(Now()), Now())
      ensures reply in {Accepted, Error, Down}
      ensures job.Some? && job.value.completed ==> name in Now().everDone && (!Now().misled ==> Settled(Now(), name))
      ensures old(script) == [] ==>
                script == [] && log == old(log) && reply == Accepted
                && job == if name in Now().jobs then Some(Now().jobs[name]) else None
    {
      RunInv(log, |log| - 1);
      hide Run, Inv, Later, Unwritten;
      ghost var before := Now();
      var seen;
      reply, seen := ReadWorld();
      if reply != Accepted || name !in seen.jobs { return reply, None; }
      job := Some(seen.jobs[name]);
      SeenJob(seen, Now(), name);
      if job.value.completed && !Settled(Now(), name) {
        ghost var middle := Now();
        UnwrittenInv(before, middle);
        Note(Mislead);
        Misled(before, middle, name);
      }
    }

    /** Sends a request whose promise holds wherever the environment may have gone.
        `mid` is the world it meets, `took` whether it takes effect there. */
    method Submit(r: Request, v: nat) returns (reply: Reply, ghost mid: World, ghost took: bool)
      requires Valid() && !r.Miss? && !r.Mislead?
      requires forall w :: Unwritten(Now(), w) && Accepts(w, r, v) ==> Promised(w, r)
      modifies this
      ensures Valid() && old(log) <= log && Unwritten(old(Now()), mid)
      ensures took ==> Accepts(mid, r, v) && Promised(mid, r)
      ensures Now() == if took then Do(mid, r) else mid
      ensures reply == Accepted ==> took
      ensures reply in {NotFound, Rejected} ==> !Accepts(mid, r, v)
      ensures reply == Down ==> !took
      ensures old(script) == [] ==>
                script == [] && mid == old(Now()) &&
                reply == if Accepts(mid, r, v) then Accepted
                         else if r.Remove? || (!r.Create? && mid.restore.None?) then NotFound else Rejected
    {
      hide Unwritten, Promised, Env, Do, Inv;
      var _, fate := Tick();
      var w := Now();
      mid := w;
      if fate == Crash { return Down, mid, false; }
      var ok := Accepts(w, r, v);
      took := Applied(fate) && ok;
      if Applied(fate) && ok {
        RunGrows(log, Do(w, r));
        log := log + [Do(w, r)];
      }
      if fate != Served { return Error, mid, took; }
      if ok { return Accepted, mid, took; }
      reply := if r.Remove? || (!r.Create? && w.restore.None?) then NotFound else Rejected;
    }

    // ---- The reconciler ----

    method Reconcile() returns (r: Outcome)
      requires Valid()
      modifies this
      ensures Valid() && old(log) <= log
      ensures old(script) == [] ==> script == [] && r != Died && Now() == QuietPass(old(Now()))
    {
      hide Run, Later, Process, Unwritten, Reconciled, RestoreTargets;
      var reply, seen := ReadRestore();
      if reply == Down { return Died; }
      if reply == Error { return Errored; }
      if seen.restore.None? { return Finished; }
      var d := new Draft(seen.restore.value, seen.selector);
      RunInv(log, |log| - 1);

      if d.deleting {
        assert Deleting(Now(), seen) by { StartDeleting(old(Now()), Now(), seen); }
        r := HandleDeletion(d, seen);
      } else if !d.finalizer {
        r := AddsFinalizer(d, seen);
      } else if d.phase == Completed {
        r := Finished;
      } else {
        assert Working(Now(), seen, d.Value()) && Intact(Now(), seen) by { StartWorking(Now(), seen); }
        r := ReconcileLive(d, seen);
      }
    }

    method AddsFinalizer(d: Draft, ghost start: World) returns (r: Outcome)
      requires Valid() && Inv(start) && Later(start, Now()) && start.restore == Some(d.Value()) && !d.deleting
      modifies this, d
      ensures Valid() && old(log) <= log
      ensures old(script) == [] && start == old(Now()) ==>
                script == [] && r == Finished && Now() == Do(old(Now()), AddFinalizer)
    {
      forall w | Unwritten(Now(), w) && Accepts(w, AddFinalizer, d.version) ensures Promised(w, AddFinalizer) {
        LaterTransitive(start, Now(), w);
      }
      d.finalizer := true;
      var reply, _, _ := Submit(AddFinalizer, d.version);
      r := if reply == Accepted then Finished else if reply == Down then Died else Errored;
    }

    /** A pass over a live, unfinished restore. */
    method ReconcileLive(d: Draft, ghost read: World) returns (r: Outcome)
      requires Valid() && Inv(read) && Working(Now(), read, d.Value()) && Intact(Now(), read)
      requires read.restore == Some(d.Value()) && read.selector == d.selector
      modifies this, d
      ensures Valid() && old(log) <= log
      ensures old(script) == [] && read == old(Now()) ==>
                script == [] && r != Died && Now() == match SelectedNames(read)
                                                      case Err => Persist(read, Failed, old(d.entries))
                                                      case Ok(names) => Reconciled(read, read.restore.value, names)
    {
      hide Run, Later, Unwritten, RestoreTargets, Process, Working, Intact, Inv, Do;
      ghost var w0, value := Now(), d.Value();
      var clusterReply, cluster := ReadWorld();
      StillWorking(w0, Now(), read, value);
      if clusterReply == Down { return Died; }
      if clusterReply == Error {
        r := HandleError(d, read);
        return;
      }
      ghost var w1 := Now();
      var backupReply, backup := ReadWorld();
      StillWorking(w1, Now(), read, value);
      if backupReply == Down { return Died; }
      if backupReply == Error {
        r := HandleError(d, read);
        return;
      }
      assert Later(cluster, Now()) by { ReadLater(cluster, w1, Now()); }
      var ok, start := ReconcileRestore(d, cluster, backup.backup, read);
      if ok == Errored {
        r := HandleError(d, start);
      } else {
        r := ok;
      }
    }

    /** Records the failure; it overwrites the phase but keeps the entries in memory. */
    method HandleError(d: Draft, ghost start: World) returns (r: Outcome)
      requires Valid() && Inv(start) && Working(Now(), start, d.Value())
      modifies this, d
      ensures Valid() && old(log) <= log
      ensures r == Errored || r == Died
      ensures old(script) == [] && old(Now()).restore == start.restore ==>
                script == [] && r == Errored && Now() == Persist(old(Now()), Failed, old(d.entries))
    {
      ghost var value := d.Value();
      d.phase := Failed;
      forall w | Unwritten(Now(), w) && Accepts(w, Write(d.Value().status), d.version)
        ensures Promised(w, Write(d.Value().status))
      {
        StillWorking(Now(), w, start, value);
        MayWrite(w, start, value, d.Value().status);
      }
      var reply, _, _ := Submit(Write(d.Value().status), d.version);
      r := if reply == Down then Died else Errored;
    }

    /** Deletes one Job of a restore that is being deleted. */
    method DeleteJob(job: string, ghost start: World) returns (reply: Reply)
      requires Valid() && Deleting(Now(), start)
      modifies this
      ensures Valid() && old(log) <= log && Deleting(Now(), start) && Now().jobs.Keys <= old(Now()).jobs.Keys
      ensures reply in {Accepted, NotFound} ==> job !in Now().jobs
      ensures old(script) == [] ==>
                script == [] && reply in {Accepted, NotFound} &&
                Now() == old(Now()).(jobs := old(Now()).jobs - {job})
    {
      ghost var before := Now();
      forall w | Unwritten(before, w) && Accepts(w, Remove(job), 0) ensures Promised(w, Remove(job)) {
        StillDeleting(before, w, start);
      }
      ghost var mid, took;
      reply, mid, took := Submit(Remove(job), 0);
      StillDeleting(before, mid, start);
      if took { RemovedJob(mid, start, job); }
    }

    method HandleDeletion(d: Draft, ghost start: World) returns (r: Outcome)
      requires Valid() && Deleting(Now(), start) && start.restore == Some(d.Value())
      modifies this, d
      ensures Valid() && old(log) <= log
      ensures old(script) == [] && start == old(Now()) ==>
                script == [] && r == Finished && Now() == QuietPass(old(Now()))
    {
      assert d.deleting;
      QuietDeletion(start);
      NoNamedJobs(start.jobs, d.entries);
      hide Run, Deleting, NamedJobs, QuietPass, Do, Purged;
      for i := 0 to |d.entries|
        invariant Valid() && old(log) <= log && Deleting(Now(), start) && d.Value() == old(d.Value())
        invariant Purged(Now(), d.entries[..i])
        invariant old(script) == [] && start == old(Now()) ==>
                    script == [] && Now() == start.(jobs := start.jobs - NamedJobs(d.entries[..i]))
      {
        r := DeleteEntry(d.entries, i, start);
        if r != Finished { return; }
      }
      assert d.entries[..|d.entries|] == d.entries;
      r := DropFinalizer(d, start);
    }

    method DeleteEntry(entries: seq<Entry>, i: nat, ghost start: World) returns (r: Outcome)
      requires Valid() && Deleting(Now(), start) && i < |entries| && Purged(Now(), entries[..i])
      modifies this
      ensures Valid() && old(log) <= log && Deleting(Now(), start)
      ensures r == Finished ==> Purged(Now(), entries[..i + 1])
      ensures old(script) == [] && old(Now()) == start.(jobs := start.jobs - NamedJobs(entries[..i])) ==>
                script == [] && r == Finished && Now() == start.(jobs := start.jobs - NamedJobs(entries[..i + 1]))
    {
      hide Run, Deleting, NamedJobs;
      NamedJobsNext(start.jobs, entries, i);
      assert entries[..i + 1] == entries[..i] + [entries[i]];
      if entries[i].job != "" {
        var reply := DeleteJob(entries[i].job, start);
        if reply != Accepted && reply != NotFound { return if reply == Down then Died else Errored; }
      }
      return Finished;
    }

    method DropFinalizer(d: Draft, ghost start: World) returns (r: Outcome)
      requires Valid() && Deleting(Now(), start) && start.restore == Some(d.Value())
      requires Purged(Now(), d.entries)
      modifies this, d
      ensures Valid() && old(log) <= log
      ensures old(script) == [] && start.restore == old(Now()).restore ==>
                script == [] && r == Finished && Now() == Do(old(Now()), Drop)
    {
      ghost var before := Now();
      forall w | Unwritten(before, w) && Accepts(w, Drop, d.version) ensures Promised(w, Drop) {
        StillDeleting(before, w, start);
        assert forall j | j in w.jobs :: OlderJob(before, w, j);
      }
      d.finalizer := false;
      var reply, _, _ := Submit(Drop, d.version);
      r := if reply == Accepted then Finished else if reply == Down then Died else Errored;
    }

    /** What a fault-free `reconcileRestore` does, from `read` with target list `names`. */
    ghost predicate RestoreResult(read: World, names: seq<string>, r: Outcome, start: World, d: Restore)
      reads this
      requires log != [] && read.restore.Some?
    {
      var (w1, entries) := Started(read, read.restore.value, names);
      var p := Process(w1, names, entries, 0);
      if p.ok then
        p.world.restore.Some? && r == Finished && Now() == Persist(p.world, Overall(p.entries), p.entries)
      else
        r == Errored && Now() == p.world && d.status.entries == p.entries && start.restore == Now().restore
    }

    method ReconcileRestore(d: Draft, cluster: World, backup: Command.Backup, ghost read: World)
      returns (r: Outcome, ghost start: World)
      requires Valid() && Inv(read) && Working(Now(), read, d.Value()) && Intact(Now(), read)
      requires read.restore == Some(d.Value()) && read.selector == d.selector
      requires Inv(cluster) && Later(cluster, Now())
      modifies this, d
      ensures Valid() && old(log) <= log && Inv(start)
      ensures r == Errored ==> Working(Now(), start, d.Value())
      ensures old(script) == [] && read == old(Now()) && cluster == read && backup == read.backup ==>
                script == [] &&
                match SelectedNames(read)
                case Err => r == Errored && Now() == read && start == read && d.entries == old(d.entries)
                case Ok(names) => RestoreResult(read, names, r, start, d.Value())
    {
      hide Run, Later, Unwritten, RestoreTargets, Process, Working, Looping, Intact, Inv, Do;
      start := read;
      var selected := SelectForRestore(cluster.instances, d.selector);
      if selected.Err? { return Errored, start; }
      var names := Names(selected.value);
      assert !Now().retargeted ==> names == Now().plan
        by { PlannedNames(cluster, read, Now(), d.Value(), selected.value); }

      if |d.entries| != |names| {
        r, start := InitialiseEntries(d, names, read);
        if r != Finished { return r, start; }
      }
      assert Looping(Now(), start, d.Value(), names) by { StartLooping(Now(), start, d.Value(), names); }
      ghost var quiet := old(script) == [] && read == old(Now()) && cluster == read && backup == read.backup;
      ghost var w1, entries1 := Now(), d.entries;
      assert quiet ==> script == [] && (w1, entries1) == Started(read, read.restore.value, names);

      for i := 0 to |names|
        invariant Valid() && old(log) <= log && Inv(start) && Looping(Now(), start, d.Value(), names)
        invariant |d.entries| == |names|
        invariant quiet ==>
                    script == [] && Now().restore == start.restore && Now().backup == backup
                    && Process(w1, names, entries1, 0) == Process(Now(), names, d.entries, i)
      {
        r := ProcessInstance(d, names, i, backup, start);
        if r != Finished { return r, start; }
        LoopLength(Now(), start, d.Value(), names);
      }
      LoopLength(Now(), start, d.Value(), names);
      LoopEnds(Now(), names, d.entries);
      r := UpdateRestoreStatus(d, start, names);
    }

    /** Writes the names of all Jobs before any of them is created. */
    method InitialiseEntries(d: Draft, names: seq<string>, ghost read: World) returns (r: Outcome, ghost start: World)
      requires Valid() && Inv(read) && Working(Now(), read, d.Value()) && Intact(Now(), read)
      requires read.restore == Some(d.Value()) && |d.entries| != |names|
      requires !Now().retargeted ==> names == Now().plan
      modifies this, d
      ensures Valid() && old(log) <= log && Inv(start) && Later(old(Now()), Now())
      ensures r != Died ==> Working(Now(), start, d.Value())
      ensures !Now().retargeted ==> names == Now().plan
      ensures r == Finished ==>
                Intact(Now(), start) && start.restore.value.status.entries == d.entries && |d.entries| == |names|
      ensures old(script) == [] && read == old(Now()) ==>
                script == [] && r == Finished && start == Now() && Now().backup == read.backup
                && (Now(), d.entries) == Started(read, read.restore.value, names)
    {
      hide Run, RestoreTargets, Intact, Inv, JobName;
      ghost var before, value := Now(), d.Value();
      d.entries := Fresh(Now().name, names);
      forall w | Unwritten(before, w) && Accepts(w, Write(d.Value().status), d.version)
        ensures Promised(w, Write(d.Value().status))
      {
        StillWorking(before, w, read, value);
        FreshFits(w, read, names);
        MayWrite(w, read, value, d.Value().status);
      }
      var reply, mid, took := Submit(Write(d.Value().status), d.version);
      StillWorking(before, mid, read, value);
      FreshFits(mid, read, names);
      if took {
        WriteKeeps(mid, d.Value().status);
        LaterTransitive(before, mid, Now());
      }
      if reply == Accepted {
        d.version := Now().restore.value.version;
        WrittenWorking(mid, read, value, d.Value().status);
        return Finished, Now();
      }
      if took { LostWorking(mid, read, d.Value(), d.Value().status); }
      return if reply == Down then Died else Errored, read;
    }

    /** One target: skip it, create its Job, or take over what its Job reports. */
    method ProcessInstance(d: Draft, names: seq<string>, i: nat, backup: Command.Backup, ghost start: World)
      returns (r: Outcome)
      requires Valid() && Inv(start) && Looping(Now(), start, d.Value(), names) && i < |names|
      modifies this, d
      ensures Valid() && old(log) <= log
      ensures r == Finished ==> Looping(Now(), start, d.Value(), names)
      ensures r == Errored ==> Working(Now(), start, d.Value())
      ensures old(script) == [] && backup == old(Now()).backup ==>
                script == [] && Processed(old(Now()), names, old(d.entries), i, r, Now(), d.entries)
    {
      hide Run, RestoreTargets, JobName, Buildable, Observe, Working, Looping, Noted,
           Ensured, Processed, Inv, Later, Do;
      EntryJob(Now(), start, d.Value(), names, i);
      ghost var w, entries := Now(), d.entries;
      if d.entries[i].phase == Completed {
        CompletedSkipped(w, names, entries, i);
        return Finished;
      }
      var name;
      r, name := EnsureJob(d, names, i, backup, start);
      ghost var quiet := old(script) == [] && backup == old(Now()).backup;
      if quiet { EnsuredProcess(w, names, entries, i, r, name, Now(), d.entries); }
      if r == Finished {
        r := UpdateJobStatus(d, names, i, name, start);
      }
    }

    /** Finds the entry's Job, or creates the target's. */
    method EnsureJob(d: Draft, names: seq<string>, i: nat, backup: Command.Backup, ghost start: World)
      returns (r: Outcome, name: string)
      requires Valid() && Inv(start) && Looping(Now(), start, d.Value(), names) && i < |names|
      requires d.entries[i].phase != Completed
      modifies this, d`entries
      ensures Valid() && old(log) <= log && |d.entries| == |old(d.entries)|
      ensures r == Finished ==>
                Looping(Now(), start, d.Value(), names) && d.entries[i].phase != Completed
                && (!Now().retargeted ==> name == d.entries[i].job)
      ensures r == Errored ==> Working(Now(), start, d.Value())
      ensures old(script) == [] && backup == old(Now()).backup ==>
                script == [] && Ensured(old(Now()), names, old(d.entries), i, r, name, Now(), d.entries)
    {
      hide Run, RestoreTargets, Inv, JobName, Buildable, Later, Unwritten, Working, Looping;
      EntryJob(Now(), start, d.Value(), names, i);
      ghost var before := Now();
      name := d.entries[i].job;
      var reply, seen := ReadWorld();
      StillWorking(before, Now(), start, d.Value());
      EntryJob(Now(), start, d.Value(), names, i);
      if reply == Down { return Died, name; }
      if reply == Error { return Errored, name; }
      if name in seen.jobs { return Finished, name; }
      if !Buildable(backup) { return Errored, name; }
      name := JobName(Now().name, names[i]);
      r := CreateJob(d, names, i, name, start);
      if r != Died { EntryJob(Now(), start, d.Value(), names, i); }
    }

    method CreateJob(d: Draft, names: seq<string>, i: nat, name: string, ghost start: World) returns (r: Outcome)
      requires Valid() && Inv(start) && Looping(Now(), start, d.Value(), names) && i < |names|
      requires d.entries[i].phase != Completed && name == JobName(Now().name, names[i])
      modifies this, d`entries
      ensures Valid() && old(log) <= log && Now().name == old(Now()).name
      ensures r != Died ==> Looping(Now(), start, d.Value(), names)
      ensures d.entries == if r == Finished then old(d.entries)[i := old(d.entries)[i].(phase := Running)]
                           else old(d.entries)
      ensures old(script) == [] ==>
                script == [] && r == (if name in old(Now()).jobs then Errored else Finished)
                && Now() == if name in old(Now()).jobs then old(Now()) else Do(old(Now()), Create(name))
    {
      hide Run, RestoreTargets, JobName, Inv, LaterJobs, LaterRestore, Promised, Working;
      ghost var before := Now();
      forall w | Unwritten(before, w) && Accepts(w, Create(name), d.version) ensures Promised(w, Create(name)) {
        StillWorking(before, w, start, d.Value());
        MayCreate(w, start, d.Value(), names, i);
      }
      var reply, mid, took := Submit(Create(name), d.version);
      StillWorking(before, mid, start, d.Value());
      if took { CreatedWorking(mid, start, d.Value(), names, i); }
      if reply == Accepted {
        SetPhase(Now(), start, d.Value(), names, i, Running);
        d.entries := d.entries[i := d.entries[i].(phase := Running)];
      }
      r := if reply == Accepted then Finished else if reply == Down then Died else Errored;
    }

    /** Takes over the phase the Job reports; a Job that is gone changes nothing. */
    method UpdateJobStatus(d: Draft, names: seq<string>, i: nat, name: string, ghost start: World) returns (r: Outcome)
      requires Valid() && Inv(start) && Looping(Now(), start, d.Value(), names) && i < |names|
      requires d.entries[i].phase != Completed
      requires !Now().retargeted ==> name == d.entries[i].job
      modifies this, d
      ensures Valid() && old(log) <= log
      ensures r == Finished ==> Looping(Now(), start, d.Value(), names)
      ensures r == Errored ==> Working(Now(), start, d.Value())
      ensures old(script) == [] ==>
                script == [] && log == old(log) && r == Finished
                && d.entries == Noted(Now(), old(d.entries), i, name)
    {
      hide Run, RestoreTargets, Inv, JobName, Later, Unwritten, Working, Observe;
      ghost var before, value := Now(), d.Value();
      var reply, job := ReadJob(name);
      StillWorking(before, Now(), start, value);
      if reply == Down { return Died; }
      if reply == Error { return Errored; }
      if job.Some? {
        var e := d.entries[i];
        d.entries := d.entries[i := e.(phase := Observe(e.phase, job.value))];
        ObserveCompleted(e.phase, job.value);
        SetPhase(Now(), start, value, names, i, Observe(e.phase, job.value));
      }
      return Finished;
    }

    method UpdateRestoreStatus(d: Draft, ghost start: World, names: seq<string>) returns (r: Outcome)
      requires Valid() && Inv(start) && Looping(Now(), start, d.Value(), names)
      modifies this, d
      ensures Valid() && old(log) <= log
      ensures r == Errored ==> Working(Now(), start, d.Value())
      ensures d.entries == old(d.entries)
      ensures old(script) == [] && old(Now()).restore == start.restore ==>
                script == [] && r == Finished && Now() == Persist(old(Now()), Overall(d.entries), d.entries)
    {
      ghost var before, value := Now(), d.Value();
      d.phase := Aggregate(d.entries);
      forall w | Unwritten(before, w) && Accepts(w, Write(d.Value().status), d.version)
        ensures Promised(w, Write(d.Value().status))
      {
        StillWorking(before, w, start, value);
        MayWrite(w, start, value, d.Value().status);
      }
      var reply, mid, took := Submit(Write(d.Value().status), d.version);
      StillWorking(before, mid, start, value);
      if took { LostWorking(mid, start, d.Value(), d.Value().status); }
      r := if reply == Accepted then Finished else if reply == Down then Died else Errored;
    }
  }

  /** Counts the entries by phase. */
  method Aggregate(entries: seq<Entry>) returns (p: Phase)
    ensures p == Overall(entries)
  {
    var completed, failed, running := 0, 0, 0;
    for i := 0 to |entries|
      invariant 0 <= completed <= i && 0 <= failed && 0 <= running
      invariant failed > 0 <==> SomePhase(entries[..i], Failed)
      invariant completed == i <==> AllCompleted(entries[..i])
      invariant running > 0 <==> SomePhase(entries[..i], Running)
    {
      assert entries[..i + 1] == entries[..i] + [entries[i]];
      match entries[i].phase {
        case Completed => completed := completed + 1;
        case Failed => failed := failed + 1;
        case Running => running := running + 1;
        case _ =>
      }
    }
    assert entries[..|entries|] == entries;
    p := if failed > 0 then Failed
         else if completed == |entries| then Completed
         else if running > 0 then Running
         else Pending;
  }
}
