/** The PostgresCluster object itself over whole runs: who may write it, and what that
    leaves of its spec and of its recorded primary. */
module ClusterRuns {
  import opened Types
  import opened ClusterSpec

  datatype Stored = Stored(version: nat, finalizer: bool, deleting: bool, spec: Spec, status: Status)

  /** `edits` counts how often users have edited the spec, and `early` how often the
      reconciler has read a version from before the deletion mark although the object was
      already marked or gone. */
  datatype Own = Own(obj: Option<Stored>, next: nat, edits: nat, early: nat)

  /** The first three come from others, the rest from the reconciler. */
  datatype Write =
    | Touch
    | MarkDeleted
    | EditSpec(spec: Spec)
    | AddFinalizer
    | Migrate
    | Report(seen: seq<Option<int>>) // the status computed from these readings
    | Drop                           // removes the finalizer, and with it the object
    | NoteEarly                      // a read from before the deletion mark: recorded, nothing changes

  function Rewrite(o: Own, s: Stored): Own {
    o.(obj := Some(s.(version := o.next)), next := o.next + 1)
  }

  /** A write takes effect on the object it was computed from, or not at all. */
  predicate Applies(o: Own, w: Write) {
    && o.obj.Some? && !w.NoteEarly?
    && var s := o.obj.value;
       match w
       case Touch => true
       case MarkDeleted => true
       case EditSpec(_) => true
       case AddFinalizer => !s.deleting
       case Migrate => s.finalizer && !s.deleting && s.spec.instances == []
       case Report(seen) => s.finalizer && !s.deleting && |seen| == |s.spec.instances|
       case Drop => s.deleting
       case NoteEarly => false
  }

  function Do(cluster: string, o: Own, w: Write): Own {
    if w.NoteEarly? then o.(early := o.early + 1)
    else if !Applies(o, w) then o
    else
      var s := o.obj.value;
      match w
      case Touch => Rewrite(o, s)
      case MarkDeleted => if s.finalizer then Rewrite(o, s.(deleting := true)) else o.(obj := None)
      case EditSpec(spec) => Rewrite(o, s.(spec := spec)).(edits := o.edits + 1)
      case AddFinalizer => Rewrite(o, s.(finalizer := true))
      case Migrate => Rewrite(o, s.(spec := Migrated(Defaulted(s.spec))))
      case Report(seen) => Rewrite(o, s.(status := NewStatus(cluster, Defaulted(s.spec), s.status, seen)))
      case Drop => o.(obj := None)
  }

  predicate Sound(o: Own) {
    o.obj.Some? ==> o.obj.value.version < o.next && (o.obj.value.deleting ==> o.obj.value.finalizer)
  }

  ghost predicate Step(cluster: string, a: Own, b: Own) {
    exists w :: b == Do(cluster, a, w)
  }

  ghost predicate Run(cluster: string, log: seq<Own>) {
    && log != [] && Sound(log[0])
    && forall i | 0 <= i < |log| - 1 :: Step(cluster, log[i], log[i + 1])
  }

  /** What stays of an object read earlier. */
  ghost predicate Later(a: Own, b: Own) {
    && a.next <= b.next && a.edits <= b.edits && a.early <= b.early
    && (a.obj.None? ==> b.obj.None?)
    && (a.obj.Some? ==> a.obj.value.version < b.next)
    && (a.obj.Some? && b.obj.Some? ==>
          var s, t := a.obj.value, b.obj.value;
          && s.version <= t.version
          && (s.version == t.version ==> s == t)
          && (s.deleting ==> t.deleting)
          && (a.edits == b.edits ==> LaterSpec(s.spec, t.spec) && (s.deleting ==> t.spec == s.spec))
          && (s.status.currentPrimary != "" ==> t.status.currentPrimary != ""))
  }

  /** A spec nobody edits changes only if it lists no instances: then it may be migrated. */
  predicate LaterSpec(s: Spec, t: Spec) {
    t == s || (s.instances == [] && t == Migrated(Defaulted(s)))
  }

  lemma StepLater(cluster: string, a: Own, b: Own)
    requires Sound(a) && Step(cluster, a, b)
    ensures Sound(b) && Later(a, b)
  {
    var w :| b == Do(cluster, a, w);
    if w.Report? && Applies(a, w) {
      var s := a.obj.value;
      PrimaryIsLastReady(cluster, Defaulted(s.spec), s.status, w.seen);
    }
  }

  lemma {:induction false} RunSound(cluster: string, log: seq<Own>, i: nat)
    requires Run(cluster, log) && i < |log|
    ensures Sound(log[i])
  {
    if i > 0 {
      RunSound(cluster, log, i - 1);
      StepLater(cluster, log[i - 1], log[i]);
    }
  }

  lemma LaterTransitive(a: Own, b: Own, c: Own)
    requires Later(a, b) && Later(b, c)
    ensures Later(a, c)
  {
    hide NewStatus, Defaulted;
    if a.obj.Some? && c.obj.Some? { MigratedHasInstances(a.obj.value.spec); }
  }

  lemma {:induction false} RunLater(cluster: string, log: seq<Own>, i: nat, j: nat)
    requires Run(cluster, log) && i <= j < |log|
    ensures Later(log[i], log[j])
  {
    RunSound(cluster, log, i);
    if i < j {
      RunLater(cluster, log, i, j - 1);
      RunSound(cluster, log, j - 1);
      StepLater(cluster, log[j - 1], log[j]);
      LaterTransitive(log[i], log[j - 1], log[j]);
    }
  }

  lemma MigratedHasInstances(s: Spec)
    ensures Migrated(Defaulted(s)).instances != []
  {
  }

  /** Without user edits the spec changes at most once in a run: when a spec without
      instances is migrated. Afterwards it is stable and defaulting it is a no-op. */
  lemma MigratesOnce(cluster: string, log: seq<Own>, i: nat, j: nat)
    requires Run(cluster, log) && i + 1 <= j < |log| && log[j].obj.Some?
    requires log[i].obj.Some? && log[i + 1].obj.Some?
    requires log[i].obj.value.spec != log[i + 1].obj.value.spec && log[i].edits == log[j].edits
    ensures log[i].obj.value.spec.instances == []
    ensures log[i + 1].obj.value.spec == Migrated(Defaulted(log[i].obj.value.spec))
    ensures log[j].obj.value.spec == log[i + 1].obj.value.spec
    ensures Defaulted(log[j].obj.value.spec) == log[j].obj.value.spec
  {
    RunLater(cluster, log, i, i + 1);
    RunLater(cluster, log, i + 1, j);
    MigratedHasInstances(log[i].obj.value.spec);
    DefaultedTwice(log[i].obj.value.spec);
  }

  /** A recorded primary is never cleared. */
  lemma PrimaryNeverCleared(cluster: string, log: seq<Own>, i: nat, j: nat)
    requires Run(cluster, log) && i <= j < |log| && log[i].obj.Some? && log[j].obj.Some?
    requires log[i].obj.value.status.currentPrimary != ""
    ensures log[j].obj.value.status.currentPrimary != ""
  {
    RunLater(cluster, log, i, j);
  }

  /** The status write from `log[i]` to `log[i + 1]` found this instance primary and ready. */
  ghost predicate RecordedAt(cluster: string, log: seq<Own>, i: nat, primary: string)
    requires i + 1 < |log|
  {
    log[i].obj.Some? && log[i + 1].obj.Some? &&
    exists seen: seq<Option<int>>, k: nat ::
      && |seen| == |log[i].obj.value.spec.instances|
      && log[i + 1].obj.value.status
         == NewStatus(cluster, Defaulted(log[i].obj.value.spec), log[i].obj.value.status, seen)
      && k < |seen| && ReadyPrimary(log[i].obj.value.spec.instances[k], seen[k])
      && primary == ResourceName(cluster, log[i].obj.value.spec.instances[k].name) + "-0"
  }

  lemma RecordedNow(cluster: string, a: Own, b: Own, w: Write)
    requires b == Do(cluster, a, w) && a.obj.Some? && b.obj.Some?
    requires b.obj.value.status.currentPrimary != a.obj.value.status.currentPrimary
    ensures RecordedAt(cluster, [a, b], 0, b.obj.value.status.currentPrimary)
  {
    hide NewStatus;
    assert w.Report? && Applies(a, w);
    var s := a.obj.value;
    PrimaryIsLastReady(cluster, Defaulted(s.spec), s.status, w.seen);
  }

  /** A recorded primary is the initial one, or was found primary and ready by the status
      write that recorded it. */
  lemma {:induction false} PrimaryProvenance(cluster: string, log: seq<Own>, j: nat)
    requires Run(cluster, log) && j < |log| && log[0].obj.Some? && log[j].obj.Some?
    ensures var primary := log[j].obj.value.status.currentPrimary;
            primary == log[0].obj.value.status.currentPrimary
            || exists i | 0 <= i < j :: RecordedAt(cluster, log, i, primary)
  {
    hide NewStatus, Defaulted, Migrated;
    if j > 0 {
      assert Step(cluster, log[j - 1], log[j]);
      var w :| log[j] == Do(cluster, log[j - 1], w);
      PrimaryProvenance(cluster, log, j - 1);
      var primary := log[j].obj.value.status.currentPrimary;
      if primary != log[j - 1].obj.value.status.currentPrimary {
        RecordedNow(cluster, log[j - 1], log[j], w);
        assert RecordedAt(cluster, log, j - 1, primary);
      }
    }
  }
}
