/** controllers/postgrescluster_controller.go: the reconciler, against scripts of what
    others do and of the fate of each request. */
module ClusterController {
  import opened Types
  import opened Selection
  import opened ObjectStore
  import opened ClusterSpec
  import opened ClusterApply
  import Runs = ClusterRuns

  /** Before each request about the cluster object itself: others' writes, cache lag, fate. */
  datatype OwnEvent = OwnEvent(others: seq<Runs.Write>, lag: nat, fate: Fate)

  /** What was read is from before the deletion mark, and the object is marked or gone. */
  predicate Predates(seen: Runs.Own, now: Runs.Own) {
    && seen.obj.Some? && !seen.obj.value.deleting
    && (now.obj.None? || now.obj.value.deleting)
  }

  predicate Deleting(o: Runs.Own) { o.obj.Some? && o.obj.value.deleting }

  /** What a pass applies the objects of. */
  predicate ReadLive(o: Runs.Own) {
    o.obj.Some? && o.obj.value.finalizer && !o.obj.value.deleting && o.obj.value.spec.instances != []
  }

  /** Others have written, the reconciler has not. */
  predicate Unwritten(a: Runs.Own, b: Runs.Own) {
    && a.edits <= b.edits && a.early <= b.early
    && (a.obj.Some? && a.obj.value.finalizer ==> b.obj.Some?)
    && (a.obj.Some? && b.obj.Some? ==>
          var s, t := a.obj.value, b.obj.value;
          t.finalizer == s.finalizer && t.status == s.status && (a.edits == b.edits ==> t.spec == s.spec))
  }

  /** The cluster object in memory, whose spec and status the reconciler assigns to. */
  class Draft {
    var version: nat
    var finalizer: bool
    var deleting: bool
    var spec: Spec
    var status: Status

    constructor (s: Runs.Stored)
      ensures Value() == s
    {
      version, finalizer, deleting, spec, status := s.version, s.finalizer, s.deleting, s.spec, s.status;
    }

    function Value(): Runs.Stored
      reads this
    {
      Runs.Stored(version, finalizer, deleting, spec, status)
    }

    method SetDefaults()
      modifies this`spec
      ensures spec == Defaulted(old(spec))
    {
      if spec.replicas == 0 { spec := spec.(replicas := 1); }
      spec := spec.(version := Or(spec.version, "15"));
      spec := spec.(database := spec.database.(name := Or(spec.database.name, "postgres")));
      spec := spec.(storage := spec.storage.(size := Or(spec.storage.size, "10Gi")));
      spec := spec.(resources := spec.resources.(cpu := Or(spec.resources.cpu, "500m")));
      spec := spec.(resources := spec.resources.(memory := Or(spec.resources.memory, "1Gi")));
      if spec.failoverTimeout == 0 { spec := spec.(failoverTimeout := 30); }
    }
  }

  // ---- What a pass without faults does ----

  /** Whether an instance's quantities parse; `quantities` holds the strings that do. */
  predicate Parses(quantities: set<string>, s: Spec, x: Instance) {
    var r := GetOr(x.resources, s.resources);
    r.cpu in quantities && r.memory in quantities && GetOr(x.storage, s.storage).size in quantities
  }

  /** What must parse is what the instance's workload asks for. */
  lemma ParsesMeaning(quantities: set<string>, cluster: string, namespace: string, s: Spec, x: Instance)
    ensures Parses(quantities, s, x) <==>
              var w := DesiredWorkload(cluster, namespace, s, x);
              {w.resources.cpu, w.resources.memory, w.storage.size} <= quantities
  {
  }

  /** The number of instances before the first whose quantities do not parse. */
  function ParsingPrefix(quantities: set<string>, s: Spec, i: nat): (n: nat)
    requires i <= |s.instances|
    ensures i <= n <= |s.instances|
    ensures n < |s.instances| ==> !Parses(quantities, s, s.instances[n])
    ensures forall k | i <= k < n :: Parses(quantities, s, s.instances[k])
    decreases |s.instances| - i
  {
    if i < |s.instances| && Parses(quantities, s, s.instances[i]) then ParsingPrefix(quantities, s, i + 1) else i
  }

  /** What is applied: everything, or what comes before a workload that cannot be built. */
  function AppliedItems(quantities: set<string>, cluster: string, namespace: string, s: Spec,
                        conf: string, passwords: seq<string>): seq<Item>
    requires |passwords| == |s.access| + 2
  {
    var n := ParsingPrefix(quantities, s, 0);
    BaseItems(cluster, s, conf, passwords) + AllInstanceItems(cluster, namespace, s, n)
    + if n < |s.instances| then InstanceItems(cluster, namespace, s, s.instances[n])[..1] else MetricsItems(cluster, s)
  }

  lemma AppliedAll(quantities: set<string>, cluster: string, namespace: string, s: Spec,
                   conf: string, passwords: seq<string>)
    requires |passwords| == |s.access| + 2 && ParsingPrefix(quantities, s, 0) == |s.instances|
    ensures AppliedItems(quantities, cluster, namespace, s, conf, passwords)
            == ClusterItems(cluster, namespace, s, conf, passwords)
  {
  }

  /** If some workload cannot be built, what is applied is the start of the full list, up to and
      including the Service of the first such instance. */
  lemma AppliedIsStart(quantities: set<string>, cluster: string, namespace: string, s: Spec,
                       conf: string, passwords: seq<string>, n: nat)
    requires |passwords| == |s.access| + 2
    requires n < |s.instances| && !Parses(quantities, s, s.instances[n])
    requires forall k | 0 <= k < n :: Parses(quantities, s, s.instances[k])
    ensures var items := ClusterItems(cluster, namespace, s, conf, passwords);
            && 2 * n + 3 <= |items|
            && AppliedItems(quantities, cluster, namespace, s, conf, passwords) == items[..2 * n + 3]
            && items[2 * n + 2].key == ServiceKey(cluster, s.instances[n])
  {
    hide DesiredWorkload, Credentials, ResourceName, Parses, MetricsItems;
    assert ParsingPrefix(quantities, s, 0) == n;
    StartOfItems(cluster, namespace, s, n);
  }

  lemma StartOfItems(cluster: string, namespace: string, s: Spec, n: nat)
    requires n < |s.instances|
    ensures var all := AllInstanceItems(cluster, namespace, s, |s.instances|);
            AllInstanceItems(cluster, namespace, s, n) + InstanceItems(cluster, namespace, s, s.instances[n])[..1]
            == all[..2 * n + 1]
  {
    hide DesiredWorkload, ResourceName, AllInstanceItems;
    var all, some := AllInstanceItems(cluster, namespace, s, |s.instances|), AllInstanceItems(cluster, namespace, s, n);
    forall i | 0 <= i < 2 * n ensures some[i] == all[i] {
      var k := i / 2;
      assert i == 2 * k || i == 2 * k + 1;
    }
    assert all[2 * n] == InstanceItems(cluster, namespace, s, s.instances[n])[0];
  }

  lemma InstanceItemsIn(cluster: string, namespace: string, s: Spec, conf: string, passwords: seq<string>, i: nat)
    requires |passwords| == |s.access| + 2 && i < |s.instances|
    ensures var items := ClusterItems(cluster, namespace, s, conf, passwords);
            var pair := InstanceItems(cluster, namespace, s, s.instances[i]);
            pair[0] in items && pair[1] in items
  {
    hide InstanceItems, MetricsItems, Credentials;
    var items := ClusterItems(cluster, namespace, s, conf, passwords);
    assert items[2 + 2 * i] in items && items[2 + 2 * i + 1] in items;
  }

  /** Every instance has its own Service and StatefulSet. */
  ghost predicate EachApplied(cluster: string, namespace: string, s: Spec, st: Store) {
    forall i | 0 <= i < |s.instances| ::
      var x := s.instances[i];
      && ServiceKey(cluster, x) in st.objects && WorkloadKey(cluster, x) in st.objects
      && st.objects[ServiceKey(cluster, x)].content.body == InstanceService(cluster, x.name, x.role)
      && st.objects[WorkloadKey(cluster, x)].content.body == DesiredWorkload(cluster, namespace, s, x)
  }

  ghost predicate SameContents(a: Store, b: Store) {
    a.objects.Keys == b.objects.Keys
    && forall key | key in a.objects :: b.objects[key].content == a.objects[key].content
  }

  lemma ItemsApplied(cluster: string, namespace: string, s: Spec, st: Store, conf: string, passwords: seq<string>)
    requires |passwords| == |s.access| + 2
    requires Distinct(Names(s.instances)) && (Scraped(s) ==> "metrics" !in Names(s.instances))
    ensures EachApplied(cluster, namespace, s, PutAll(st, ClusterItems(cluster, namespace, s, conf, passwords)))
  {
    hide PutAll, ClusterItems, NoConflict, DesiredWorkload, ResourceName;
    var items := ClusterItems(cluster, namespace, s, conf, passwords);
    DistinctNamesNoConflict(cluster, namespace, s, conf, passwords);
    EachEndsAsDesired(st, items);
    forall i | 0 <= i < |s.instances|
      ensures var pair := InstanceItems(cluster, namespace, s, s.instances[i]); pair[0] in items && pair[1] in items
    {
      InstanceItemsIn(cluster, namespace, s, conf, passwords, i);
    }
  }

  lemma ItemsAppliedAgain(st: Store, items: seq<Item>, items': seq<Item>)
    requires SameButData(items, items')
    ensures SameContents(PutAll(st, items), PutAll(PutAll(st, items), items'))
  {
    hide PutAll, SameButData;
    var st1 := PutAll(st, items);
    forall key ensures (key in PutAll(st1, items').objects <==> key in st1.objects)
                  && (key in st1.objects ==> PutAll(st1, items').objects[key].content == st1.objects[key].content) {
      ApplyAgain(st, items, items', key);
    }
  }

  /** With distinct names and parsable quantities a fault-free pass leaves every instance
      with its own Service and StatefulSet, and the next pass, which comes with fresh
      passwords, changes the content of no object. */
  lemma PassAppliesEachInstance(quantities: set<string>, cluster: string, namespace: string, s: Spec, st: Store,
                                conf: string, passwords: seq<string>, conf': string, passwords': seq<string>)
    requires |passwords| == |passwords'| == |s.access| + 2 && ParsingPrefix(quantities, s, 0) == |s.instances|
    requires Distinct(Names(s.instances)) && (Scraped(s) ==> "metrics" !in Names(s.instances))
    ensures var st1 := PutAll(st, AppliedItems(quantities, cluster, namespace, s, conf, passwords));
            var st2 := PutAll(st1, AppliedItems(quantities, cluster, namespace, s, conf', passwords'));
            EachApplied(cluster, namespace, s, st1) && SameContents(st1, st2)
  {
    hide PutAll, AppliedItems, ClusterItems, SameButData, EachApplied, SameContents, Distinct, Names;
    AppliedAll(quantities, cluster, namespace, s, conf, passwords);
    AppliedAll(quantities, cluster, namespace, s, conf', passwords');
    ItemsApplied(cluster, namespace, s, st, conf, passwords);
    NextPassSame(cluster, namespace, s, conf, passwords, conf', passwords');
    ItemsAppliedAgain(st, ClusterItems(cluster, namespace, s, conf, passwords),
                      ClusterItems(cluster, namespace, s, conf', passwords'));
  }

  function Readings(cluster: string, s: Store, xs: seq<Instance>): (seen: seq<Option<int>>)
    ensures |seen| == |xs|
    ensures forall i | 0 <= i < |xs| :: seen[i] == ReadyOf(s, WorkloadKey(cluster, xs[i]))
  {
    seq(|xs|, i requires 0 <= i < |xs| => ReadyOf(s, WorkloadKey(cluster, xs[i])))
  }

  lemma PutAllNext(s: Store, items: seq<Item>, x: Item)
    ensures PutAll(s, items + [x]) == Do(PutAll(s, items), Put(x.key, x.desired))
  {
    assert (items + [x])[..|items|] == items;
  }

  lemma DefaultedKeepsInstances(s: Spec)
    ensures Defaulted(s).instances == s.instances && Defaulted(s).access == s.access
  {
  }

  /** What the status loop holds after reading these instances. */
  ghost predicate Gathered(cluster: string, xs: seq<Instance>, seen: seq<Option<int>>, list: seq<InstanceStatus>,
                           total: int, primary: string, before: string)
    requires |seen| == |xs|
  {
    && list == StatusesOf(cluster, xs, seen)
    && total == Sum32(ReadyCounts(seen))
    && primary == LastLeader(list, before)
  }

  lemma GatherNone(cluster: string, xs: seq<Instance>, before: string)
    requires xs == []
    ensures Gathered(cluster, xs, [], [], 0, before, before)
  {
  }

  lemma LeaderNext(list: seq<InstanceStatus>, x: InstanceStatus, before: string)
    ensures LastLeader(list + [x], before) == if x.leader != "" then x.leader else LastLeader(list, before)
  {
    assert (list + [x])[..|list|] == list;
  }

  lemma Sum32Next(xs: seq<int>, x: int)
    ensures Sum32(xs + [x]) == Wrap32(Sum32(xs) + x)
    ensures Sum32(xs + [0]) == Sum32(xs)
  {
    assert (xs + [x])[..|xs|] == xs && (xs + [0])[..|xs|] == xs;
  }

  /** One more instance in the status loop. */
  lemma GatherStep(cluster: string, xs: seq<Instance>, i: nat, seen: seq<Option<int>>, ready: Option<int>,
                   list: seq<InstanceStatus>, total: int, primary: string, before: string)
    requires i < |xs| && |seen| == i && Gathered(cluster, xs[..i], seen, list, total, primary, before)
    ensures var leader := LeaderOf(cluster, xs[i], ready);
            Gathered(cluster, xs[..i + 1], seen + [ready], list + [StatusOf(cluster, xs[i], ready)],
                     if ready.Some? then Wrap32(total + ready.value) else total,
                     if leader != "" then leader else primary, before)
    ensures |ResourceName(cluster, xs[i].name) + "-0"| > 0
  {
    hide StatusLabels, ResourceName, Wrap32, Sum32, LastLeader;
    Sum32Next(ReadyCounts(seen), Ready(ready));
    assert ReadyCounts(seen + [ready]) == ReadyCounts(seen) + [Ready(ready)];
    LeaderNext(list, StatusOf(cluster, xs[i], ready), before);
    assert StatusesOf(cluster, xs[..i + 1], seen + [ready]) == list + [StatusOf(cluster, xs[i], ready)];
  }

  lemma NoteEarly(cluster: string, o: Runs.Own)
    ensures Runs.Do(cluster, o, Runs.NoteEarly) == o.(early := o.early + 1)
  {
  }

  lemma EarlyKept(cluster: string, o: Runs.Own, w: Runs.Write)
    requires !w.NoteEarly?
    ensures Runs.Do(cluster, o, w).early == o.early
  {
  }

  /** Only dropping the finalizer makes an object go that is being deleted. */
  lemma OnlyDropDrops(cluster: string, o: Runs.Own, w: Runs.Write)
    requires Deleting(o) && Runs.Sound(o) && Runs.Do(cluster, o, w).obj.None?
    ensures w.Drop?
  {
  }

  lemma DropDrops(cluster: string, o: Runs.Own)
    requires o.obj.Some? && o.obj.value.deleting
    ensures Runs.Do(cluster, o, Runs.Drop).obj.None?
    ensures Runs.Sound(o) ==> o.obj.value.finalizer
  {
  }

  /** Once gone, objects nobody else writes stay gone. */
  lemma StillGone(before: seq<Store>, log: seq<Store>, script: seq<Event>, keys: set<Key>, gone: set<Key>)
    requires before != [] && before <= log && gone <= keys && Undisturbed(script, keys)
    requires ShrinkingFor(log, |before| - 1, script) && Remaining(before[|before| - 1], gone) == {}
    ensures Remaining(log[|log| - 1], gone) == {}
  {
    ShrinksOverall(log, |before| - 1, |log| - 1, keys);
    assert log[|before| - 1] == before[|before| - 1];
    forall k | k in gone ensures k !in log[|log| - 1].objects {
      assert k !in Remaining(log[|before| - 1], gone);
      assert k !in Remaining(log[|before| - 1], keys);
    }
  }

  lemma NoInstances(cluster: string)
    ensures InstanceKeys(cluster, []) == {}
  {
  }

  lemma OneMoreInstance(cluster: string, xs: seq<Instance>, i: nat)
    requires i < |xs|
    ensures InstanceKeys(cluster, xs[..i + 1])
            == InstanceKeys(cluster, xs[..i]) + {WorkloadKey(cluster, xs[i])} + {ServiceKey(cluster, xs[i])}
    ensures InstanceKeys(cluster, xs[..i + 1]) <= InstanceKeys(cluster, xs)
  {
    assert xs[..i + 1] == xs[..i] + [xs[i]] && xs == xs[..i + 1] + xs[i + 1..];
  }

  class Reconciler {
    const name: string
    const namespace: string
    const quantities: set<string>
    const api: ApiServer
    var own: seq<Runs.Own>
    var ownScript: seq<OwnEvent>

    constructor (name: string, namespace: string, quantities: set<string>, api: ApiServer,
                 own: seq<Runs.Own>, ownScript: seq<OwnEvent>)
      requires own != [] && Runs.Run(name, own) && api.Valid()
      ensures Valid() && this.name == name && this.namespace == namespace && this.quantities == quantities
      ensures this.api == api && this.own == own && this.ownScript == ownScript
    {
      this.name, this.namespace, this.quantities, this.api := name, namespace, quantities, api;
      this.own, this.ownScript := own, ownScript;
    }

    ghost predicate Valid()
      reads this, api
    {
      own != [] && Runs.Run(name, own) && api.Valid()
    }

    function Now(): Runs.Own
      reads this
      requires own != []
    {
      own[|own| - 1]
    }

    // ---- Requests about the cluster object ----

    method OwnTick() returns (lag: nat, fate: Fate)
      requires Valid()
      modifies this`own, this`ownScript
      ensures Valid() && old(own) <= own && Runs.Later(old(Now()), Now()) && Unwritten(old(Now()), Now())
      ensures Now().early == old(Now()).early
      ensures old(ownScript) == [] ==> ownScript == [] && own == old(own) && lag == 0 && fate == Served
      ensures old(ownScript) != [] ==> lag == old(ownScript)[0].lag && fate == old(ownScript)[0].fate
      ensures old(ownScript) != [] && old(ownScript)[0].others == [] ==> own == old(own)
    {
      Runs.RunLater(name, own, |own| - 1, |own| - 1);
      if ownScript == [] { return 0, Served; }
      var e := ownScript[0];
      ownScript := ownScript[1..];
      for i := 0 to |e.others|
        invariant Valid() && old(own) <= own && ownScript == old(ownScript)[1..]
        invariant Unwritten(old(Now()), Now()) && Now().early == old(Now()).early
        invariant i == 0 ==> own == old(own)
      {
        if e.others[i].Touch? || e.others[i].MarkDeleted? || e.others[i].EditSpec? {
          Record(e.others[i]);
        }
      }
      Runs.RunLater(name, own, |old(own)| - 1, |own| - 1);
      return e.lag, e.fate;
    }

    method Record(w: Runs.Write)
      requires Valid()
      modifies this`own
      ensures Valid() && own == old(own) + [Runs.Do(name, old(Now()), w)]
    {
      var next := Runs.Do(name, Now(), w);
      assert Runs.Step(name, Now(), next);
      own := own + [next];
    }

    /** What a cache `lag` versions behind serves. */
    function Behind(lag: nat): Runs.Own
      reads this
      requires own != []
    {
      own[if lag < |own| then |own| - 1 - lag else 0]
    }

    predicate ReadServed()
      reads this
    {
      ownScript == [] || ownScript[0].fate == Served
    }

    /** Reads the cluster object, perhaps from an old cache; a read from before the deletion
        mark is noted. */
    method ReadOwn() returns (r: Outcome, seen: Runs.Own)
      requires Valid()
      modifies this`own, this`ownScript
      ensures Valid() && old(own) <= own && Runs.Later(seen, Now()) && Runs.Sound(seen)
      ensures Runs.Later(old(Now()), Now()) && Unwritten(old(Now()), Now())
      ensures r == Finished && Now().early == old(Now()).early ==> !Predates(seen, Now())
      ensures r == Finished <==> old(ReadServed())
      ensures old(ownScript) == [] ==> ownScript == [] && own == old(own) && r == Finished && seen == Now()
      ensures old(ownScript) != [] && old(ownScript)[0].others == [] ==> seen == old(Behind(ownScript[0].lag))
    {
      hide Runs.Run, Runs.Do;
      var lag, fate := OwnTick();
      var k := if lag < |own| then |own| - 1 - lag else 0;
      r := if fate == Crash then Died else if fate == Served then Finished else Errored;
      seen := own[k];
      Runs.RunSound(name, own, k);
      if r == Finished && Predates(seen, Now()) {
        NoteEarly(name, Now());
        Record(Runs.NoteEarly);
      }
      Runs.RunLater(name, own, k, |own| - 1);
      Runs.RunLater(name, own, |old(own)| - 1, |own| - 1);
    }

    /** Sends a write computed from the object read as `read`; it meets that very object or is refused. */
    method SubmitOwn(w: Runs.Write, version: nat, ghost read: Runs.Own) returns (r: Outcome)
      requires Valid() && Runs.Later(read, Now()) && read.obj.Some? && read.obj.value.version == version
      requires Runs.Applies(read, w) && !w.NoteEarly?
      modifies this`own, this`ownScript
      ensures Valid() && old(own) <= own && Runs.Later(old(Now()), Now()) && Now().early == old(Now()).early
      ensures old(Deleting(Now())) && Now().obj.None? ==>
                && w.Drop? && own != old(own)
                && (Now().edits == old(Now()).edits ==> read.obj.value.spec == old(Now()).obj.value.spec)
      ensures r == Finished ==> |own| > |old(own)| && own[|own| - 2].obj == read.obj
                                && Now() == Runs.Do(name, own[|own| - 2], w)
      ensures old(ownScript) == [] && read == old(Now()) ==>
                ownScript == [] && r == Finished && own == old(own) + [Runs.Do(name, old(Now()), w)]
    {
      hide Runs.Run, Runs.Do, Runs.LaterSpec;
      Runs.RunSound(name, own, |own| - 1);
      ghost var before := Now();
      var _, fate := OwnTick();
      Runs.RunSound(name, own, |own| - 1);
      if fate == Crash { return Died; }
      if !Applied(fate) || Now().obj.None? || Now().obj.value.version != version { return Errored; }
      assert Now().obj == read.obj by { Runs.LaterTransitive(read, before, Now()); }
      ghost var met := Now();
      Record(w);
      EarlyKept(name, met, w);
      if Deleting(met) && Now().obj.None? { OnlyDropDrops(name, met, w); }
      Runs.RunLater(name, own, |old(own)| - 1, |own| - 1);
      r := if fate == Served then Finished else Errored;
    }

    // ---- The reconciler ----

    /** What a fault-free pass does; `o` and `s` are what it starts from. */
    ghost predicate QuietResult(o: Runs.Own, s: Store, conf: string, passwords: seq<string>, r: Outcome)
      reads this, api
      requires Valid()
    {
      if o.obj.None? then r == Finished && Now() == o && api.Now() == s
      else
        var o1 := if o.obj.value.finalizer then o else Runs.Do(name, o, Runs.AddFinalizer);
        var spec := Defaulted(o1.obj.value.spec);
        if o1.obj.value.deleting then
          && r == Finished && Now() == Runs.Do(name, o1, Runs.Drop)
          && api.Now() == s.(objects := s.objects - OwnedKeys(name, o1.obj.value.spec.instances))
        else if spec.instances == [] then
          r == Finished && Now() == Runs.Do(name, o1, Runs.Migrate) && api.Now() == s
        else
          |passwords| == |spec.access| + 2 ==>
            && api.Now() == PutAll(s, AppliedItems(quantities, name, namespace, spec, conf, passwords))
            && if ParsingPrefix(quantities, spec, 0) < |spec.instances| then r != Finished && Now() == o1
               else r == Finished && Now() == Runs.Do(name, o1, Runs.Report(Readings(name, api.Now(), spec.instances)))
    }

    /** `conf` is the generated configuration text, `passwords` the freshly generated ones, and
        `seen` what the pass has read. Whatever faults a pass over a cluster that is being
        deleted meets and however old its reads are, the cluster object goes away only when
        none of its objects is left; unless the pass reads a version from before the deletion
        mark, those only shrink. A pass that reads such a version applies them again. */
    method Reconcile(conf: string, passwords: seq<string>) returns (r: Outcome, ghost seen: Runs.Own)
      requires Valid()
      modifies this`own, this`ownScript, api
      ensures Valid() && old(own) <= own && old(api.log) <= api.log && Within(api.script, old(api.script))
      ensures old(ownScript) == [] && old(api.script) == [] ==>
                ownScript == [] && api.script == [] && QuietResult(old(Now()), old(api.Now()), conf, passwords, r)
      ensures old(Deleting(Now())) && Now().obj.None? && Now().edits == old(Now()).edits ==>
                var keys := OwnedKeys(name, old(Now()).obj.value.spec.instances);
                Undisturbed(old(api.script), keys) ==> Remaining(api.Now(), keys) == {}
      ensures old(Deleting(Now())) && Now().early == old(Now()).early ==>
                ShrinkingFor(api.log, |old(api.log)| - 1, old(api.script))
      ensures old(api.script) == [] && old(ReadServed()) && ReadLive(seen)
              && |passwords| == |seen.obj.value.spec.access| + 2 ==>
                var spec := Defaulted(seen.obj.value.spec);
                |passwords| == |spec.access| + 2 &&
                api.Now() == PutAll(old(api.Now()), AppliedItems(quantities, name, namespace, spec, conf, passwords))
      ensures old(ownScript) != [] && old(ownScript)[0].others == [] ==> seen == old(Behind(ownScript[0].lag))
    {
      hide Runs.Run, History, PutAll, AppliedItems, Defaulted, NewStatus, ParsingPrefix, OwnedKeys,
           ShrinkingFor, Undisturbed, Remaining, Runs.Do, Runs.LaterSpec;
      Runs.RunSound(name, own, |own| - 1);
      ShrinkingStart(api.log, |api.log| - 1, api.script);
      var read, found := ReadOwn();
      seen := found;
      if read != Finished { return read, seen; }
      if found.obj.None? { return Finished, seen; }
      var d := new Draft(found.obj.value);
      ghost var n := |own|;
      Runs.RunSound(name, own, n - 1);
      r := Act(d, seen, conf, passwords);
      Runs.RunLater(name, own, n - 1, |own| - 1);
    }

    /** The pass, once it has read the cluster object. */
    method Act(d: Draft, ghost seen: Runs.Own, conf: string, passwords: seq<string>) returns (r: Outcome)
      requires Valid() && Runs.Later(seen, Now()) && Runs.Sound(seen) && Runs.Sound(Now())
      requires seen.obj == Some(d.Value())
      modifies this`own, this`ownScript, api, d
      ensures Valid() && old(own) <= own && old(api.log) <= api.log && Within(api.script, old(api.script))
      ensures old(ownScript) == [] && old(api.script) == [] && seen == old(Now()) ==>
                ownScript == [] && api.script == [] && QuietResult(seen, old(api.Now()), conf, passwords, r)
      ensures old(Deleting(Now())) && Now().obj.None? && Now().edits == old(Now()).edits ==>
                var keys := OwnedKeys(name, old(Now()).obj.value.spec.instances);
                Undisturbed(old(api.script), keys) ==> Remaining(api.Now(), keys) == {}
      ensures Deleting(seen) ==> ShrinkingFor(api.log, |old(api.log)| - 1, old(api.script))
      ensures old(api.script) == [] && ReadLive(seen) && |passwords| == |seen.obj.value.spec.access| + 2 ==>
                var spec := Defaulted(seen.obj.value.spec);
                |passwords| == |spec.access| + 2 &&
                api.Now() == PutAll(old(api.Now()), AppliedItems(quantities, name, namespace, spec, conf, passwords))
    {
      hide Runs.Run, History, PutAll, AppliedItems, Defaulted, NewStatus, ParsingPrefix, OwnedKeys,
           ShrinkingFor, Undisturbed, Remaining, Runs.LaterSpec;
      DefaultedKeepsInstances(d.spec);
      ghost var at := seen;
      if !d.finalizer {
        d.finalizer := true;
        r := SubmitOwn(Runs.AddFinalizer, d.version, seen);
        if r != Finished { return; }
        at := Now();
        Runs.RunLater(name, own, |own| - 1, |own| - 1);
        d.version := Now().obj.value.version;
      }
      if d.deleting {
        r := HandleDeletion(d, at);
        return;
      }
      r := Live(d, at, conf, passwords);
    }

    /** Any number of passes over a cluster that is being deleted, as failed ones are retried,
        each with its own generated text and passwords, under any faults and any reads. The
        cluster object goes away only when none of its objects is left; while no pass reads a
        version from before the deletion mark they only shrink; without faults one pass is enough. */
    method RetryDeletion(inputs: seq<(string, seq<string>)>)
      requires Valid() && Deleting(Now())
      modifies this`own, this`ownScript, api
      ensures Valid() && old(own) <= own && old(api.log) <= api.log
      ensures var keys := OwnedKeys(name, old(Now()).obj.value.spec.instances);
              Now().edits == old(Now()).edits && Undisturbed(old(api.script), keys) && Now().obj.None? ==>
                Remaining(api.Now(), keys) == {}
      ensures Now().early == old(Now()).early ==> ShrinkingFor(api.log, |old(api.log)| - 1, old(api.script))
      ensures old(ownScript) == [] && old(api.script) == [] && inputs != [] ==> Now().obj.None?
    {
      hide Runs.Run, History, OwnedKeys, Undisturbed, Remaining, ShrinkingFor, Runs.Do, Defaulted, PutAll, AppliedItems;
      ghost var keys, first := OwnedKeys(name, Now().obj.value.spec.instances), Now();
      ghost var script, from := api.script, |api.log| - 1;
      Runs.RunLater(name, own, |own| - 1, |own| - 1);
      ShrinkingStart(api.log, from, script);
      var i := 0;
      while i < |inputs| && Now().obj.Some?
        invariant i <= |inputs| && Valid() && old(own) <= own && old(api.log) <= api.log
        invariant Runs.Later(first, Now()) && Within(api.script, script)
        invariant first.edits == Now().edits && Undisturbed(script, keys) && Now().obj.None? ==>
                    Remaining(api.Now(), keys) == {}
        invariant first.early == Now().early ==> ShrinkingFor(api.log, from, script)
        invariant old(ownScript) == [] && old(api.script) == [] ==>
                    if i == 0 then ownScript == [] && api.script == [] else Now().obj.None?
        decreases |inputs| - i
      {
        ghost var before, middle, n := api.log, api.script, |own|;
        Runs.RunSound(name, own, n - 1);
        DropDrops(name, Now());
        var _, _ := Reconcile(inputs[i].0, inputs[i].1);
        Runs.RunLater(name, own, |old(own)| - 1, |own| - 1);
        Runs.RunLater(name, own, n - 1, |own| - 1);
        if Undisturbed(script, keys) { StillUndisturbed(script, middle, keys); }
        if first.early == Now().early { ShrinkingJoins(before, api.log, from, script, middle); }
        i := i + 1;
      }
    }

    /** A pass over a cluster that is not being deleted. */
    method Live(d: Draft, ghost at: Runs.Own, conf: string, passwords: seq<string>) returns (r: Outcome)
      requires Valid() && Runs.Later(at, Now()) && at.obj == Some(d.Value()) && d.finalizer && !d.deleting
      modifies this`own, this`ownScript, api, d
      ensures Valid() && old(own) <= own && old(api.log) <= api.log && Within(api.script, old(api.script))
      ensures old(Deleting(Now())) ==> Now().obj.Some?
      ensures old(api.script) == [] ==>
                api.script == [] &&
                var spec := Defaulted(at.obj.value.spec);
                if spec.instances == [] then api.Now() == old(api.Now())
                else
                  |passwords| == |spec.access| + 2 ==>
                    api.Now() ==
                    PutAll(old(api.Now()), AppliedItems(quantities, name, namespace, spec, conf, passwords))
      ensures old(ownScript) == [] && old(api.script) == [] && at == old(Now()) ==>
                ownScript == [] &&
                var spec := Defaulted(at.obj.value.spec);
                if spec.instances == [] then
                  r == Finished && Now() == Runs.Do(name, at, Runs.Migrate)
                else
                  |passwords| == |spec.access| + 2 ==>
                    if ParsingPrefix(quantities, spec, 0) < |spec.instances| then r != Finished && Now() == at
                       else r == Finished
                            && Now() == Runs.Do(name, at, Runs.Report(Readings(name, api.Now(), spec.instances)))
    {
      hide Runs.Run, History, PutAll, AppliedItems, Defaulted, NewStatus, ParsingPrefix, Runs.Do;
      d.SetDefaults();
      DefaultedKeepsInstances(at.obj.value.spec);
      if |d.spec.instances| == 0 {
        d.spec := Migrated(d.spec);
        r := SubmitOwn(Runs.Migrate, d.version, at);
        return;
      }
      r := ReconcileCluster(d.spec, conf, passwords);
      if r != Finished { return; }
      r := UpdateStatus(d, at);
    }

    method ReconcileCluster(s: Spec, conf: string, passwords: seq<string>) returns (r: Outcome)
      requires Valid()
      modifies api
      ensures Valid() && old(api.log) <= api.log && Within(api.script, old(api.script))
      ensures r == Finished ==> |passwords| == |s.access| + 2
      ensures old(api.script) == [] ==> api.script == []
      ensures old(api.script) == [] && |passwords| == |s.access| + 2 ==>
                api.script == [] && (r == Finished <==> ParsingPrefix(quantities, s, 0) == |s.instances|)
                && api.Now() == PutAll(old(api.Now()), AppliedItems(quantities, name, namespace, s, conf, passwords))
    {
      hide Runs.Run, History, PutAll, Parses, InstanceItems, Credentials, BaseItems;
      ghost var s0 := api.Now();
      r := ApplyBase(s, conf, passwords);
      if r != Finished { return; }
      ghost var items := BaseItems(name, s, conf, passwords);
      assert items == items + AllInstanceItems(name, namespace, s, 0);
      for i := 0 to |s.instances|
        invariant Valid() && old(api.log) <= api.log && Within(api.script, old(api.script))
        invariant old(api.script) == [] ==> api.script == []
        invariant items == BaseItems(name, s, conf, passwords) + AllInstanceItems(name, namespace, s, i)
        invariant old(api.script) == [] ==> api.Now() == PutAll(s0, items)
        invariant ParsingPrefix(quantities, s, 0) == ParsingPrefix(quantities, s, i)
        invariant r == Finished
      {
        r := ReconcileInstance(s, s.instances[i], items, s0);
        if r != Finished { return; }
        items := items + InstanceItems(name, namespace, s, s.instances[i]);
        assert items == BaseItems(name, s, conf, passwords) + AllInstanceItems(name, namespace, s, i + 1);
      }

      assert items + [] == items;
      if s.monitoring && s.prometheus {
        r := Apply(MetricsKey(name), Content(map[], MetricsService(name, s.metricsPort)), items, s0);
      }
    }

    /** The configuration, then the credentials; a generator that fails leaves too few passwords. */
    method ApplyBase(s: Spec, conf: string, passwords: seq<string>) returns (r: Outcome)
      requires Valid()
      modifies api
      ensures Valid() && old(api.log) <= api.log && Within(api.script, old(api.script))
      ensures r == Finished ==> |passwords| == |s.access| + 2
      ensures old(api.script) == [] ==> api.script == []
      ensures old(api.script) == [] && |passwords| == |s.access| + 2 ==>
                api.script == [] && r == Finished
                && api.Now() == PutAll(old(api.Now()), BaseItems(name, s, conf, passwords))
    {
      ghost var s0 := api.Now();
      assert PutAll(s0, []) == s0;
      hide Runs.Run, History, PutAll, Credentials;
      var config := Content(map["postgresql.conf" := conf], NoBody);
      r := Apply(ConfigKey(name), config, [], s0);
      if r != Finished { return; }
      if |passwords| != |s.access| + 2 { return Errored; }
      var credentials := BuildCredentials(passwords, s.access);
      r := Apply(SecretKey(name), Content(credentials, NoBody), [Item(ConfigKey(name), config)], s0);
      assert BaseItems(name, s, conf, passwords)
          == [Item(ConfigKey(name), config)] + [Item(SecretKey(name), Content(credentials, NoBody))];
    }

    /** An instance's Service, then its StatefulSet, unless a quantity does not parse; an
        unparsable storage size makes the operator panic. */
    method ReconcileInstance(s: Spec, x: Instance, ghost items: seq<Item>, ghost s0: Store) returns (r: Outcome)
      requires Valid()
      modifies api
      ensures Valid() && old(api.log) <= api.log && Within(api.script, old(api.script))
      ensures r == Finished ==> Parses(quantities, s, x)
      ensures old(api.script) == [] && old(api.Now()) == PutAll(s0, items) ==>
                api.script == [] && (r == Finished <==> Parses(quantities, s, x))
                && api.Now() == PutAll(s0, items + if Parses(quantities, s, x) then InstanceItems(name, namespace, s, x)
                                                   else InstanceItems(name, namespace, s, x)[..1])
    {
      hide Runs.Run, History, PutAll, DesiredWorkload, ResourceName;
      ghost var pair := InstanceItems(name, namespace, s, x);
      assert pair[..1] == [pair[0]] && items + pair == items + [pair[0]] + [pair[1]];
      r := Apply(ServiceKey(name, x), Content(map[], InstanceService(name, x.name, x.role)), items, s0);
      if r != Finished { return; }
      var resources, storage := GetOr(x.resources, s.resources), GetOr(x.storage, s.storage);
      if resources.cpu !in quantities || resources.memory !in quantities { return Errored; }
      if storage.size !in quantities { return Died; }
      r := Apply(WorkloadKey(name, x), Content(map[], DesiredWorkload(name, namespace, s, x)), items + [pair[0]], s0);
    }

    /** One CreateOrUpdate; `items` is what has been applied to `s0` so far. */
    method Apply(key: Key, desired: Content, ghost items: seq<Item>, ghost s0: Store) returns (r: Outcome)
      requires Valid()
      modifies api
      ensures Valid() && old(api.log) <= api.log && Within(api.script, old(api.script))
      ensures old(api.script) == [] && old(api.Now()) == PutAll(s0, items) ==>
                api.script == [] && r == Finished && api.Now() == PutAll(s0, items + [Item(key, desired)])
    {
      PutAllNext(s0, items, Item(key, desired));
      r := api.CreateOrUpdate(key, desired);
    }

    method BuildCredentials(passwords: seq<string>, access: seq<string>) returns (data: map<string, string>)
      requires |passwords| == |access| + 2
      ensures data == Credentials(passwords, access)
    {
      data := map["postgres-password" := passwords[0], "replication-password" := passwords[1]];
      for i := 0 to |access|
        invariant data == Credentials(passwords[..i + 2], access[..i])
      {
        assert passwords[..i + 3][..i + 2] == passwords[..i + 2] && access[..i + 1][..i] == access[..i];
        data := data["user-" + access[i] + "-password" := passwords[i + 2]];
      }
      assert passwords[..|access| + 2] == passwords && access[..|access|] == access;
    }

    /** Computes the status instance by instance and persists it. */
    method UpdateStatus(d: Draft, ghost at: Runs.Own) returns (r: Outcome)
      requires Valid() && Runs.Later(at, Now()) && d.finalizer && !d.deleting
      requires at.obj.Some? && d.Value() == at.obj.value.(spec := Defaulted(at.obj.value.spec))
      modifies this`own, this`ownScript, api, d
      ensures Valid() && old(own) <= own && old(api.log) <= api.log && Within(api.script, old(api.script))
      ensures old(Deleting(Now())) ==> Now().obj.Some?
      ensures old(api.script) == [] ==> api.script == [] && api.Now() == old(api.Now())
      ensures old(ownScript) == [] && old(api.script) == [] && at == old(Now()) ==>
                ownScript == [] && api.script == [] && r == Finished
                && Now() == Runs.Do(name, at, Runs.Report(Readings(name, api.Now(), d.spec.instances)))
      ensures r == Finished ==> Now().obj.Some? && Now().obj.value.status == d.status
      ensures d.spec == old(d.spec)
    {
      hide Runs.Run, History, Sum32, Wrap32, LastLeader, StatusLabels, ResourceName, Defaulted;
      var statuses, total, primary, seen := Gather(d.spec.instances, d.status.currentPrimary);
      if statuses.None? { return Died; }
      var expected := ExpectedReplicas(d.spec.instances);
      DefaultedKeepsInstances(at.obj.value.spec);
      var phase := if total == expected then Running else if total > 0 then Degraded else Pending;
      d.status := Status(phase, total, primary, statuses.value, d.spec.version);
      r := SubmitOwn(Runs.Report(seen), d.version, at);
    }

    method ExpectedReplicas(xs: seq<Instance>) returns (expected: int)
      ensures expected == Sum32(WantedCounts(xs))
    {
      hide Wrap32;
      expected := 0;
      for i := 0 to |xs|
        invariant expected == Sum32(WantedCounts(xs[..i]))
      {
        Sum32Next(WantedCounts(xs[..i]), WantedReplicas(xs[i]));
        assert WantedCounts(xs[..i + 1]) == WantedCounts(xs[..i]) + [WantedReplicas(xs[i])];
        expected := Wrap32(expected + GetOr(xs[i].replicas, 1));
      }
      assert xs[..|xs|] == xs;
    }

    /** Reads every instance's StatefulSet; `statuses` is absent if the operator dies. */
    method Gather(xs: seq<Instance>, before: string)
      returns (statuses: Option<seq<InstanceStatus>>, total: int, primary: string, seen: seq<Option<int>>)
      requires Valid()
      modifies api
      ensures Valid() && old(api.log) <= api.log && Within(api.script, old(api.script))
      ensures statuses.Some? ==> |seen| == |xs| && Gathered(name, xs, seen, statuses.value, total, primary, before)
      ensures old(api.script) == [] ==>
                api.script == [] && api.log == old(api.log) && statuses.Some? && seen == Readings(name, api.Now(), xs)
    {
      hide Runs.Run, History, Sum32, Wrap32, LastLeader, StatusLabels, ResourceName;
      var list: seq<InstanceStatus> := [];
      total, primary, seen := 0, before, [];
      assert Gathered(name, xs[..0], seen, list, total, primary, before) by { GatherNone(name, xs[..0], before); }
      hide Gathered;
      for i := 0 to |xs|
        invariant Valid() && old(api.log) <= api.log && Within(api.script, old(api.script))
        invariant |seen| == i && Gathered(name, xs[..i], seen, list, total, primary, before)
        invariant old(api.script) == [] ==>
                    api.script == [] && api.log == old(api.log) && seen == Readings(name, api.Now(), xs[..i])
      {
        var x := xs[i];
        var r, ready := api.Inspect(WorkloadKey(name, x));
        if r == Died { return None, 0, "", []; }
        GatherStep(name, xs, i, seen, ready, list, total, primary, before);
        var status := InstanceStatus(x.name, x.role, 0, "", StatusLabels(name, x.name, x.role));
        if ready.Some? {
          status := status.(ready := ready.value);
          total := Wrap32(total + ready.value);
          if x.role == "primary" && ready.value > 0 {
            status := status.(leader := ResourceName(name, x.name) + "-0");
            primary := status.leader;
          }
        }
        list := list + [status];
        seen := seen + [ready];
      }
      assert xs[..|xs|] == xs;
      statuses := Some(list);
    }

    // ---- Deletion ----

    /** Deletes the objects named after the spec, then drops the finalizer. Objects nobody
        else writes only vanish, and the cluster object is not written before its own have. */
    method HandleDeletion(d: Draft, ghost at: Runs.Own) returns (r: Outcome)
      requires Valid() && Runs.Later(at, Now()) && at.obj == Some(d.Value()) && d.deleting
      modifies this`own, this`ownScript, api, d
      ensures Valid() && old(own) <= own && old(api.log) <= api.log && Within(api.script, old(api.script))
      ensures ShrinkingFor(api.log, |old(api.log)| - 1, old(api.script))
      ensures var keys := OwnedKeys(name, at.obj.value.spec.instances);
              Undisturbed(old(api.script), keys) && (own != old(own) || r == Finished) ==>
                Remaining(api.Now(), keys) == {}
      ensures r == Finished ==> Now().obj.None?
      ensures Now().early == old(Now()).early
      ensures old(Deleting(Now())) && Now().obj.None? ==>
                own != old(own)
                && (Now().edits == old(Now()).edits ==> at.obj.value.spec == old(Now()).obj.value.spec)
      ensures old(ownScript) == [] && old(api.script) == [] && at == old(Now()) ==>
                ownScript == [] && api.script == [] && r == Finished && Now() == Runs.Do(name, at, Runs.Drop)
                && api.Now() == old(api.Now()).
                   (objects := old(api.Now()).objects - OwnedKeys(name, at.obj.value.spec.instances))
    {
      hide Runs.Run, History, InstanceKeys, Undisturbed, ShrinkingFor, Runs.Later;
      ghost var keys, s0, from, script := OwnedKeys(name, d.spec.instances), api.Now(), |api.log| - 1, api.script;
      ghost var gone := {};
      assert InstanceKeys(name, d.spec.instances[..0]) == {} && s0.objects - {} == s0.objects by { NoInstances(name); }
      ShrinkingStart(api.log, from, script);
      for i := 0 to |d.spec.instances|
        invariant Valid() && old(api.log) <= api.log && d.Value() == old(d.Value())
        invariant own == old(own) && ownScript == old(ownScript)
        invariant gone == InstanceKeys(name, d.spec.instances[..i]) && gone <= keys
        invariant Within(api.script, script) && ShrinkingFor(api.log, from, script)
        invariant Undisturbed(script, keys) ==> Remaining(api.Now(), gone) == {}
        invariant old(api.script) == [] ==> api.script == [] && api.Now() == s0.(objects := s0.objects - gone)
      {
        var x := d.spec.instances[i];
        OneMoreInstance(name, d.spec.instances, i);
        r := Delete(WorkloadKey(name, x), keys, gone, script, s0, from);
        if r != Finished { return; }
        r := Delete(ServiceKey(name, x), keys, gone + {WorkloadKey(name, x)}, script, s0, from);
        if r != Finished { return; }
        gone := gone + {WorkloadKey(name, x)} + {ServiceKey(name, x)};
      }
      assert d.spec.instances[..|d.spec.instances|] == d.spec.instances;
      r := Delete(ConfigKey(name), keys, gone, script, s0, from);
      if r != Finished { return; }
      r := Delete(SecretKey(name), keys, gone + {ConfigKey(name)}, script, s0, from);
      if r != Finished { return; }
      assert gone + {ConfigKey(name)} + {SecretKey(name)} == keys;

      d.finalizer := false;
      r := SubmitOwn(Runs.Drop, d.version, at);
    }

    /** Deletes one of `keys`, after those in `gone`. */
    method Delete(key: Key, ghost keys: set<Key>, ghost gone: set<Key>, ghost script: seq<Event>,
                  ghost s0: Store, ghost from: nat)
      returns (r: Outcome)
      requires Valid() && key in keys && gone <= keys && from < |api.log|
      requires Within(api.script, script) && ShrinkingFor(api.log, from, script)
      requires Undisturbed(script, keys) ==> Remaining(api.Now(), gone) == {}
      modifies api
      ensures Valid() && old(api.log) <= api.log && Within(api.script, script) && ShrinkingFor(api.log, from, script)
      ensures Undisturbed(script, keys) && r == Finished ==> Remaining(api.Now(), gone + {key}) == {}
      ensures old(api.script) == [] && old(api.Now()) == s0.(objects := s0.objects - gone) ==>
                api.script == [] && r == Finished && api.Now() == s0.(objects := s0.objects - (gone + {key}))
    {
      hide Runs.Run, History, Undisturbed, ShrinkingFor;
      ghost var before, middle := api.log, api.script;
      r := api.Remove(key);
      assert s0.objects - gone - {key} == s0.objects - (gone + {key});
      ShrinkingJoins(before, api.log, from, script, middle);
      if Undisturbed(script, keys) {
        StillUndisturbed(script, middle, keys);
        StillGone(before, api.log, middle, keys, gone);
      }
    }
  }

  lemma AppliesConfig(quantities: set<string>, cluster: string, namespace: string, s: Spec, st: Store,
                      conf: string, passwords: seq<string>)
    requires |passwords| == |s.access| + 2
    ensures ConfigKey(cluster) in PutAll(st, AppliedItems(quantities, cluster, namespace, s, conf, passwords)).objects
  {
    var items := AppliedItems(quantities, cluster, namespace, s, conf, passwords);
    assert items[0].key == ConfigKey(cluster) && items[0] in items;
    PutAllFinal(st, items, ConfigKey(cluster));
  }

  /** A read from before the deletion mark does bring objects back: a pass one version behind,
      without any fault, over a cluster that is being deleted and has no object left. */
  method EarlyReadRecreates(name: string, namespace: string, quantities: set<string>, spec: Spec,
                            conf: string, passwords: seq<string>) returns (c: Reconciler)
    requires spec.instances != [] && |passwords| == |spec.access| + 2
    ensures fresh(c) && c.Valid() && c.name == name && |c.own| >= 2 && Deleting(c.own[1])
    ensures Remaining(c.api.log[0], OwnedKeys(name, spec.instances)) == {}
    ensures ConfigKey(name) in Remaining(c.api.Now(), OwnedKeys(name, spec.instances))
  {
    hide PutAll, AppliedItems, ShrinkingFor, Defaulted, ParsingPrefix, Runs.Sound, Runs.Later, Undisturbed, NewStatus;
    var o := Runs.Own(Some(Runs.Stored(0, true, false, spec, Status(Unset, 0, "", [], ""))), 1, 0, 0);
    var marked := Runs.Do(name, o, Runs.MarkDeleted);
    MarkedRun(name, o);
    assert Deleting(marked);
    DefaultedKeepsInstances(spec);
    var start := Store(map[], 0);
    AppliesConfig(quantities, name, namespace, Defaulted(spec), start, conf, passwords);
    var api := new ApiServer([start], []);
    hide Runs.Run, Runs.Do, History;
    c := new Reconciler(name, namespace, quantities, api, [o, marked], [OwnEvent([], 1, Served)]);
    var _, _ := c.Reconcile(conf, passwords);
    assert ConfigKey(name) in OwnedKeys(name, spec.instances);
    assert c.api.log[0] == start;
  }

  lemma MarkedRun(cluster: string, o: Runs.Own)
    requires Runs.Sound(o)
    ensures Runs.Run(cluster, [o, Runs.Do(cluster, o, Runs.MarkDeleted)])
  {
    assert Runs.Step(cluster, o, Runs.Do(cluster, o, Runs.MarkDeleted));
  }
}
