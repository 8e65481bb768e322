/** The PostgresCluster resource: defaulting, legacy migration, effective settings, the
    objects a cluster asks for, and the status computed from its StatefulSets
    (controllers/postgrescluster_controller.go). */
module ClusterSpec {
  import opened Types
  import opened Selection
  import opened ObjectStore

  datatype Spec = Spec(
    version: string, instances: seq<Instance>, replicas: int, storage: Storage, resources: Resources,
    database: Database, access: seq<string>, highAvailability: bool, failoverTimeout: int,
    monitoring: bool, prometheus: bool, metricsPort: int)

  datatype Phase = Unset | Pending | Degraded | Running

  datatype Status = Status(
    phase: Phase, ready: int, currentPrimary: string, instances: seq<InstanceStatus>, databaseVersion: string)

  // ---- Defaults and legacy migration ----

  function Or(value: string, default_: string): string { if value == "" then default_ else value }

  function Defaulted(s: Spec): Spec {
    s.(replicas := if s.replicas == 0 then 1 else s.replicas,
       version := Or(s.version, "15"),
       database := s.database.(name := Or(s.database.name, "postgres")),
       storage := s.storage.(size := Or(s.storage.size, "10Gi")),
       resources := Resources(Or(s.resources.cpu, "500m"), Or(s.resources.memory, "1Gi")),
       failoverTimeout := if s.failoverTimeout == 0 then 30 else s.failoverTimeout)
  }

  /** A value that is set stays, one that is not becomes the documented default, and nothing
      else changes. */
  lemma DefaultedMeaning(s: Spec)
    ensures var d := Defaulted(s);
            && d == s.(replicas := d.replicas, version := d.version, failoverTimeout := d.failoverTimeout,
                       database := s.database.(name := d.database.name),
                       storage := s.storage.(size := d.storage.size), resources := d.resources)
            && (s.replicas != 0 ==> d.replicas == s.replicas) && (s.replicas == 0 ==> d.replicas == 1)
            && (s.version != "" ==> d.version == s.version) && (s.version == "" ==> d.version == "15")
            && (s.database.name != "" ==> d.database.name == s.database.name)
            && (s.database.name == "" ==> d.database.name == "postgres")
            && (s.storage.size != "" ==> d.storage.size == s.storage.size)
            && (s.storage.size == "" ==> d.storage.size == "10Gi")
            && (s.resources.cpu != "" ==> d.resources.cpu == s.resources.cpu)
            && (s.resources.cpu == "" ==> d.resources.cpu == "500m")
            && (s.resources.memory != "" ==> d.resources.memory == s.resources.memory)
            && (s.resources.memory == "" ==> d.resources.memory == "1Gi")
            && (s.failoverTimeout != 0 ==> d.failoverTimeout == s.failoverTimeout)
            && (s.failoverTimeout == 0 ==> d.failoverTimeout == 30)
  {
  }

  /** The single instance made of a spec that lists none. */
  function Migrated(s: Spec): Spec {
    s.(instances := [Instance("primary", "primary", Some(s.replicas), Some(s.database),
                                  Some(s.storage), Some(s.resources))])
  }

  function GetOr<T>(o: Option<T>, default_: T): T { if o.Some? then o.value else default_ }

  function WantedReplicas(x: Instance): int { GetOr(x.replicas, 1) }

  lemma DefaultedTwice(s: Spec)
    ensures Defaulted(Defaulted(s)) == Defaulted(s)
    ensures Defaulted(Migrated(Defaulted(s))) == Migrated(Defaulted(s))
  {
  }

  /** The migrated instance runs with exactly the cluster-level settings. */
  lemma MigrationPreserves(cluster: string, namespace: string, s: Spec)
    requires s.instances == []
    ensures var d := Defaulted(s);
            var m := Migrated(d);
            && |m.instances| == 1
            && m.(instances := []) == d.(instances := [])
            && DesiredWorkload(cluster, namespace, m, m.instances[0])
               == Workload(cluster, "primary", "primary", d.replicas, "postgres:" + d.version,
                           d.database, WithModes(d.storage), d.resources, None)
  {
  }

  // ---- Desired objects ----

  function ResourceName(cluster: string, instance: string): string { cluster + "-" + instance }

  lemma ResourceNameInjective(cluster: string, a: string, b: string)
    requires ResourceName(cluster, a) == ResourceName(cluster, b)
    ensures a == b
  {
    var n := |cluster| + 1;
    assert ResourceName(cluster, a)[n..] == a && ResourceName(cluster, b)[n..] == b;
  }

  function WithModes(s: Storage): Storage { if s.modes == [] then s.(modes := ["ReadWriteOnce"]) else s }

  function DesiredWorkload(cluster: string, namespace: string, s: Spec, x: Instance): Body {
    Workload(cluster, x.name, x.role, WantedReplicas(x), "postgres:" + s.version,
             GetOr(x.database, s.database), WithModes(GetOr(x.storage, s.storage)), GetOr(x.resources, s.resources),
             if x.role == "replica" && s.highAvailability
             then Some(cluster + "-primary." + namespace + ".svc.cluster.local") else None)
  }

  /** An instance that leaves a setting to the cluster gets the workload of one that states the
      cluster's value; replicas left out mean one, whatever the cluster says. */
  lemma AbsentMeansCluster(cluster: string, namespace: string, s: Spec, x: Instance)
    ensures var w := DesiredWorkload(cluster, namespace, s, x);
            && (x.resources.None? ==> w == DesiredWorkload(cluster, namespace, s, x.(resources := Some(s.resources))))
            && (x.database.None? ==> w == DesiredWorkload(cluster, namespace, s, x.(database := Some(s.database))))
            && (x.storage.None? ==> w == DesiredWorkload(cluster, namespace, s, x.(storage := Some(s.storage))))
            && (x.replicas.None? ==> w == DesiredWorkload(cluster, namespace, s, x.(replicas := Some(1))))
  {
  }

  /** A setting the instance states is the one it gets, and the cluster's does not matter; nor
      do the cluster's replicas ever. */
  lemma StatedOverrides(cluster: string, namespace: string, s: Spec, t: Spec, x: Instance)
    ensures var w := DesiredWorkload(cluster, namespace, s, x);
            && (x.resources.Some? ==>
                  w.resources == x.resources.value
                  && w == DesiredWorkload(cluster, namespace, s.(resources := t.resources), x))
            && (x.database.Some? ==>
                  w.database == x.database.value
                  && w == DesiredWorkload(cluster, namespace, s.(database := t.database), x))
            && (x.storage.Some? ==>
                  w.storage.(modes := x.storage.value.modes) == x.storage.value
                  && w == DesiredWorkload(cluster, namespace, s.(storage := t.storage), x))
            && (x.replicas.Some? ==> w.replicas == x.replicas.value)
            && w == DesiredWorkload(cluster, namespace, s.(replicas := t.replicas, instances := t.instances), x)
            && w.cluster == cluster && w.instance == x.name && w.role == x.role && w.image == "postgres:" + s.version
  {
  }

  /** Access modes are those asked for, or ReadWriteOnce alone. */
  lemma AccessModes(cluster: string, namespace: string, s: Spec, x: Instance)
    ensures var asked := if x.storage.Some? then x.storage.value.modes else s.storage.modes;
            var modes := DesiredWorkload(cluster, namespace, s, x).storage.modes;
            (asked != [] ==> modes == asked) && (asked == [] ==> modes == ["ReadWriteOnce"])
  {
  }

  /** A replica under high availability, and nothing else, is pointed at the Service of the
      instance named "primary". */
  lemma PrimaryHost(cluster: string, namespace: string, s: Spec, x: Instance)
    ensures var host := DesiredWorkload(cluster, namespace, s, x).primaryHost;
            && (host.Some? <==> x.role == "replica" && s.highAvailability)
            && (host.Some? ==>
                  host.value
                  == ServiceKey(cluster, x.(name := "primary")).name + "." + namespace + ".svc.cluster.local")
  {
  }

  function ServiceKey(cluster: string, x: Instance): Key { Key(Service, ResourceName(cluster, x.name)) }
  function WorkloadKey(cluster: string, x: Instance): Key { Key(StatefulSet, ResourceName(cluster, x.name)) }
  function ConfigKey(cluster: string): Key { Key(ConfigMap, cluster + "-config") }
  function SecretKey(cluster: string): Key { Key(Secret, cluster + "-credentials") }
  function MetricsKey(cluster: string): Key { Key(Service, ResourceName(cluster, "metrics")) }

  function InstanceKeys(cluster: string, instances: seq<Instance>): set<Key> {
    (set x | x in instances :: ServiceKey(cluster, x)) + (set x | x in instances :: WorkloadKey(cluster, x))
  }

  /** The keys `handleDeletion` deletes. */
  function OwnedKeys(cluster: string, instances: seq<Instance>): set<Key> {
    InstanceKeys(cluster, instances) + {ConfigKey(cluster), SecretKey(cluster)}
  }

  /** The names as they are written; an instance's Service and StatefulSet share one. */
  lemma NamesAsWritten(x: Instance)
    requires x.name == "a"
    ensures ServiceKey("pg", x) == Key(Service, "pg-a") && WorkloadKey("pg", x) == Key(StatefulSet, "pg-a")
    ensures ConfigKey("pg") == Key(ConfigMap, "pg-config") && SecretKey("pg") == Key(Secret, "pg-credentials")
    ensures MetricsKey("pg") == Key(Service, "pg-metrics")
  {
  }

  lemma InstanceKeysNext(cluster: string, instances: seq<Instance>)
    requires instances != []
    ensures var n := |instances| - 1;
            InstanceKeys(cluster, instances)
            == InstanceKeys(cluster, instances[..n])
               + {ServiceKey(cluster, instances[n]), WorkloadKey(cluster, instances[n])}
  {
    assert instances == instances[..|instances| - 1] + [instances[|instances| - 1]];
  }

  lemma NewInstanceKeys(cluster: string, instances: seq<Instance>, x: Instance)
    requires x.name !in Names(instances)
    ensures ServiceKey(cluster, x) !in InstanceKeys(cluster, instances)
    ensures WorkloadKey(cluster, x) !in InstanceKeys(cluster, instances)
  {
    forall y | y in instances ensures ResourceName(cluster, y.name) != ResourceName(cluster, x.name) {
      var i :| 0 <= i < |instances| && instances[i] == y;
      assert Names(instances)[i] == y.name;
      if ResourceName(cluster, y.name) == ResourceName(cluster, x.name) {
        ResourceNameInjective(cluster, y.name, x.name);
      }
    }
  }

  lemma InstanceKeyKinds(cluster: string, instances: seq<Instance>)
    ensures forall key | key in InstanceKeys(cluster, instances) :: key.kind == Service || key.kind == StatefulSet
  {
    hide ResourceName;
  }

  lemma TwoMore<T>(a: set<T>, x: T, y: T)
    requires x != y && x !in a && y !in a
    ensures |a + {x, y}| == |a| + 2
  {
    assert a + {x, y} == a + {x} + {y};
  }

  lemma NamesBefore(instances: seq<Instance>)
    requires instances != [] && Distinct(Names(instances))
    ensures var n := |instances| - 1;
            instances[n].name !in Names(instances[..n]) && Distinct(Names(instances[..n]))
  {
    var n := |instances| - 1;
    assert Names(instances)[..n] == Names(instances[..n]) && Names(instances)[n] == instances[n].name;
  }

  lemma {:induction false} InstanceKeysCount(cluster: string, instances: seq<Instance>)
    requires Distinct(Names(instances))
    ensures |InstanceKeys(cluster, instances)| == 2 * |instances|
  {
    hide ResourceName;
    if instances != [] {
      var n := |instances| - 1;
      NamesBefore(instances);
      hide InstanceKeys, Distinct, Names;
      InstanceKeysCount(cluster, instances[..n]);
      InstanceKeysNext(cluster, instances);
      NewInstanceKeys(cluster, instances[..n], instances[n]);
      TwoMore(InstanceKeys(cluster, instances[..n]),
              ServiceKey(cluster, instances[n]), WorkloadKey(cluster, instances[n]));
    }
  }

  /** Deletion covers 2n + 2 objects. */
  lemma OwnedKeysCount(cluster: string, instances: seq<Instance>)
    requires Distinct(Names(instances))
    ensures |OwnedKeys(cluster, instances)| == 2 * |instances| + 2
  {
    InstanceKeysCount(cluster, instances);
    InstanceKeyKinds(cluster, instances);
    hide InstanceKeys, Distinct, Names;
    TwoMore(InstanceKeys(cluster, instances), ConfigKey(cluster), SecretKey(cluster));
  }

  /** The Service that replicas are pointed at is applied exactly if some instance is named
      "primary", whatever the instances' roles are. */
  lemma PrimaryHostServed(cluster: string, instances: seq<Instance>)
    ensures Key(Service, cluster + "-primary") in InstanceKeys(cluster, instances) <==> "primary" in Names(instances)
  {
    var key := Key(Service, cluster + "-primary");
    assert key.name == ResourceName(cluster, "primary") by { assert cluster + "-" + "primary" == cluster + "-primary"; }
    if key in InstanceKeys(cluster, instances) {
      var x :| x in instances && ServiceKey(cluster, x) == key;
      ResourceNameInjective(cluster, x.name, "primary");
      var i :| 0 <= i < |instances| && instances[i] == x;
      assert Names(instances)[i] == "primary";
    }
    if "primary" in Names(instances) {
      var i :| 0 <= i < |instances| && Names(instances)[i] == "primary";
      assert instances[i] in instances && ServiceKey(cluster, instances[i]) == key;
    }
  }

  /** The metrics Service outlives the cluster's finalizer, unless an instance has its name. */
  lemma MetricsServiceLeft(cluster: string, instances: seq<Instance>)
    ensures MetricsKey(cluster) in OwnedKeys(cluster, instances) <==> "metrics" in Names(instances)
  {
    if MetricsKey(cluster) in OwnedKeys(cluster, instances) {
      var x :| x in instances && ServiceKey(cluster, x) == MetricsKey(cluster);
      ResourceNameInjective(cluster, x.name, "metrics");
      var i :| 0 <= i < |instances| && instances[i] == x;
      assert Names(instances)[i] == "metrics";
    }
    if "metrics" in Names(instances) {
      var i :| 0 <= i < |instances| && Names(instances)[i] == "metrics";
      assert ServiceKey(cluster, instances[i]) == MetricsKey(cluster);
    }
  }

  // ---- Status ----

  const LIMIT32: int := 0x8000_0000

  /** Go's int32 arithmetic wraps around. */
  function Wrap32(x: int): int { (x + LIMIT32) % (2 * LIMIT32) - LIMIT32 }

  /** The one int32 that differs by a multiple of 2^32. */
  lemma WrapMeaning(x: int)
    ensures -0x8000_0000 <= Wrap32(x) < 0x8000_0000 && (x - Wrap32(x)) % 0x1_0000_0000 == 0
  {
  }

  function Sum(xs: seq<int>): int {
    if xs == [] then 0 else Sum(xs[..|xs| - 1]) + xs[|xs| - 1]
  }

  function Sum32(xs: seq<int>): int {
    if xs == [] then 0 else Wrap32(Sum32(xs[..|xs| - 1]) + xs[|xs| - 1])
  }

  lemma {:induction false} SumsAgree(xs: seq<int>)
    requires forall i | 0 <= i < |xs| :: 0 <= xs[i]
    requires Sum(xs) < LIMIT32
    ensures 0 <= Sum(xs) && Sum32(xs) == Sum(xs)
  {
    if xs != [] {
      var n := |xs| - 1;
      SumNonNegative(xs[..n]);
      SumsAgree(xs[..n]);
    }
  }

  lemma {:induction false} SumNonNegative(xs: seq<int>)
    requires forall i | 0 <= i < |xs| :: 0 <= xs[i]
    ensures 0 <= Sum(xs)
  {
    if xs != [] { SumNonNegative(xs[..|xs| - 1]); }
  }

  /** Sums of pointwise smaller numbers are smaller, and equal only if the numbers are. */
  lemma {:induction false} SumsCompare(a: seq<int>, b: seq<int>)
    requires |a| == |b| && forall i | 0 <= i < |a| :: a[i] <= b[i]
    ensures Sum(a) <= Sum(b)
    ensures Sum(a) == Sum(b) <==> a == b
  {
    if a != [] {
      var n := |a| - 1;
      SumsCompare(a[..n], b[..n]);
      assert a == a[..n] + [a[n]] && b == b[..n] + [b[n]];
    }
  }

  /** Ready replicas of one instance; an unreadable StatefulSet counts as none. */
  function Ready(o: Option<int>): int { GetOr(o, 0) }

  function LeaderOf(cluster: string, x: Instance, seen: Option<int>): string {
    if x.role == "primary" && Ready(seen) > 0 then ResourceName(cluster, x.name) + "-0" else ""
  }

  function StatusOf(cluster: string, x: Instance, seen: Option<int>): InstanceStatus {
    InstanceStatus(x.name, x.role, Ready(seen), LeaderOf(cluster, x, seen), StatusLabels(cluster, x.name, x.role))
  }

  function StatusesOf(cluster: string, xs: seq<Instance>, seen: seq<Option<int>>): (r: seq<InstanceStatus>)
    requires |seen| == |xs|
    ensures |r| == |xs| && forall i | 0 <= i < |xs| :: r[i] == StatusOf(cluster, xs[i], seen[i])
  {
    seq(|xs|, i requires 0 <= i < |xs| => StatusOf(cluster, xs[i], seen[i]))
  }

  function ReadyCounts(seen: seq<Option<int>>): (r: seq<int>)
    ensures |r| == |seen| && forall i | 0 <= i < |seen| :: r[i] == Ready(seen[i])
  {
    seq(|seen|, i requires 0 <= i < |seen| => Ready(seen[i]))
  }

  function WantedCounts(xs: seq<Instance>): (r: seq<int>)
    ensures |r| == |xs| && forall i | 0 <= i < |xs| :: r[i] == WantedReplicas(xs[i])
  {
    seq(|xs|, i requires 0 <= i < |xs| => WantedReplicas(xs[i]))
  }

  /** The last non-empty leader, or `old_` if there is none. */
  function LastLeader(statuses: seq<InstanceStatus>, old_: string): string {
    if statuses == [] then old_
    else
      var s := statuses[|statuses| - 1];
      if s.leader != "" then s.leader else LastLeader(statuses[..|statuses| - 1], old_)
  }

  function PhaseOf(ready: int, wanted: int): Phase {
    if ready == wanted then Running else if ready > 0 then Degraded else Pending
  }

  /** The status `updateStatus` computes; `seen` is what reading each StatefulSet gave. */
  function NewStatus(cluster: string, s: Spec, old_: Status, seen: seq<Option<int>>): Status
    requires |seen| == |s.instances|
  {
    var statuses := StatusesOf(cluster, s.instances, seen);
    var ready, wanted := Sum32(ReadyCounts(seen)), Sum32(WantedCounts(s.instances));
    Status(PhaseOf(ready, wanted), ready, LastLeader(statuses, old_.currentPrimary), statuses, s.version)
  }

  /** With no instance over-ready and no overflow, ReadyReplicas is the sum over the
      instances and Running means every single one is fully ready. */
  lemma ReplicaConservation(cluster: string, s: Spec, old_: Status, seen: seq<Option<int>>)
    requires |seen| == |s.instances|
    requires forall i | 0 <= i < |seen| :: 0 <= Ready(seen[i]) <= WantedReplicas(s.instances[i])
    requires Sum(WantedCounts(s.instances)) < LIMIT32
    ensures var status := NewStatus(cluster, s, old_, seen);
            && |status.instances| == |s.instances|
            && (forall i | 0 <= i < |seen| ::
                  status.instances[i].name == s.instances[i].name && status.instances[i].ready == Ready(seen[i]))
            && status.ready == Sum(ReadyCounts(seen))
            && (status.phase == Running <==>
                  forall i | 0 <= i < |seen| :: Ready(seen[i]) == WantedReplicas(s.instances[i]))
  {
    var a, b := ReadyCounts(seen), WantedCounts(s.instances);
    SumsCompare(a, b);
    SumsAgree(b);
    SumsAgree(a);
    assert a == b <==> forall i | 0 <= i < |seen| :: a[i] == b[i];
  }

  /** Everything else a status says: the instances' roles, labels and leaders, the version, and
      which phase it is if not Running. */
  lemma StatusMeaning(cluster: string, s: Spec, old_: Status, seen: seq<Option<int>>)
    requires |seen| == |s.instances|
    ensures var status := NewStatus(cluster, s, old_, seen);
            && status.databaseVersion == s.version
            && |status.instances| == |s.instances|
            && (forall i | 0 <= i < |seen| ::
                  var x, y := s.instances[i], status.instances[i];
                  && y.name == x.name && y.role == x.role && y.labels == StatusLabels(cluster, x.name, x.role)
                  && (seen[i].Some? ==> y.ready == seen[i].value) && (seen[i].None? ==> y.ready == 0)
                  && (y.leader != "" <==> x.role == "primary" && y.ready > 0)
                  && (y.leader != "" ==> y.leader == cluster + "-" + x.name + "-0"))
    ensures (forall i | 0 <= i < |seen| :: 0 <= Ready(seen[i])) && Sum(ReadyCounts(seen)) < LIMIT32 ==>
              var status := NewStatus(cluster, s, old_, seen);
              && status.ready == Sum(ReadyCounts(seen))
              && (status.phase == Degraded <==>
                    status.phase != Running && exists i | 0 <= i < |seen| :: status.instances[i].ready > 0)
              && (status.phase == Pending <==>
                    status.phase != Running && forall i | 0 <= i < |seen| :: status.instances[i].ready == 0)
  {
    hide Sum, Sum32, StatusLabels;
    assert forall i | 0 <= i < |seen| :: |ResourceName(cluster, s.instances[i].name) + "-0"| > 0;
    var a := ReadyCounts(seen);
    if (forall i | 0 <= i < |seen| :: 0 <= Ready(seen[i])) && Sum(a) < LIMIT32 {
      SumsAgree(a);
      SumPositive(a);
    }
  }

  /** By how much each number exceeds its counterpart. */
  function Over(a: seq<int>, b: seq<int>): (r: seq<int>)
    requires |a| == |b|
    ensures |r| == |a| && forall i | 0 <= i < |a| :: r[i] == if a[i] > b[i] then a[i] - b[i] else 0
  {
    seq(|a|, i requires 0 <= i < |a| => if a[i] > b[i] then a[i] - b[i] else 0)
  }

  lemma {:induction false} SumsDiffer(a: seq<int>, b: seq<int>)
    requires |a| == |b|
    ensures Sum(a) - Sum(b) == Sum(Over(a, b)) - Sum(Over(b, a))
  {
    if a != [] {
      var n := |a| - 1;
      SumsDiffer(a[..n], b[..n]);
      assert Over(a, b)[..n] == Over(a[..n], b[..n]) && Over(b, a)[..n] == Over(b[..n], a[..n]);
    }
  }

  lemma {:induction false} SumPositive(xs: seq<int>)
    requires forall i | 0 <= i < |xs| :: 0 <= xs[i]
    ensures 0 <= Sum(xs)
    ensures Sum(xs) > 0 <==> exists i | 0 <= i < |xs| :: xs[i] > 0
  {
    if xs != [] {
      var n := |xs| - 1;
      SumPositive(xs[..n]);
      if exists i | 0 <= i < n :: xs[i] > 0 {
        var i :| 0 <= i < n && xs[i] > 0;
        assert xs[..n][i] > 0;
      }
    }
  }

  lemma WrapTwice(x: int, y: int)
    ensures Wrap32(Wrap32(x) + y) == Wrap32(x + y)
  {
  }

  /** Wrapping at every step or once at the end is the same. */
  lemma {:induction false} SumWraps(xs: seq<int>)
    ensures Sum32(xs) == Wrap32(Sum(xs))
  {
    if xs != [] {
      hide Wrap32;
      SumWraps(xs[..|xs| - 1]);
      WrapTwice(Sum(xs[..|xs| - 1]), xs[|xs| - 1]);
    } else {
      assert Wrap32(0) == 0;
    }
  }

  lemma WrapsAlike(x: int, y: int)
    ensures Wrap32(x) == Wrap32(y) <==> (x - y) % (2 * LIMIT32) == 0
  {
  }

  /** How many ready replicas there are too many, instance by instance. */
  function Surplus(s: Spec, seen: seq<Option<int>>): int
    requires |seen| == |s.instances|
  {
    Sum(Over(ReadyCounts(seen), WantedCounts(s.instances)))
  }

  /** How many are missing. */
  function Deficit(s: Spec, seen: seq<Option<int>>): int
    requires |seen| == |s.instances|
  {
    Sum(Over(WantedCounts(s.instances), ReadyCounts(seen)))
  }

  predicate AllReady(s: Spec, seen: seq<Option<int>>)
    requires |seen| == |s.instances|
  {
    forall i | 0 <= i < |seen| :: Ready(seen[i]) == WantedReplicas(s.instances[i])
  }

  lemma OverNone(s: Spec, seen: seq<Option<int>>)
    requires |seen| == |s.instances|
    ensures 0 <= Surplus(s, seen) && 0 <= Deficit(s, seen)
    ensures Deficit(s, seen) > 0 <==> exists i | 0 <= i < |seen| :: Ready(seen[i]) < WantedReplicas(s.instances[i])
    ensures AllReady(s, seen) <==> Surplus(s, seen) == 0 && Deficit(s, seen) == 0
  {
    var a, b := ReadyCounts(seen), WantedCounts(s.instances);
    SumPositive(Over(a, b));
    SumPositive(Over(b, a));
    assert forall i | 0 <= i < |seen| :: Over(a, b)[i] > 0 <==> Ready(seen[i]) > WantedReplicas(s.instances[i]);
    assert forall i | 0 <= i < |seen| :: Over(b, a)[i] > 0 <==> Ready(seen[i]) < WantedReplicas(s.instances[i]);
  }

  /** For all counts, wrapped or not: Running means that surplus and deficit cancel out. */
  lemma RunningExactly(cluster: string, s: Spec, old_: Status, seen: seq<Option<int>>)
    requires |seen| == |s.instances|
    ensures NewStatus(cluster, s, old_, seen).phase == Running
            <==> (Surplus(s, seen) - Deficit(s, seen)) % (2 * LIMIT32) == 0
  {
    hide Wrap32, Sum32, Sum, Over;
    var a, b := ReadyCounts(seen), WantedCounts(s.instances);
    SumWraps(a);
    SumWraps(b);
    WrapsAlike(Sum(a), Sum(b));
    SumsDiffer(a, b);
  }

  /** So Running misleads, with some instance not exactly ready, exactly if the surplus
      elsewhere equals what is missing and is positive, as long as neither reaches 2^32. */
  lemma RunningMisleads(cluster: string, s: Spec, old_: Status, seen: seq<Option<int>>)
    requires |seen| == |s.instances| && Surplus(s, seen) < 2 * LIMIT32 && Deficit(s, seen) < 2 * LIMIT32
    ensures NewStatus(cluster, s, old_, seen).phase == Running <==> Surplus(s, seen) == Deficit(s, seen)
    ensures NewStatus(cluster, s, old_, seen).phase == Running && !AllReady(s, seen)
            <==> Surplus(s, seen) == Deficit(s, seen) > 0
  {
    hide NewStatus, Surplus, Deficit, AllReady;
    RunningExactly(cluster, s, old_, seen);
    OverNone(s, seen);
    SmallMultiple32(Surplus(s, seen) - Deficit(s, seen));
  }

  lemma SmallMultiple32(x: int)
    requires -2 * LIMIT32 < x < 2 * LIMIT32
    ensures x % (2 * LIMIT32) == 0 <==> x == 0
  {
  }

  /** One instance scaling down can hide that another is not ready. */
  lemma TotalsCanMislead(cluster: string, s: Spec, old_: Status, x: Instance, y: Instance)
    requires s.instances == [x.(replicas := Some(1)), y.(replicas := Some(1))]
    ensures NewStatus(cluster, s, old_, [Some(2), Some(0)]).phase == Running
  {
    var ready, wanted := ReadyCounts([Some(2), Some(0)]), WantedCounts(s.instances);
    assert ready == [2, 0] && wanted == [1, 1];
    assert ready[..1] == [2] && wanted[..1] == [1] && ready[..1][..0] == [] && wanted[..1][..0] == [];
    SumsAgree(ready);
    SumsAgree(wanted);
  }

  lemma {:induction false} LastLeaderFound(statuses: seq<InstanceStatus>, old_: string)
    ensures var r := LastLeader(statuses, old_);
            (r == old_ && forall j | 0 <= j < |statuses| :: statuses[j].leader == "")
            || exists i | 0 <= i < |statuses| ::
                 r == statuses[i].leader != "" && forall j | i < j < |statuses| :: statuses[j].leader == ""
  {
    if statuses != [] && statuses[|statuses| - 1].leader == "" {
      LastLeaderFound(statuses[..|statuses| - 1], old_);
    }
  }

  predicate ReadyPrimary(x: Instance, seen: Option<int>) { x.role == "primary" && Ready(seen) > 0 }

  /** CurrentPrimary names pod 0 of the last primary instance with ready replicas, in
      spec order; with none it stays as it was. */
  lemma PrimaryIsLastReady(cluster: string, s: Spec, old_: Status, seen: seq<Option<int>>)
    requires |seen| == |s.instances|
    ensures var r := NewStatus(cluster, s, old_, seen).currentPrimary;
            (r == old_.currentPrimary && forall j | 0 <= j < |seen| :: !ReadyPrimary(s.instances[j], seen[j]))
            || exists i | 0 <= i < |seen| ::
                 && ReadyPrimary(s.instances[i], seen[i])
                 && r == ResourceName(cluster, s.instances[i].name) + "-0"
                 && forall j | i < j < |seen| :: !ReadyPrimary(s.instances[j], seen[j])
  {
    hide ResourceName, StatusLabels, Sum32;
    var statuses := StatusesOf(cluster, s.instances, seen);
    LastLeaderFound(statuses, old_.currentPrimary);
    forall i | 0 <= i < |seen| ensures statuses[i].leader == "" <==> !ReadyPrimary(s.instances[i], seen[i]) {
      assert |ResourceName(cluster, s.instances[i].name) + "-0"| > 0;
    }
  }

  /** While the cluster's status is the one computed for its current spec, the restore and
      the user controller pick the same instances if, and under distinct names only if,
      `SameSelection`. */
  lemma ControllersAgree(cluster: string, s: Spec, old_: Status, seen: seq<Option<int>>, selector: Option<Selector>)
    requires |seen| == |s.instances|
    ensures var statuses := NewStatus(cluster, s, old_, seen).instances;
            && (SameSelection(cluster, s.instances, selector) ==>
                  Agree(RestoreTargets(s.instances, selector), UserTargets(statuses, selector)))
            && (Distinct(Names(s.instances)) || !ByLabels(selector) ==>
                  (Agree(RestoreTargets(s.instances, selector), UserTargets(statuses, selector))
                   <==> SameSelection(cluster, s.instances, selector)))
  {
    hide RestoreTargets, UserTargets, Agree, SameSelection, ByLabels, Distinct;
    SelectionAgreement(cluster, s.instances, NewStatus(cluster, s, old_, seen).instances, selector);
  }
}
