/** What applying a list of desired objects, one CreateOrUpdate after the other, ends with. */
module ClusterApply {
  import opened Types
  import opened ObjectStore
  import opened ClusterSpec

  datatype Item = Item(key: Key, desired: Content)

  function PutAll(s: Store, items: seq<Item>): Store {
    if items == [] then s
    else
      var last := items[|items| - 1];
      Do(PutAll(s, items[..|items| - 1]), Put(last.key, last.desired))
  }

  predicate Mentions(items: seq<Item>, key: Key) { exists x | x in items :: x.key == key }

  function FirstFor(items: seq<Item>, key: Key): Content
    requires Mentions(items, key)
  {
    if items[0].key == key then items[0].desired
    else
      assert exists x | x in items[1..] :: x.key == key by {
        var x :| x in items && x.key == key;
        assert items == [items[0]] + items[1..];
      }
      FirstFor(items[1..], key)
  }

  function LastFor(items: seq<Item>, key: Key): Content
    requires Mentions(items, key)
  {
    var n := |items| - 1;
    if items[n].key == key then items[n].desired
    else
      assert exists x | x in items[..n] :: x.key == key by {
        var x :| x in items && x.key == key;
        assert items == items[..n] + [items[n]];
      }
      LastFor(items[..n], key)
  }

  /** The content a key ends with: the last one desired, except that kinds which keep
      their data have the live data, or else the first data they were created with. */
  function FinalContent(s: Store, items: seq<Item>, key: Key): Content
    requires Mentions(items, key)
  {
    if KeepsData(key.kind)
    then Content(if key in s.objects then s.objects[key].content.data else FirstFor(items, key).data,
                 LastFor(items, key).body)
    else LastFor(items, key)
  }

  lemma {:induction false} FirstForPrefix(items: seq<Item>, key: Key)
    requires items != [] && Mentions(items[..|items| - 1], key)
    ensures Mentions(items, key) && FirstFor(items, key) == FirstFor(items[..|items| - 1], key)
    decreases |items|
  {
    var n := |items| - 1;
    var x :| x in items[..n] && x.key == key;
    assert x in items;
    if items[0].key != key {
      assert items[..n] == [items[0]] + items[1..n];
      assert x in items[1..n];
      assert items[1..][..n - 1] == items[1..n];
      FirstForPrefix(items[1..], key);
      assert items[..n][1..] == items[1..n];
    } else {
      assert items[..n][0] == items[0];
    }
  }

  lemma {:induction false} FirstForNew(items: seq<Item>, key: Key)
    requires items != [] && items[|items| - 1].key == key && !Mentions(items[..|items| - 1], key)
    ensures Mentions(items, key) && FirstFor(items, key) == items[|items| - 1].desired
    decreases |items|
  {
    var n := |items| - 1;
    assert items[n] in items;
    if n > 0 {
      assert items[0] in items[..n];
      forall x | x in items[1..][..n - 1] ensures x.key != key { assert x in items[..n]; }
      FirstForNew(items[1..], key);
    }
  }

  /** Applying a list ends, key by key, with `FinalContent`; other keys are untouched. */
  lemma {:induction false} PutAllFinal(s: Store, items: seq<Item>, key: Key)
    ensures var s' := PutAll(s, items);
            if Mentions(items, key) then key in s'.objects && s'.objects[key].content == FinalContent(s, items, key)
            else (key in s'.objects <==> key in s.objects) && (key in s.objects ==> s'.objects[key] == s.objects[key])
  {
    if items != [] {
      var n := |items| - 1;
      PutAllFinal(s, items[..n], key);
      if items[n].key == key {
        assert items[n] in items;
        if Mentions(items[..n], key) { FirstForPrefix(items, key); } else { FirstForNew(items, key); }
      } else {
        if Mentions(items[..n], key) { FirstForPrefix(items, key); }
        assert Mentions(items, key) ==> Mentions(items[..n], key) by {
          if Mentions(items, key) {
            var x :| x in items && x.key == key;
            assert items == items[..n] + [items[n]];
          }
        }
      }
    }
  }

  /** No two items ask for different contents under one key, kinds that keep data aside. */
  ghost predicate NoConflict(items: seq<Item>) {
    forall i, j | 0 <= i < j < |items| ::
      items[i].key == items[j].key && !KeepsData(items[i].key.kind) ==> items[i].desired == items[j].desired
  }

  lemma {:induction false} LastForIs(items: seq<Item>, key: Key)
    requires Mentions(items, key)
    ensures exists i | 0 <= i < |items| :: items[i].key == key && LastFor(items, key) == items[i].desired
              && forall j | i < j < |items| :: items[j].key != key
  {
    var n := |items| - 1;
    if items[n].key != key {
      var x :| x in items && x.key == key;
      assert items == items[..n] + [items[n]];
      assert x in items[..n];
      LastForIs(items[..n], key);
    }
  }

  /** Every object ends equal to its own item exactly when no iteration overwrites another's. */
  lemma {:induction false} EachEndsAsDesired(s: Store, items: seq<Item>)
    ensures (forall x | x in items && !KeepsData(x.key.kind) ::
               x.key in PutAll(s, items).objects && PutAll(s, items).objects[x.key].content == x.desired)
            <==> NoConflict(items)
  {
    var s' := PutAll(s, items);
    forall x | x in items && !KeepsData(x.key.kind)
      ensures x.key in s'.objects && s'.objects[x.key].content == LastFor(items, x.key)
    {
      assert Mentions(items, x.key);
      PutAllFinal(s, items, x.key);
    }
    if NoConflict(items) {
      forall x | x in items && !KeepsData(x.key.kind) ensures LastFor(items, x.key) == x.desired {
        LastForIs(items, x.key);
        var k :| 0 <= k < |items| && items[k] == x;
      }
    }
  }

  /** Two lists for the same cluster; what kinds that keep data bring may differ. */
  ghost predicate SameButData(a: seq<Item>, b: seq<Item>) {
    && |a| == |b|
    && forall i | 0 <= i < |a| ::
         && a[i].key == b[i].key && a[i].desired.body == b[i].desired.body
         && (!KeepsData(a[i].key.kind) ==> a[i].desired == b[i].desired)
  }

  lemma {:induction false} LastForSame(a: seq<Item>, b: seq<Item>, key: Key)
    requires SameButData(a, b) && Mentions(a, key)
    ensures Mentions(b, key) && LastFor(a, key).body == LastFor(b, key).body
    ensures !KeepsData(key.kind) ==> LastFor(a, key) == LastFor(b, key)
  {
    var n := |a| - 1;
    var i :| 0 <= i < |a| && a[i].key == key;
    assert b[i] in b;
    if a[n].key != key {
      assert a[..n][i] in a[..n];
      LastForSame(a[..n], b[..n], key);
    }
  }

  /** Applying again, even with freshly generated data, changes nothing but versions. */
  lemma ApplyAgain(s: Store, a: seq<Item>, b: seq<Item>, key: Key)
    requires SameButData(a, b)
    ensures var s1, s2 := PutAll(s, a), PutAll(PutAll(s, a), b);
            && (key in s2.objects <==> key in s1.objects)
            && (key in s1.objects ==> s2.objects[key].content == s1.objects[key].content)
  {
    PutAllFinal(s, a, key);
    PutAllFinal(PutAll(s, a), b, key);
    if Mentions(a, key) {
      LastForSame(a, b, key);
    } else {
      assert forall i | 0 <= i < |b| :: a[i] in a && b[i].key != key;
    }
  }

  // ---- The items of a cluster ----

  /** The credentials: a password for postgres, one for replication, one for each user. */
  function Credentials(passwords: seq<string>, access: seq<string>): map<string, string>
    requires |passwords| == |access| + 2
    decreases |access|
  {
    if access == [] then map["postgres-password" := passwords[0], "replication-password" := passwords[1]]
    else
      var n := |access| - 1;
      Credentials(passwords[..n + 2], access[..n])["user-" + access[n] + "-password" := passwords[n + 2]]
  }

  function InstanceItems(cluster: string, namespace: string, s: Spec, x: Instance): seq<Item> {
    [ Item(ServiceKey(cluster, x), Content(map[], InstanceService(cluster, x.name, x.role))),
      Item(WorkloadKey(cluster, x), Content(map[], DesiredWorkload(cluster, namespace, s, x))) ]
  }

  function AllInstanceItems(cluster: string, namespace: string, s: Spec, n: nat): (items: seq<Item>)
    requires n <= |s.instances|
    ensures |items| == 2 * n
    ensures forall i | 0 <= i < n ::
              && items[2 * i] == InstanceItems(cluster, namespace, s, s.instances[i])[0]
              && items[2 * i + 1] == InstanceItems(cluster, namespace, s, s.instances[i])[1]
  {
    if n == 0 then []
    else AllInstanceItems(cluster, namespace, s, n - 1) + InstanceItems(cluster, namespace, s, s.instances[n - 1])
  }

  function BaseItems(cluster: string, s: Spec, conf: string, passwords: seq<string>): seq<Item>
    requires |passwords| == |s.access| + 2
  {
    [ Item(ConfigKey(cluster), Content(map["postgresql.conf" := conf], NoBody)),
      Item(SecretKey(cluster), Content(Credentials(passwords, s.access), NoBody)) ]
  }

  predicate Scraped(s: Spec) { s.monitoring && s.prometheus }

  function MetricsItems(cluster: string, s: Spec): seq<Item> {
    if Scraped(s) then [Item(MetricsKey(cluster), Content(map[], MetricsService(cluster, s.metricsPort)))] else []
  }

  /** Everything `reconcileCluster` applies, in order. */
  function ClusterItems(cluster: string, namespace: string, s: Spec, conf: string, passwords: seq<string>): seq<Item>
    requires |passwords| == |s.access| + 2
  {
    BaseItems(cluster, s, conf, passwords) + AllInstanceItems(cluster, namespace, s, |s.instances|)
    + MetricsItems(cluster, s)
  }

  /** Distinct instance names, none of them taken by the metrics service, never conflict. */
  lemma DistinctNamesNoConflict(cluster: string, namespace: string, s: Spec, conf: string, passwords: seq<string>)
    requires |passwords| == |s.access| + 2
    requires Distinct(Names(s.instances)) && (Scraped(s) ==> "metrics" !in Names(s.instances))
    ensures NoConflict(ClusterItems(cluster, namespace, s, conf, passwords))
  {
    hide DesiredWorkload, Credentials, ResourceName;
    var items := ClusterItems(cluster, namespace, s, conf, passwords);
    var n := |s.instances|;
    forall i, j | 0 <= i < j < |items| && !KeepsData(items[i].key.kind) ensures items[i].key != items[j].key {
      if items[i].key == items[j].key {
        var p := (i - 2) / 2;
        assert 2 <= i && items[i].key.name == ResourceName(cluster, s.instances[p].name) && items[i].key
          == if i % 2 == 0 then ServiceKey(cluster, s.instances[p]) else WorkloadKey(cluster, s.instances[p]);
        if j < 2 + 2 * n {
          var q := (j - 2) / 2;
          ResourceNameInjective(cluster, s.instances[p].name, s.instances[q].name);
        } else {
          ResourceNameInjective(cluster, s.instances[p].name, "metrics");
        }
      }
    }
  }

  /** Another pass over the same spec brings the same items, fresh passwords aside. */
  lemma NextPassSame(cluster: string, namespace: string, s: Spec, conf: string, passwords: seq<string>,
                     conf': string, passwords': seq<string>)
    requires |passwords| == |passwords'| == |s.access| + 2
    ensures SameButData(ClusterItems(cluster, namespace, s, conf, passwords),
                        ClusterItems(cluster, namespace, s, conf', passwords'))
  {
    hide DesiredWorkload, Credentials, ResourceName;
    var a := ClusterItems(cluster, namespace, s, conf, passwords);
    var b := ClusterItems(cluster, namespace, s, conf', passwords');
    assert forall i | 2 <= i < |a| :: a[i] == b[i];
  }

  // ---- What a cluster's items are ----

  lemma ItemIsOwned(cluster: string, namespace: string, s: Spec, conf: string, passwords: seq<string>, i: nat)
    requires |passwords| == |s.access| + 2 && i < |ClusterItems(cluster, namespace, s, conf, passwords)|
    ensures var key := ClusterItems(cluster, namespace, s, conf, passwords)[i].key;
            key in OwnedKeys(cluster, s.instances) || (s.monitoring && s.prometheus && key == MetricsKey(cluster))
  {
    hide DesiredWorkload, Credentials, ResourceName;
    if 2 <= i < 2 + 2 * |s.instances| { assert s.instances[(i - 2) / 2] in s.instances; }
  }

  lemma OwnedHasItem(cluster: string, namespace: string, s: Spec, conf: string, passwords: seq<string>, key: Key)
    requires |passwords| == |s.access| + 2
    requires key in OwnedKeys(cluster, s.instances) || (s.monitoring && s.prometheus && key == MetricsKey(cluster))
    ensures exists i | 0 <= i < |ClusterItems(cluster, namespace, s, conf, passwords)| ::
              ClusterItems(cluster, namespace, s, conf, passwords)[i].key == key
  {
    hide DesiredWorkload, Credentials, ResourceName;
    var items := ClusterItems(cluster, namespace, s, conf, passwords);
    if key == ConfigKey(cluster) {
      assert items[0].key == key;
    } else if key == SecretKey(cluster) {
      assert items[1].key == key;
    } else if key in InstanceKeys(cluster, s.instances) {
      var x :| x in s.instances && (key == ServiceKey(cluster, x) || key == WorkloadKey(cluster, x));
      var k :| 0 <= k < |s.instances| && s.instances[k] == x;
      assert items[2 + 2 * k].key == ServiceKey(cluster, x) && items[2 + 2 * k + 1].key == WorkloadKey(cluster, x);
    } else {
      assert items[2 + 2 * |s.instances|].key == key;
    }
  }

  /** Everything a cluster applies is deleted with it, the metrics Service aside, and nothing
      else is deleted. */
  lemma AppliedIsOwned(cluster: string, namespace: string, s: Spec, conf: string, passwords: seq<string>)
    requires |passwords| == |s.access| + 2
    ensures (set x | x in ClusterItems(cluster, namespace, s, conf, passwords) :: x.key)
            == OwnedKeys(cluster, s.instances) + if s.monitoring && s.prometheus then {MetricsKey(cluster)} else {}
  {
    hide ClusterItems, OwnedKeys, MetricsKey;
    var items := ClusterItems(cluster, namespace, s, conf, passwords);
    var keys := set x | x in items :: x.key;
    forall key | key in keys
      ensures key in OwnedKeys(cluster, s.instances) || (s.monitoring && s.prometheus && key == MetricsKey(cluster))
    {
      var i :| 0 <= i < |items| && items[i].key == key;
      ItemIsOwned(cluster, namespace, s, conf, passwords, i);
    }
    forall key | key in OwnedKeys(cluster, s.instances) || (s.monitoring && s.prometheus && key == MetricsKey(cluster))
      ensures key in keys
    {
      OwnedHasItem(cluster, namespace, s, conf, passwords, key);
      var i :| 0 <= i < |items| && items[i].key == key;
      assert items[i] in items;
    }
  }

  /** In the store: a deletion without faults after any applies takes away every object the
      cluster's items have brought, the metrics Service aside, and leaves all others as they are. */
  lemma DeletionTakesApplied(cluster: string, namespace: string, s: Spec, conf: string, passwords: seq<string>,
                             st: Store)
    requires |passwords| == |s.access| + 2
    ensures var items := ClusterItems(cluster, namespace, s, conf, passwords);
            var left := st.objects - OwnedKeys(cluster, s.instances);
            && (forall x | x in items && x.key != MetricsKey(cluster) :: x.key !in left)
            && (forall key | key in st.objects && !Mentions(items, key) :: key in left && left[key] == st.objects[key])
            && (MetricsKey(cluster) in st.objects && "metrics" !in Names(s.instances) ==> MetricsKey(cluster) in left)
  {
    hide OwnedKeys, MetricsKey;
    AppliedIsOwned(cluster, namespace, s, conf, passwords);
    MetricsServiceLeft(cluster, s.instances);
    var items := ClusterItems(cluster, namespace, s, conf, passwords);
    var keys := set x | x in items :: x.key;
    forall x | x in items ensures x.key in keys { }
    forall key | key in keys ensures Mentions(items, key) { }
  }

  /** The items one by one: the configuration, the credentials, a Service and a StatefulSet for
      each instance in order, and the metrics Service if metrics are scraped. */
  lemma ItemContents(cluster: string, namespace: string, s: Spec, conf: string, passwords: seq<string>)
    requires |passwords| == |s.access| + 2
    ensures var items := ClusterItems(cluster, namespace, s, conf, passwords);
            && items[0] == Item(ConfigKey(cluster), Content(map["postgresql.conf" := conf], NoBody))
            && items[1] == Item(SecretKey(cluster), Content(Credentials(passwords, s.access), NoBody))
            && |items| == 2 + 2 * |s.instances| + (if s.monitoring && s.prometheus then 1 else 0)
            && (forall i | 0 <= i < |s.instances| ::
                  var x := s.instances[i];
                  && items[2 + 2 * i]
                     == Item(ServiceKey(cluster, x), Content(map[], InstanceService(cluster, x.name, x.role)))
                  && items[2 + 2 * i + 1]
                     == Item(WorkloadKey(cluster, x), Content(map[], DesiredWorkload(cluster, namespace, s, x))))
            && (s.monitoring && s.prometheus ==>
                  items[|items| - 1]
                  == Item(MetricsKey(cluster), Content(map[], MetricsService(cluster, s.metricsPort))))
  {
    hide DesiredWorkload, Credentials;
  }

  /** The password of every user is the last one generated for that name; the two fixed keys
      are no user's, and there are no others. */
  lemma {:induction false} CredentialsMeaning(passwords: seq<string>, access: seq<string>)
    requires |passwords| == |access| + 2
    ensures var data := Credentials(passwords, access);
            && "postgres-password" in data && data["postgres-password"] == passwords[0]
            && "replication-password" in data && data["replication-password"] == passwords[1]
            && (forall i | 0 <= i < |access| && access[i] !in access[i + 1..] ::
                  UserKey(access[i]) in data && data[UserKey(access[i])] == passwords[i + 2])
            && forall key | key in data ::
                 key in {"postgres-password", "replication-password"} || exists u | u in access :: key == UserKey(u)
    decreases |access|
  {
    if access != [] {
      var n := |access| - 1;
      CredentialsMeaning(passwords[..n + 2], access[..n]);
      CredentialsLast(passwords, access);
      hide Credentials, UserKey;
      assert access == access[..n] + [access[n]];
      forall i | 0 <= i < n && access[i] !in access[i + 1..]
        ensures access[..n][i] !in access[..n][i + 1..] && UserKey(access[i]) != UserKey(access[n])
      {
        LaterNames(access, i);
        if UserKey(access[i]) == UserKey(access[n]) { UserKeyInjective(access[i], access[n]); }
      }
    }
  }

  lemma CredentialsLast(passwords: seq<string>, access: seq<string>)
    requires |passwords| == |access| + 2 && access != []
    ensures var n := |access| - 1;
            Credentials(passwords, access)
            == Credentials(passwords[..n + 2], access[..n])[UserKey(access[n]) := passwords[n + 2]]
    ensures UserKey(access[|access| - 1]) !in {"postgres-password", "replication-password"}
  {
    assert UserKey(access[|access| - 1]) !in {"postgres-password", "replication-password"}
      by { FixedKeysDiffer(access[|access| - 1]); }
  }

  lemma FixedKeysDiffer(user: string)
    ensures UserKey(user) != "postgres-password" && UserKey(user) != "replication-password"
  {
    assert UserKey(user)[0] == 'u';
  }

  lemma LaterNames(access: seq<string>, i: nat)
    requires i < |access| - 1 && access[i] !in access[i + 1..]
    ensures var n := |access| - 1;
            access[..n][i] !in access[..n][i + 1..] && access[i] != access[n]
  {
    var n := |access| - 1;
    assert access[i + 1..][n - i - 1] == access[n];
    assert access[..n][i + 1..] == access[i + 1..][..n - i - 1];
  }

  function UserKey(user: string): string { "user-" + user + "-password" }

  lemma UserKeyInjective(a: string, b: string)
    requires UserKey(a) == UserKey(b)
    ensures a == b
  {
    assert |UserKey(a)| == |a| + 14 && |UserKey(b)| == |b| + 14;
    assert UserKey(a)[5..5 + |a|] == a && UserKey(b)[5..5 + |b|] == b;
  }
}
