/** internal/k8s/resources.go: CreateOrUpdate against an API server with optimistic
    concurrency. Every object carries the resource version of its last write, versions
    are never reused, and an update must quote the current one. */
module ObjectStore {
  import opened Types

  datatype Kind = Secret | ConfigMap | Service | StatefulSet

  datatype Key = Key(kind: Kind, name: string)

  /** What the operator sets on a Service or StatefulSet. */
  datatype Body =
    | NoBody
    | InstanceService(cluster: string, instance: string, role: string)
    | MetricsService(cluster: string, port: int)
    | Workload(cluster: string, instance: string, role: string, replicas: int, image: string,
               database: Database, storage: Storage, resources: Resources, primaryHost: Option<string>)

  datatype Content = Content(data: map<string, string>, body: Body)

  /** `ready` is the status its own controller reports. */
  datatype Object = Object(version: nat, content: Content, ready: int)

  datatype Store = Store(objects: map<Key, Object>, next: nat)

  /** The kinds whose data CreateOrUpdate takes over from the live object. */
  predicate KeepsData(kind: Kind) { kind == Secret || kind == ConfigMap }

  function Merged(kind: Kind, desired: Content, current: Content): Content {
    if KeepsData(kind) then desired.(data := current.data) else desired
  }

  // ---- Effects on the store ----

  /** The effects of CreateOrUpdate callers, of deleters, and of an object's own controller. */
  datatype Effect = Put(key: Key, desired: Content) | Delete(key: Key) | Report(key: Key, ready: int)

  function PutObject(s: Store, key: Key, desired: Content): Object {
    if key in s.objects
    then Object(s.next, Merged(key.kind, desired, s.objects[key].content), s.objects[key].ready)
    else Object(s.next, desired, 0)
  }

  function Do(s: Store, e: Effect): Store {
    match e
    case Put(key, desired) => Store(s.objects[key := PutObject(s, key, desired)], s.next + 1)
    case Delete(key) => s.(objects := s.objects - {key})
    case Report(key, ready) =>
      if key in s.objects then Store(s.objects[key := s.objects[key].(version := s.next, ready := ready)], s.next + 1)
      else s
  }

  /** A Put replaces a Service or StatefulSet; a Secret or ConfigMap that is there keeps its
      data. It leaves the reported status, every other object, and the older versions alone. */
  lemma PutMeaning(s: Store, key: Key, desired: Content)
    ensures var s' := Do(s, Put(key, desired));
            && s'.objects.Keys == s.objects.Keys + {key} && s'.next == s.next + 1
            && (forall k | k in s.objects && k != key :: s'.objects[k] == s.objects[k])
            && var o := s'.objects[key];
               && o.version == s.next && o.content.body == desired.body
               && (key !in s.objects ==> o.content == desired && o.ready == 0)
               && (key in s.objects ==> o.ready == s.objects[key].ready)
               && (key in s.objects && key.kind in {Secret, ConfigMap} ==>
                     o.content.data == s.objects[key].content.data)
               && (key in s.objects && key.kind in {Service, StatefulSet} ==> o.content == desired)
  {
  }

  predicate Versioned(s: Store) {
    forall key | key in s.objects :: s.objects[key].version < s.next
  }

  ghost predicate Step(s: Store, s': Store) { exists e :: s' == Do(s, e) }

  ghost predicate History(log: seq<Store>) {
    && log != [] && Versioned(log[0])
    && forall i | 0 <= i < |log| - 1 :: Step(log[i], log[i + 1])
  }

  /** What a reader of `old_` knows of the later store `s`. */
  ghost predicate Remembers(old_: Store, s: Store) {
    && old_.next <= s.next
    && forall key | key in old_.objects ::
         && old_.objects[key].version < s.next
         && (key in s.objects ==> old_.objects[key].version <= s.objects[key].version)
         && (key in s.objects && s.objects[key].version == old_.objects[key].version ==>
              s.objects[key] == old_.objects[key])
  }

  lemma DoRemembers(old_: Store, s: Store, e: Effect)
    requires Remembers(old_, s) && Versioned(s)
    ensures Remembers(old_, Do(s, e)) && Versioned(Do(s, e))
  {
  }

  lemma {:induction false} HistoryVersioned(log: seq<Store>, i: nat)
    requires History(log) && i < |log|
    ensures Versioned(log[i])
  {
    if i > 0 {
      HistoryVersioned(log, i - 1);
      assert Step(log[i - 1], log[i]);
      var e :| log[i] == Do(log[i - 1], e);
    }
  }

  lemma {:induction false} HistoryRemembers(log: seq<Store>, i: nat, j: nat)
    requires History(log) && i <= j < |log|
    ensures Remembers(log[i], log[j])
  {
    HistoryVersioned(log, i);
    if i < j {
      HistoryRemembers(log, i, j - 1);
      HistoryVersioned(log, j - 1);
      assert Step(log[j - 1], log[j]);
      var e :| log[j] == Do(log[j - 1], e);
      DoRemembers(log[i], log[j - 1], e);
    }
  }

  // ---- Safety of any history ----

  /** From its creation until it is deleted, the data of a Secret or ConfigMap is fixed,
      whatever data CreateOrUpdate callers come with. */
  lemma {:induction false} DataFixed(log: seq<Store>, i: nat, j: nat, key: Key)
    requires History(log) && i <= j < |log| && KeepsData(key.kind)
    requires forall k | i <= k <= j :: key in log[k].objects
    ensures log[j].objects[key].content.data == log[i].objects[key].content.data
  {
    if i < j {
      DataFixed(log, i, j - 1, key);
      assert Step(log[j - 1], log[j]);
      var e :| log[j] == Do(log[j - 1], e);
    }
  }

  /** An object found at the version it had before was neither written nor deleted in between. */
  lemma {:induction false} VersionsNeverReused(log: seq<Store>, i: nat, j: nat, k: nat, key: Key)
    requires History(log) && i <= j <= k < |log|
    requires key in log[i].objects && key in log[k].objects
    requires log[i].objects[key].version == log[k].objects[key].version
    ensures key in log[j].objects && log[j].objects[key] == log[i].objects[key]
    decreases k - j
  {
    HistoryRemembers(log, i, k);
    if j < k {
      HistoryRemembers(log, i, j + 1);
      HistoryVersioned(log, j);
      HistoryRemembers(log, i, j);
      VersionsNeverReused(log, i, j + 1, k, key);
      assert Step(log[j], log[j + 1]);
      var e :| log[j + 1] == Do(log[j], e);
    }
  }

  /** An accepted update quotes the live version; what it writes is a Put on the live
      object, however old the copy was that it was computed from. */
  lemma UpdateIsPut(log: seq<Store>, i: nat, key: Key, desired: Content)
    requires History(log) && i < |log| && key in log[i].objects
    requires key in log[|log| - 1].objects
    requires log[|log| - 1].objects[key].version == log[i].objects[key].version
    ensures Merged(key.kind, desired, log[i].objects[key].content)
            == PutObject(log[|log| - 1], key, desired).content
  {
    HistoryRemembers(log, i, |log| - 1);
  }

  // ---- Any number of callers, call by call ----

  /** Where a CreateOrUpdate call stands. */
  datatype Caller =
    | Idle
    | Start(key: Key, desired: Content)
    | Creating(key: Key, desired: Content)
    | Updating(key: Key, desired: Content, version: nat, payload: Content)

  datatype System = System(log: seq<Store>, callers: map<nat, Caller>)

  datatype Move =
    | Begin(id: nat, key: Key, desired: Content) // a new call, also after a crash of the caller
    | Get(id: nat, lag: nat)                     // served from a cache `lag` writes behind
    | GetFails(id: nat)
    | Send(id: nat, fate: Fate)
    | Deleted(key: Key)
    | Reported(key: Key, ready: int)

  function Live(s: System): Store
    requires s.log != []
  {
    s.log[|s.log| - 1]
  }

  function Logged(s: System, e: Effect): System
    requires s.log != []
  {
    s.(log := s.log + [Do(Live(s), e)])
  }

  /** The index a cache `lag` writes behind serves. */
  function Seen(s: System, lag: nat): nat
    requires s.log != []
  {
    if lag < |s.log| then |s.log| - 1 - lag else 0
  }

  /** Writes exactly this content under the next version, as the server does on Update. */
  function Overwrite(s: Store, key: Key, content: Content): Store
    requires key in s.objects
  {
    Store(s.objects[key := Object(s.next, content, s.objects[key].ready)], s.next + 1)
  }

  function MoveTo(s: System, m: Move): System
    requires s.log != []
  {
    match m
    case Begin(id, key, desired) => s.(callers := s.callers[id := Start(key, desired)])
    case Deleted(key) => Logged(s, Delete(key))
    case Reported(key, ready) => Logged(s, Report(key, ready))
    case Get(id, lag) =>
      if id !in s.callers || !s.callers[id].Start? then s
      else
        var c := s.callers[id];
        var seen := s.log[Seen(s, lag)];
        s.(callers := s.callers[id :=
             if c.key in seen.objects
             then Updating(c.key, c.desired, seen.objects[c.key].version,
                           Merged(c.key.kind, c.desired, seen.objects[c.key].content))
             else Creating(c.key, c.desired)])
    case GetFails(id) => s.(callers := s.callers[id := Idle])
    case Send(id, fate) =>
      if id !in s.callers then s
      else
        var done := s.(callers := s.callers[id := Idle]);
        match s.callers[id]
        case Creating(key, desired) =>
          if Applied(fate) && key !in Live(s).objects then Logged(done, Put(key, desired)) else done
        case Updating(key, _, version, payload) =>
          if Applied(fate) && key in Live(s).objects && Live(s).objects[key].version == version
          then done.(log := s.log + [Overwrite(Live(s), key, payload)]) else done
        case _ => done
  }

  /** A caller about to update holds what it computed from some past object. */
  ghost predicate CallerOk(s: System, c: Caller) {
    c.Updating? ==>
      exists i | 0 <= i < |s.log| ::
        && c.key in s.log[i].objects && s.log[i].objects[c.key].version == c.version
        && c.payload == Merged(c.key.kind, c.desired, s.log[i].objects[c.key].content)
  }

  ghost predicate SystemInv(s: System) {
    && History(s.log)
    && forall id | id in s.callers :: CallerOk(s, s.callers[id])
  }

  ghost predicate SystemRun(run: seq<System>) {
    && run != [] && |run[0].log| == 1 && Versioned(run[0].log[0]) && run[0].callers == map[]
    && forall i | 0 <= i < |run| - 1 :: run[i].log != [] && exists m :: run[i + 1] == MoveTo(run[i], m)
  }

  lemma CallersKept(s: System, s': System)
    requires SystemInv(s) && s.log <= s'.log
    requires forall id | id in s'.callers :: s'.callers[id] == Idle ||
               (id in s.callers && s'.callers[id] == s.callers[id])
    ensures forall id | id in s'.callers :: CallerOk(s', s'.callers[id])
  {
    forall id | id in s'.callers && s'.callers[id].Updating? ensures CallerOk(s', s'.callers[id]) {
      var c := s.callers[id];
      assert CallerOk(s, c);
      var i :| 0 <= i < |s.log| && c.key in s.log[i].objects && s.log[i].objects[c.key].version == c.version
               && c.payload == Merged(c.key.kind, c.desired, s.log[i].objects[c.key].content);
      assert s'.log[i] == s.log[i];
    }
  }

  lemma HistoryGrows(log: seq<Store>, e: Effect)
    requires History(log)
    ensures History(log + [Do(log[|log| - 1], e)])
  {
    var more := log + [Do(log[|log| - 1], e)];
    forall i | 0 <= i < |more| - 1 ensures Step(more[i], more[i + 1]) {
      if i < |log| - 1 { assert Step(log[i], log[i + 1]); }
    }
  }

  /** Whatever a caller sends, the store changes by nothing or by a Put of what it desires. */
  lemma SendIsPut(s: System, id: nat, fate: Fate)
    requires SystemInv(s) && id in s.callers
    ensures var s', c := MoveTo(s, Send(id, fate)), s.callers[id];
            s'.log == s.log || (!c.Idle? && !c.Start? && s'.log == s.log + [Do(Live(s), Put(c.key, c.desired))])
  {
    var c := s.callers[id];
    if c.Updating? && c.key in Live(s).objects && Live(s).objects[c.key].version == c.version {
      assert CallerOk(s, c);
      var i :| 0 <= i < |s.log| && c.key in s.log[i].objects && s.log[i].objects[c.key].version == c.version
               && c.payload == Merged(c.key.kind, c.desired, s.log[i].objects[c.key].content);
      UpdateIsPut(s.log, i, c.key, c.desired);
    }
  }

  lemma MoveKeeps(s: System, m: Move)
    requires SystemInv(s)
    ensures SystemInv(MoveTo(s, m)) && s.log <= MoveTo(s, m).log
  {
    var s' := MoveTo(s, m);
    match m {
      case Deleted(key) => HistoryGrows(s.log, Delete(key)); CallersKept(s, s');
      case Reported(key, ready) => HistoryGrows(s.log, Report(key, ready)); CallersKept(s, s');
      case Send(id, fate) =>
        if id in s.callers {
          SendIsPut(s, id, fate);
          var c := s.callers[id];
          if !c.Idle? && !c.Start? { HistoryGrows(s.log, Put(c.key, c.desired)); }
          CallersKept(s, s');
        }
      case GetFails(id) => CallersKept(s, s');
      case Begin(id, key, desired) =>
      case Get(id, lag) =>
    }
  }

  lemma {:induction false} SystemRunInv(run: seq<System>, i: nat)
    requires SystemRun(run) && i < |run|
    ensures SystemInv(run[i])
  {
    if i > 0 {
      SystemRunInv(run, i - 1);
      var m :| run[i] == MoveTo(run[i - 1], m);
      MoveKeeps(run[i - 1], m);
    }
  }

  /** However many callers race with one another, with deleters and with stale caches,
      the store's history is one of Puts, Deletes and Reports; so a live Secret keeps the
      data it was created with, and a generated password never replaces a live one. */
  lemma PasswordsStable(run: seq<System>, n: nat, i: nat, j: nat, key: Key)
    requires SystemRun(run) && n < |run| && i <= j < |run[n].log| && KeepsData(key.kind)
    requires forall k | i <= k <= j :: key in run[n].log[k].objects
    ensures run[n].log[j].objects[key].content.data == run[n].log[i].objects[key].content.data
  {
    SystemRunInv(run, n);
    DataFixed(run[n].log, i, j, key);
  }

  lemma SystemHistory(s: System)
    requires SystemInv(s)
    ensures History(s.log)
  {
  }

  /** A caller that read an object which was then deleted, even if another has been created
      in its place, cannot write. */
  lemma RecreatedRejected(run: seq<System>, n: nat, id: nat, fate: Fate, i: nat, j: nat)
    requires SystemRun(run) && n < |run| && id in run[n].callers && run[n].callers[id].Updating?
    requires i <= j < |run[n].log|
    requires var c := run[n].callers[id];
             && c.key in run[n].log[i].objects && run[n].log[i].objects[c.key].version == c.version
             && c.key !in run[n].log[j].objects
    ensures MoveTo(run[n], Send(id, fate)).log == run[n].log
  {
    hide SystemRun;
    SystemRunInv(run, n);
    SystemHistory(run[n]);
    hide SystemInv, History;
    var s, c := run[n], run[n].callers[id];
    if c.key in Live(s).objects && Live(s).objects[c.key].version == c.version {
      VersionsNeverReused(s.log, i, j, |s.log| - 1, c.key);
    }
  }

  // ---- The call itself ----

  /** Before each request: what others do, how far behind the cache is, the request's fate. */
  datatype Event = Event(others: seq<Effect>, lag: nat, fate: Fate)

  function ReadyOf(s: Store, key: Key): Option<int> {
    if key in s.objects then Some(s.objects[key].ready) else None
  }

  function Remaining(s: Store, keys: set<Key>): set<Key> {
    set k | k in keys && k in s.objects
  }

  /** Nobody else creates or updates these objects. */
  predicate Undisturbed(script: seq<Event>, keys: set<Key>) {
    forall e, x | e in script && x in e.others && x.Put? :: x.key !in keys
  }

  /** From index `from` on, none of these objects appears. */
  ghost predicate Shrinking(log: seq<Store>, from: int, keys: set<Key>) {
    forall i | 0 <= i < |log| - 1 && from <= i :: Remaining(log[i + 1], keys) <= Remaining(log[i], keys)
  }

  lemma {:induction false} ShrinksOverall(log: seq<Store>, from: nat, to: nat, keys: set<Key>)
    requires from <= to < |log| && Shrinking(log, from, keys)
    ensures Remaining(log[to], keys) <= Remaining(log[from], keys)
  {
    if from < to { ShrinksOverall(log, from, to - 1, keys); }
  }

  /** Every event of `a` is one of `b`. */
  predicate Within<T(==)>(a: seq<T>, b: seq<T>) { forall e | e in a :: e in b }

  lemma StillUndisturbed(script: seq<Event>, script': seq<Event>, keys: set<Key>)
    requires Undisturbed(script, keys) && Within(script', script)
    ensures Undisturbed(script', keys)
  {
  }

  /** Whatever objects this script leaves alone only vanish from index `from` on. */
  ghost predicate ShrinkingFor(log: seq<Store>, from: int, script: seq<Event>) {
    forall keys: set<Key> | Undisturbed(script, keys) :: Shrinking(log, from, keys)
  }

  lemma ShrinkingStart(log: seq<Store>, from: int, script: seq<Event>)
    requires from == |log| - 1
    ensures ShrinkingFor(log, from, script)
  {
  }

  lemma ShrinkingStep(log: seq<Store>, from: int, script: seq<Event>, x: Effect)
    requires log != [] && ShrinkingFor(log, from, script)
    requires x.Put? ==> forall keys: set<Key> | Undisturbed(script, keys) :: x.key !in keys
    ensures ShrinkingFor(log + [Do(log[|log| - 1], x)], from, script)
  {
    hide Undisturbed;
    var more := log + [Do(log[|log| - 1], x)];
    forall keys: set<Key> | Undisturbed(script, keys) ensures Shrinking(more, from, keys) {
      assert Shrinking(log, from, keys);
      forall i | 0 <= i < |more| - 1 && from <= i ensures Remaining(more[i + 1], keys) <= Remaining(more[i], keys) {
        if i < |log| - 1 { assert more[i] == log[i] && more[i + 1] == log[i + 1]; }
      }
    }
  }

  lemma ShrinkingJoins(before: seq<Store>, log: seq<Store>, from: int, script: seq<Event>, middle: seq<Event>)
    requires 0 <= from < |before| && before <= log && Within(middle, script)
    requires ShrinkingFor(before, from, script) && ShrinkingFor(log, |before| - 1, middle)
    ensures ShrinkingFor(log, from, script)
  {
    forall keys: set<Key> | Undisturbed(script, keys) ensures Shrinking(log, from, keys) {
      StillUndisturbed(script, middle, keys);
      assert Shrinking(before, from, keys) && Shrinking(log, |before| - 1, keys);
      hide Undisturbed, Remaining, ShrinkingFor;
      forall i | from <= i < |log| - 1 ensures Remaining(log[i + 1], keys) <= Remaining(log[i], keys) {
        if i < |before| - 1 { assert log[i] == before[i] && log[i + 1] == before[i + 1]; }
      }
    }
  }

  class ApiServer {
    var log: seq<Store>
    var script: seq<Event>

    constructor (log: seq<Store>, script: seq<Event>)
      requires log != [] && History(log)
      ensures Valid() && this.log == log && this.script == script
    {
      this.log, this.script := log, script;
    }

    ghost predicate Valid()
      reads this
    {
      log != [] && History(log)
    }

    function Now(): Store
      reads this
      requires log != []
    {
      log[|log| - 1]
    }

    /** The others' turn before a request. */
    method Tick() returns (lag: nat, fate: Fate)
      requires Valid()
      modifies this
      ensures Valid() && old(log) <= log && Within(script, old(script))
      ensures ShrinkingFor(log, |old(log)| - 1, old(script))
      ensures old(script) == [] ==> script == [] && log == old(log) && lag == 0 && fate == Served
    {
      ShrinkingStart(log, |log| - 1, script);
      if script == [] { return 0, Served; }
      hide ShrinkingFor, History;
      var e := script[0];
      script := script[1..];
      for i := 0 to |e.others|
        invariant Valid() && old(log) <= log && script == old(script)[1..]
        invariant ShrinkingFor(log, |old(log)| - 1, old(script))
      {
        assert e in old(script) && e.others[i] in e.others;
        ShrinkingStep(log, |old(log)| - 1, old(script), e.others[i]);
        HistoryGrows(log, e.others[i]);
        log := log + [Do(Now(), e.others[i])];
      }
      assert forall e' | e' in script :: e' in old(script);
      return e.lag, e.fate;
    }

    /** Deletes an object; deleting one that is not there is fine. */
    method Remove(key: Key) returns (r: Outcome)
      requires Valid()
      modifies this
      ensures Valid() && old(log) <= log && Within(script, old(script))
      ensures r == Finished ==> key !in Now().objects
      ensures ShrinkingFor(log, |old(log)| - 1, old(script))
      ensures old(script) == [] ==>
                script == [] && r == Finished && Now() == Do(old(Now()), Delete(key))
    {
      hide ShrinkingFor, History;
      var _, fate := Tick();
      if fate == Crash { return Died; }
      if Applied(fate) {
        ShrinkingStep(log, |old(log)| - 1, old(script), Delete(key));
        HistoryGrows(log, Delete(key));
        log := log + [Do(Now(), Delete(key))];
      }
      r := if fate == Served then Finished else Errored;
    }

    /** Reads a status; absence and any error look alike to the caller. */
    method Inspect(key: Key) returns (r: Outcome, ready: Option<int>)
      requires Valid()
      modifies this
      ensures Valid() && old(log) <= log && Within(script, old(script))
      ensures old(script) == [] ==>
                script == [] && log == old(log) && r == Finished && ready == ReadyOf(Now(), key)
    {
      var lag, fate := Tick();
      if fate == Crash { return Died, None; }
      if fate != Served { return Finished, None; }
      return Finished, ReadyOf(log[if lag < |log| then |log| - 1 - lag else 0], key);
    }

    /** One call: read, then create, or update quoting the version read. A call that
        succeeds is one atomic Put on the store it met, whatever happened in between. */
    method CreateOrUpdate(key: Key, desired: Content) returns (r: Outcome)
      requires Valid()
      modifies this
      ensures Valid() && old(log) <= log && Within(script, old(script))
      ensures r == Finished ==> |log| > |old(log)| && Now() == Do(log[|log| - 2], Put(key, desired))
      ensures old(script) == [] ==>
                script == [] && r == Finished && log == old(log) + [Do(old(Now()), Put(key, desired))]
    {
      var lag, fate := Tick();
      if fate == Crash { return Died; }
      if fate != Served { return Errored; }
      var k := if lag < |log| then |log| - 1 - lag else 0;
      var seen := log[k];
      if key !in seen.objects {
        r := Create(key, desired);
      } else {
        var current := seen.objects[key];
        r := Update(key, Merged(key.kind, desired, current.content), current.version, desired, k);
      }
    }

    method Create(key: Key, content: Content) returns (r: Outcome)
      requires Valid()
      modifies this
      ensures Valid() && old(log) <= log && Within(script, old(script))
      ensures r == Finished ==> |log| > |old(log)| && Now() == Do(log[|log| - 2], Put(key, content))
      ensures old(script) == [] && key !in old(Now()).objects ==>
                script == [] && r == Finished && log == old(log) + [Do(old(Now()), Put(key, content))]
    {
      var _, fate := Tick();
      if fate == Crash { return Died; }
      if !Applied(fate) || key in Now().objects { return Errored; }
      HistoryGrows(log, Put(key, content));
      log := log + [Do(Now(), Put(key, content))];
      r := if fate == Served then Finished else Errored;
    }

    /** `read` is the index of the world the content was computed from. */
    method Update(key: Key, content: Content, version: nat, ghost desired: Content, ghost read: nat)
      returns (r: Outcome)
      requires Valid() && read < |log| && key in log[read].objects && log[read].objects[key].version == version
      requires content == Merged(key.kind, desired, log[read].objects[key].content)
      modifies this
      ensures Valid() && old(log) <= log && Within(script, old(script))
      ensures r == Finished ==> |log| > |old(log)| && Now() == Do(log[|log| - 2], Put(key, desired))
      ensures old(script) == [] && read == |old(log)| - 1 ==>
                script == [] && r == Finished && log == old(log) + [Do(old(Now()), Put(key, desired))]
    {
      var _, fate := Tick();
      if fate == Crash { return Died; }
      if !Applied(fate) || key !in Now().objects || Now().objects[key].version != version { return Errored; }
      UpdateIsPut(log, read, key, desired);
      HistoryGrows(log, Put(key, desired));
      log := log + [Overwrite(Now(), key, content)];
      r := if fate == Served then Finished else Errored;
    }
  }
}
