/** controllers/postgresuser_controller.go as a protocol. A `World` is what the API server
    holds about one PostgresUser: the user object, the Secrets it may read or write, and the
    cluster it refers to, together with the clock. */
module UserProtocol {
  import opened Types
  import opened Selection
  import opened UserFanOut

  datatype Phase = Unset | Ready | Failed

  /** `lastChange` is in seconds, as timestamps are stored. */
  datatype Status = Status(phase: Phase, lastChange: Option<int>, reports: seq<InstanceReport>)

  datatype User = User(version: nat, finalizer: bool, deleting: bool, status: Status)

  datatype Secret = Secret(version: nat, data: map<string, string>)

  datatype Policy = Policy(enabled: bool, hours: int)

  /** `secretRef` is a Secret's name and key. */
  datatype PasswordSpec = PasswordSpec(
    secretRef: Option<(string, string)>, generate: bool, policy: Option<Policy>)

  datatype Spec = Spec(wish: Wish, password: Option<PasswordSpec>, selector: Option<Selector>)

  /** `clock` counts nanoseconds. The last six fields are history: the values
      LastPasswordChange was given, how many generated passwords were stored, how many of
      them were replaced before their time was recorded, whether the latest is not recorded
      yet, whether anyone else took away a Secret or a key, and whether the spec was edited. */
  datatype World = World(
    name: string, spec: Spec, clock: nat,
    user: Option<User>, secrets: map<string, Secret>, cluster: Option<seq<InstanceStatus>>,
    next: nat,
    changes: seq<int>, generated: nat, unrecorded: nat, pending: bool, meddled: bool, respecified: bool)

  // ---- Rotation ----

  const SECOND: int := 1_000_000_000
  const HOUR: int := 3600 * SECOND
  const LIMIT64: int := 0x8000_0000_0000_0000

  /** Go's int64 multiplication wraps around. */
  function Wrap64(x: int): int { (x + LIMIT64) % (2 * LIMIT64) - LIMIT64 }

  /** `time.Duration(hours) * time.Hour`. */
  function Interval(hours: int): int { Wrap64(hours * HOUR) }

  /** The interval is exact for the hours the API allows, and exactly up to 292 years. */
  lemma IntervalFits(hours: int)
    ensures Interval(hours) == hours * HOUR <==> -2_562_047 <= hours <= 2_562_047
    ensures 1 <= hours <= 2048 ==> Interval(hours) == hours * HOUR
  {
  }

  function Seconds(clock: nat): int { clock / SECOND }

  predicate Rotating(p: PasswordSpec) { p.policy.Some? && p.policy.value.enabled }

  predicate ShouldRotate(p: PasswordSpec, last: Option<int>, clock: nat) {
    last.None? || (Rotating(p) && clock - last.value * SECOND >= Interval(p.policy.value.hours))
  }

  /** A rotation is due from the moment the interval is over, not earlier; at once if there
      never was one; and never again under a policy that is absent or disabled. */
  lemma DueExactly(p: PasswordSpec, last: Option<int>, clock: nat)
    requires p.policy.Some? ==> -2_562_047 <= p.policy.value.hours <= 2_562_047
    ensures ShouldRotate(p, last, clock) <==>
              || last == None
              || (p.policy.Some? && p.policy.value.enabled
                  && clock >= (last.value + p.policy.value.hours * 3600) * 1_000_000_000)
  {
    if p.policy.Some? { IntervalFits(p.policy.value.hours); }
  }

  /** A time is stamped with the last full second. */
  lemma SecondsMeaning(clock: nat)
    ensures Seconds(clock) * 1_000_000_000 <= clock < (Seconds(clock) + 1) * 1_000_000_000
  {
  }

  /** Rotation at an interval of whole hours that fits in a Duration. */
  predicate Paced(s: Spec) {
    s.password.Some? && Rotating(s.password.value) && 1 <= s.password.value.policy.value.hours <= 2_562_047
  }

  /** The least number of seconds between two changes; `None` if there is to be only one. */
  function Gap(s: Spec): Option<int> {
    if Paced(s) then Some(s.password.value.policy.value.hours * 3600) else None
  }

  predicate RotationOff(s: Spec) { s.password.Some? && !Rotating(s.password.value) }

  /** `v` may follow `last`. */
  predicate MayFollow(s: Spec, last: Option<int>, v: int) {
    && (RotationOff(s) ==> last.None?)
    && (Paced(s) && last.Some? ==> v - last.value >= Gap(s).value)
  }

  /** A decision taken at `clock` and stamped later. */
  lemma RotatedMayFollow(s: Spec, last: Option<int>, clock: nat, later: nat)
    requires s.password.Some? && ShouldRotate(s.password.value, last, clock) && clock <= later
    ensures MayFollow(s, last, Seconds(later))
  {
    if Paced(s) && last.Some? {
      var hours := s.password.value.policy.value.hours;
      IntervalFits(hours);
      assert later >= (last.value + hours * 3600) * SECOND;
    }
  }

  // ---- The password's place ----

  function GeneratedSecret(name: string): string { name + "-password" }

  function KeyOr(key: string): string { if key == "" then "password" else key }

  /** The password in its place: the referenced Secret and key, or the generated Secret. */
  function StoredBy(w: World, spec: Spec): Option<string> {
    if spec.password.None? then None
    else
      var (name, key) := match spec.password.value.secretRef
                         case Some(ref) => (ref.0, KeyOr(ref.1))
                         case None => (GeneratedSecret(w.name), "password");
      if name in w.secrets && key in w.secrets[name].data then Some(w.secrets[name].data[key]) else None
  }

  /** Where it is: under the key given, under "password" where none is, and without a
      reference in the Secret named after the user. */
  lemma StoredPlaces(w: World, spec: Spec, name: string, key: string, password: string)
    requires spec.password.Some?
    ensures spec.password.value.secretRef == Some((name, key)) && key != "" ==>
              (StoredBy(w, spec) == Some(password)
               <==> name in w.secrets && (key, password) in w.secrets[name].data.Items)
    ensures spec.password.value.secretRef == Some((name, "")) ==>
              (StoredBy(w, spec) == Some(password)
               <==> name in w.secrets && ("password", password) in w.secrets[name].data.Items)
    ensures spec.password.value.secretRef == None ==>
              (StoredBy(w, spec) == Some(password)
               <==> (w.name + "-password") in w.secrets
                    && ("password", password) in w.secrets[w.name + "-password"].data.Items)
  {
  }

  function Stored(w: World): Option<string> { StoredBy(w, w.spec) }

  predicate HasGenerated(w: World) {
    var name := GeneratedSecret(w.name);
    name in w.secrets && "password" in w.secrets[name].data
  }

  // ---- The environment ----

  datatype EnvAction =
    | Pass(time: nat)                                          // time passes
    | UserDelete
    | Touch                                                    // someone else writes the user's metadata
    | EditSpec(spec: Spec)
    | EditSecret(name: string, data: Option<map<string, string>>)
    | EditCluster(cluster: Option<seq<InstanceStatus>>)

  function Rewrite(w: World, u: User): World {
    w.(user := Some(u.(version := w.next)), next := w.next + 1)
  }

  function Env(w: World, a: EnvAction): World {
    match a
    case Pass(time) => w.(clock := w.clock + time)
    case UserDelete =>
      if w.user.None? || w.user.value.deleting then w
      else if w.user.value.finalizer then Rewrite(w, w.user.value.(deleting := true))
      else w.(user := None)
    case Touch => if w.user.None? then w else Rewrite(w, w.user.value)
    case EditSpec(spec) =>
      if w.user.None? then w else Rewrite(w, w.user.value).(spec := spec, respecified := true)
    case EditSecret(name, data) =>
      var w' := w.(next := w.next + 1,
                   secrets := if data.Some? then w.secrets[name := Secret(w.next, data.value)] else w.secrets - {name});
      w'.(meddled := w.meddled || !KeysKept(w, w'))
    case EditCluster(cluster) => w.(cluster := cluster)
  }

  /** No Secret has gone or lost a key. */
  predicate KeysKept(w: World, w': World) {
    forall name | name in w.secrets :: name in w'.secrets && w.secrets[name].data.Keys <= w'.secrets[name].data.Keys
  }

  // ---- The controller's requests ----

  datatype Request =
    | AddFinalizer
    | Write(status: Status)                                // Status().Update
    | CreateSecret(name: string, data: map<string, string>)
    | UpdateSecret(name: string, data: map<string, string>)
    | Drop                                                 // the update that removes the finalizer

  function PutSecret(w: World, name: string, data: map<string, string>): World {
    w.(secrets := w.secrets[name := Secret(w.next, data)], next := w.next + 1,
       generated := w.generated + 1, unrecorded := w.unrecorded + if w.pending then 1 else 0, pending := true)
  }

  function WriteStatus(w: World, u: User, s: Status): World {
    var w' := Rewrite(w, u.(status := s));
    if s.lastChange.Some? && s.lastChange != u.status.lastChange
    then w'.(changes := w.changes + [s.lastChange.value], pending := false) else w'
  }

  function Do(w: World, r: Request): World
    requires r.AddFinalizer? || r.Write? ==> w.user.Some?
  {
    match r
    case AddFinalizer => Rewrite(w, w.user.value.(finalizer := true))
    case Write(s) => WriteStatus(w, w.user.value, s)
    case CreateSecret(name, data) => PutSecret(w, name, data)
    case UpdateSecret(name, data) => PutSecret(w, name, data)
    case Drop => w.(user := None)
  }

  /** Whether the API server accepts the request, sent with resource version `v`. */
  predicate Accepts(w: World, r: Request, v: nat) {
    match r
    case AddFinalizer | Write(_) | Drop => w.user.Some? && w.user.value.version == v
    case CreateSecret(name, _) => name !in w.secrets
    case UpdateSecret(name, _) => name in w.secrets && w.secrets[name].version == v
  }

  /** Passwords are to be generated, and by the persisted status a rotation is due. */
  predicate MayGenerate(w: World) {
    && w.spec.password.Some? && w.spec.password.value.secretRef.None? && w.spec.password.value.generate
    && (w.user.Some? ==> ShouldRotate(w.spec.password.value, w.user.value.status.lastChange, w.clock))
  }

  /** What the controller promises about each request that takes effect. */
  ghost predicate Promised(w: World, r: Request) {
    match r
    case AddFinalizer => w.user.Some? && !w.user.value.deleting
    case Write(s) => w.user.Some? && PromisedStatus(w, w.user.value, s)
    case CreateSecret(name, data) =>
      (!w.respecified ==> MayGenerate(w)) && name == GeneratedSecret(w.name) && name !in w.secrets && "password" in data
    case UpdateSecret(name, data) =>
      && (!w.respecified ==> MayGenerate(w)) && name == GeneratedSecret(w.name) && name in w.secrets
      && "password" in data && w.secrets[name].data.Keys <= data.Keys
    case Drop => w.user.Some? && w.user.value.deleting
  }

  /** Nothing that was recorded is lost. */
  predicate KeepsFields(old_: Status, new_: Status) {
    && (old_.lastChange.Some? ==> new_.lastChange.Some?)
    && (old_.reports != [] ==> new_.reports != [])
  }

  /** `last` is recorded still, or a rotation that was due has taken place since. */
  ghost predicate Rotated(w: World, before: Option<int>, last: Option<int>) {
    last != before ==>
      && last.Some? && last.value <= Seconds(w.clock)
      && (!w.respecified ==> MayFollow(w.spec, before, last.value))
      && (!w.meddled ==> HasGenerated(w))
  }

  ghost predicate PromisedStatus(w: World, u: User, s: Status) {
    && u.finalizer && !u.deleting
    && KeepsFields(u.status, s)
    && Rotated(w, u.status.lastChange, s.lastChange)
  }

  // ---- Runs ----

  ghost predicate Next(w: World, w': World) {
    (exists a :: w' == Env(w, a)) || (exists r :: Promised(w, r) && w' == Do(w, r))
  }

  ghost predicate Init(w: World) {
    && w.user.Some? && w.user.value.status == Status(Unset, None, []) && w.user.value.version < w.next
    && (w.user.value.deleting ==> w.user.value.finalizer)
    && (forall name | name in w.secrets :: w.secrets[name].version < w.next)
    && w.changes == [] && w.generated == 0 && w.unrecorded == 0 && !w.pending && !w.meddled && !w.respecified
  }

  ghost predicate Run(log: seq<World>) {
    && log != []
    && Init(log[0])
    && forall i | 0 <= i < |log| - 1 :: Next(log[i], log[i + 1])
  }

  // ---- What every world of a run satisfies ----

  function LastOf(changes: seq<int>): Option<int> {
    if changes == [] then None else Some(changes[|changes| - 1])
  }

  /** Each value may follow the one before. */
  predicate Spaced(s: Spec, changes: seq<int>) {
    forall i | 0 <= i < |changes| :: MayFollow(s, LastOf(changes[..i]), changes[i])
  }

  ghost predicate Inv(w: World) {
    && (w.user.Some? ==>
          var u := w.user.value;
          && u.version < w.next
          && (u.deleting ==> u.finalizer)
          && u.status.lastChange == LastOf(w.changes)
          && (!w.meddled && u.status.lastChange.Some? ==> HasGenerated(w)))
    && (forall name | name in w.secrets :: w.secrets[name].version < w.next)
    && (!w.respecified ==> Spaced(w.spec, w.changes))
    && (w.changes != [] ==> LastOf(w.changes).value <= Seconds(w.clock))
    && w.generated <= Accounted(w)
  }

  /** The passwords that may have been generated: one for each recorded change, for each
      rotation that went unrecorded, and for the one not recorded yet. */
  function Accounted(w: World): nat { |w.changes| + w.unrecorded + if w.pending then 1 else 0 }

  /** How a later world of a run differs from an earlier one. */
  ghost predicate Later(a: World, b: World) {
    && b.name == a.name
    && (a.respecified ==> b.respecified) && (!b.respecified ==> b.spec == a.spec)
    && a.clock <= b.clock && a.next <= b.next
    && a.changes <= b.changes && a.unrecorded <= b.unrecorded
    && b.generated - a.generated <= Accounted(b) - Accounted(a)
    && (a.meddled ==> b.meddled) && (!b.meddled ==> KeysKept(a, b))
    && (a.user.None? ==> b.user.None?)
    && (forall name | name in b.secrets ::
          (name in a.secrets && b.secrets[name] == a.secrets[name]) || b.secrets[name].version >= a.next)
    && (a.user.Some? ==> a.user.value.version < b.next)
    && (a.user.Some? && b.user.Some? ==> LaterUser(a.user.value, b.user.value))
    && (a.user.Some? && b.user.Some? && a.user.value.version == b.user.value.version ==> b.spec == a.spec)
  }

  ghost predicate LaterUser(u: User, v: User) {
    && u.version <= v.version
    && (u.version == v.version ==> u == v)
    && (u.finalizer ==> v.finalizer) && (u.deleting ==> v.deleting)
    && KeepsFields(u.status, v.status)
  }

  lemma InitInv(w: World)
    requires Init(w)
    ensures Inv(w)
  {
  }

  lemma EnvKeeps(w: World, a: EnvAction)
    requires Inv(w)
    ensures Inv(Env(w, a)) && Later(w, Env(w, a))
  {
    hide Spaced;
    match a {
      case EditSecret(name, data) => EditKeeps(w, name, data);
      case UserDelete => UserDeleteKeeps(w);
      case EditSpec(spec) => EditSpecKeeps(w, spec);
      case _ =>
    }
  }

  lemma UserDeleteKeeps(w: World)
    requires Inv(w)
    ensures Inv(Env(w, UserDelete)) && Later(w, Env(w, UserDelete))
  {
    hide Spaced, GeneratedSecret, Wrap64, MayFollow;
  }

  lemma EditSpecKeeps(w: World, spec: Spec)
    requires Inv(w)
    ensures Inv(Env(w, EditSpec(spec))) && Later(w, Env(w, EditSpec(spec)))
  {
    hide Spaced;
  }

  lemma EditKeeps(w: World, name: string, data: Option<map<string, string>>)
    requires Inv(w)
    ensures Inv(Env(w, EditSecret(name, data))) && Later(w, Env(w, EditSecret(name, data)))
  {
    hide Spaced, GeneratedSecret;
  }

  lemma SpacedGrows(s: Spec, changes: seq<int>, v: int)
    requires Spaced(s, changes) && MayFollow(s, LastOf(changes), v)
    ensures Spaced(s, changes + [v])
  {
    hide MayFollow;
    var more := changes + [v];
    forall i | 0 <= i < |more| ensures MayFollow(s, LastOf(more[..i]), more[i]) {
      assert more[..i] == changes[..i];
      assert changes[..|changes|] == changes;
    }
  }

  lemma WriteKeeps(w: World, s: Status)
    requires Inv(w) && Promised(w, Write(s))
    ensures Inv(Do(w, Write(s))) && Later(w, Do(w, Write(s)))
  {
    hide MayFollow, Spaced;
    if s.lastChange != w.user.value.status.lastChange && !w.respecified {
      SpacedGrows(w.spec, w.changes, s.lastChange.value);
    }
  }

  lemma ControllerKeeps(w: World, r: Request)
    requires Inv(w) && Promised(w, r)
    ensures Inv(Do(w, r)) && Later(w, Do(w, r))
  {
    hide Spaced, MayFollow;
    if r.Write? { WriteKeeps(w, r.status); }
  }

  lemma NextKeeps(w: World, w': World)
    requires Inv(w) && Next(w, w')
    ensures Inv(w') && Later(w, w')
  {
    hide Inv, Later, Env, Do, PromisedStatus;
    if a :| w' == Env(w, a) {
      EnvKeeps(w, a);
    } else {
      var r :| Promised(w, r) && w' == Do(w, r);
      ControllerKeeps(w, r);
    }
  }

  lemma LaterSelf(w: World)
    requires Inv(w)
    ensures Later(w, w)
  {
  }

  lemma LaterTransitive(a: World, b: World, c: World)
    requires Later(a, b) && Later(b, c)
    ensures Later(a, c)
  {
  }

  lemma {:induction false} RunInv(log: seq<World>, i: nat)
    requires Run(log) && i < |log|
    ensures Inv(log[i])
  {
    if i == 0 { InitInv(log[0]); } else {
      RunInv(log, i - 1);
      NextKeeps(log[i - 1], log[i]);
    }
  }

  lemma {:induction false} RunLater(log: seq<World>, i: nat, j: nat)
    requires Run(log) && i <= j < |log|
    ensures Later(log[i], log[j])
  {
    hide Later, Next, Init;
    RunInv(log, i);
    if i == j { LaterSelf(log[i]); } else {
      RunLater(log, i, j - 1);
      RunInv(log, j - 1);
      NextKeeps(log[j - 1], log[j]);
      LaterTransitive(log[i], log[j - 1], log[j]);
    }
  }
}
