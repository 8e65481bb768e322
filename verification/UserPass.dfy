/** One pass of the user controller whose API requests meet no fault and no interference,
    as a function of the world and the instances, and when such a pass succeeds. */
module UserPass {
  import opened Types
  import opened Selection
  import opened PostgresClient
  import opened UserFanOut
  import opened UserProtocol

  /** What updateStatus writes: fields that are not set keep their value. */
  function Merged(old_: Status, s: Status): Status {
    Status(s.phase, if s.lastChange.None? then old_.lastChange else s.lastChange,
           if s.reports == [] then old_.reports else s.reports)
  }

  const FAILED := Status(Failed, None, [])

  function Persist(w: World, s: Status): (w': World)
    requires w.user.Some?
    ensures w'.user.Some? && w'.cluster == w.cluster && w'.spec == w.spec && w'.secrets == w.secrets
  {
    Do(w, Write(Merged(w.user.value.status, s)))
  }

  /** The target instances; `None` where the code dereferences a cluster it did not get. */
  function Targets(cluster: Option<seq<InstanceStatus>>, selector: Option<Selector>): Option<Result<seq<string>>> {
    if cluster.Some? then Some(UserTargets(cluster.value, selector))
    else if selector.Some? && selector.value.names != [] then Some(Ok(selector.value.names))
    else if ByLabels(selector) && !ValidSelector(selector.value.labels.value) then Some(Err)
    else None
  }

  /** Without a cluster: the listed names, if there are any; otherwise an error for an invalid
      label selector that no role precedes, and a null dereference in every other case. */
  lemma TargetsUnread(selector: Option<Selector>)
    ensures selector == None ==> Targets(None, selector) == None
    ensures selector.Some? ==>
              var s := selector.value;
              && (s.names != [] ==> Targets(None, selector) == Some(Ok(s.names)))
              && (s.names == [] && s.role == "" && s.labels.Some? && !ValidSelector(s.labels.value) ==>
                    Targets(None, selector) == Some(Err))
              && (s.names == [] && !(s.role == "" && s.labels.Some? && !ValidSelector(s.labels.value)) ==>
                    Targets(None, selector) == None)
  {
    hide ValidSelector;
  }

  /** The world after reconcilePasswordSecret, the last change then held in memory, and the result. */
  datatype Prepared = Prepared(world: World, last: Option<int>, r: Outcome)

  /** `random` is a newly generated password, absent if the generator fails. A Secret without
      data makes the operator panic. */
  function PreparePassword(w: World, last: Option<int>, random: Option<string>): (r: Prepared)
    ensures r.world.user == w.user && r.world.cluster == w.cluster && r.world.spec == w.spec
    ensures r.last == last || r.last.Some?
  {
    match w.spec.password
    case None => Prepared(w, last, Errored)
    case Some(p) =>
      if p.secretRef.Some? then Prepared(w, last, if Stored(w).Some? then Finished else Errored)
      else if !p.generate then Prepared(w, last, Errored)
      else if !ShouldRotate(p, last, w.clock) then Prepared(w, last, Finished)
      else if random.None? then Prepared(w, last, Errored)
      else Generated(w, last, random.value)
  }

  function Generated(w: World, last: Option<int>, password: string): (r: Prepared)
    ensures r.world.user == w.user && r.world.cluster == w.cluster && r.world.spec == w.spec && r.world.clock == w.clock
    ensures r.last == last || r.last.Some?
  {
    var name, now := GeneratedSecret(w.name), Some(Seconds(w.clock));
    if name !in w.secrets then Prepared(Do(w, CreateSecret(name, map["password" := password])), now, Finished)
    else
      var data := w.secrets[name].data;
      if data == map[] then Prepared(w, last, Died)
      else if "password" in data && data["password"] == password then Prepared(w, now, Finished)
      else Prepared(Do(w, UpdateSecret(name, data["password" := password])), now, Finished)
  }

  datatype PassEnd = PassEnd(world: World, servers: map<string, Server>, r: Outcome)

  function LivePass(w: World, servers: map<string, Server>, random: Option<string>): PassEnd
    requires w.user.Some?
  {
    var w1 := Persist(w, FAILED);
    match Targets(w.cluster, w.spec.selector)
    case None => PassEnd(w1, servers, Died)
    case Some(Err) => PassEnd(Persist(w1, FAILED), servers, Errored)
    case Some(Ok(targets)) => TargetedPass(w1, servers, targets, random)
  }

  /** The rest of a pass, once the targets are known. */
  function TargetedPass(w: World, servers: map<string, Server>, targets: seq<string>, random: Option<string>): PassEnd
    requires w.user.Some?
  {
    var p := PreparePassword(w, w.user.value.status.lastChange, random);
    if p.r == Died then PassEnd(p.world, servers, Died)
    else if p.r == Errored then PassEnd(Persist(p.world, FAILED), servers, Errored)
    else Configured(p, servers, targets)
  }

  /** The rest of a pass, once the password is in place. */
  function Configured(p: Prepared, servers: map<string, Server>, targets: seq<string>): PassEnd
    requires p.world.user.Some?
  {
    var password := Stored(p.world);
    if password.None? then PassEnd(Persist(p.world, Status(Failed, p.last, [])), servers, Errored)
    else if p.world.cluster.None? && targets != [] then PassEnd(p.world, servers, Died)
    else
      var end := FanOut(servers, targets, p.world.spec.wish, password.value);
      if end.r == Died then PassEnd(p.world, end.servers, Died)
      else PassEnd(Persist(p.world, Status(if end.r == Finished then Ready else Failed, p.last, end.reports)),
                   end.servers, end.r)
  }

  function DeletingPass(w: World, servers: map<string, Server>): PassEnd
    requires w.user.Some?
  {
    var s := w.user.value.status;
    var dropped := if s.phase == Ready && w.cluster.Some? then DropEach(servers, s.reports, w.spec.wish.user)
                   else Dropped(servers, Finished);
    if dropped.r == Died then PassEnd(w, dropped.servers, Died) else PassEnd(Do(w, Drop), dropped.servers, Finished)
  }

  function QuietPass(w: World, servers: map<string, Server>, random: Option<string>): PassEnd {
    match w.user
    case None => PassEnd(w, servers, Finished)
    case Some(u) =>
      if !u.finalizer then PassEnd(Do(w, AddFinalizer), servers, Finished)
      else if u.deleting then DeletingPass(w, servers)
      else LivePass(w, servers, random)
  }

  // ---- When a pass succeeds ----

  predicate RotationDue(w: World) {
    w.user.Some? && w.spec.password.Some?
    && ShouldRotate(w.spec.password.value, w.user.value.status.lastChange, w.clock)
  }

  /** The password a pass starting here will use, if it gets that far. */
  function NextPassword(w: World, random: Option<string>): Option<string> {
    if w.spec.password.None? then None
    else
      var p := w.spec.password.value;
      var name := GeneratedSecret(w.name);
      if p.secretRef.Some? then Stored(w)
      else if !p.generate then None
      else if !RotationDue(w) then Stored(w)
      else if name in w.secrets && w.secrets[name].data == map[] then None
      else random
  }

  lemma PreparedPassword(w: World, random: Option<string>)
    requires w.user.Some?
    ensures var p := PreparePassword(w, w.user.value.status.lastChange, random);
            && (NextPassword(w, random).Some? ==> p.r == Finished && Stored(p.world) == NextPassword(w, random))
            && (p.r == Finished && Stored(p.world).Some? ==> Stored(p.world) == NextPassword(w, random))
  {
  }

  lemma PersistKeepsSecrets(w: World, s: Status, random: Option<string>)
    requires w.user.Some?
    ensures var w' := Persist(w, s);
            && w' == w.(user := w'.user, next := w'.next, changes := w'.changes, pending := w'.pending)
            && w'.user.Some? && w'.user.value.finalizer == w.user.value.finalizer
            && w'.user.value.deleting == w.user.value.deleting
            && w'.user.value.status == Merged(w.user.value.status, s)
            && Stored(w') == Stored(w)
            && (s.lastChange.None? ==> NextPassword(w', random) == NextPassword(w, random))
  {
    hide ShouldRotate;
  }

  ghost predicate Live(w: World) { w.user.Some? && w.user.value.finalizer && !w.user.value.deleting }

  /** Over instances without faults a pass succeeds exactly if there is a password to use
      and every target can take the user, whatever phase and whatever reports earlier,
      failed passes have left behind. */
  lemma PassSucceeds(w: World, servers: map<string, Server>, random: Option<string>, targets: seq<string>)
    requires Live(w) && w.cluster.Some? && UserTargets(w.cluster.value, w.spec.selector) == Ok(targets)
    requires Distinct(targets) && forall t | t in servers :: servers[t].script == []
    ensures QuietPass(w, servers, random).r == Finished
            <==> NextPassword(w, random).Some?
                 && forall t | t in targets :: Configurable(servers, t, w.spec.wish, NextPassword(w, random).value)
  {
    hide UserTargets, Persist, PreparePassword, NextPassword, Stored, FanOut, Configurable;
    var w1 := Persist(w, FAILED);
    PersistKeepsSecrets(w, FAILED, random);
    PreparedPassword(w1, random);
    var p := PreparePassword(w1, w1.user.value.status.lastChange, random);
    if Stored(p.world).Some? {
      FanOutQuiet(servers, targets, w.spec.wish, Stored(p.world).value);
    }
  }

  // ---- When a pass dies ----

  /** A rotation is due and the Secret it would write exists without data. */
  predicate EmptySecret(w: World, random: Option<string>) {
    && w.spec.password.Some? && w.spec.password.value.secretRef.None? && w.spec.password.value.generate
    && RotationDue(w) && random.Some?
    && GeneratedSecret(w.name) in w.secrets && w.secrets[GeneratedSecret(w.name)].data == map[]
  }

  lemma PreparationDies(w: World, random: Option<string>)
    requires w.user.Some?
    ensures PreparePassword(w, w.user.value.status.lastChange, random).r == Died <==> EmptySecret(w, random)
    ensures EmptySecret(Persist(w, FAILED), random) == EmptySecret(w, random)
  {
    hide ShouldRotate;
    PersistKeepsSecrets(w, FAILED, random);
  }

  /** Without any fault a pass dies exactly if the user is live and it either has no cluster
      and neither a list of names nor an invalid label selector to stop it before, or meets a
      Secret without data where it is to store a password, or has a list of names and a
      password but no cluster to connect to. */
  lemma PassDies(w: World, servers: map<string, Server>, random: Option<string>)
    requires forall t | t in servers :: servers[t].script == []
    ensures QuietPass(w, servers, random).r == Died <==>
              && Live(w)
              && match Targets(w.cluster, w.spec.selector)
                 case None => true
                 case Some(Err) => false
                 case Some(Ok(_)) => EmptySecret(w, random) || (w.cluster.None? && NextPassword(w, random).Some?)
  {
    hide Persist, PreparePassword, NextPassword, Stored, FanOut, DropEach, EmptySecret, UserTargets;
    if w.user.Some? && w.user.value.deleting { DropEachQuiet(servers, w.user.value.status.reports, w.spec.wish.user); }
    if Live(w) {
      var w1 := Persist(w, FAILED);
      PersistKeepsSecrets(w, FAILED, random);
      PreparationDies(w, random);
      PreparationDies(w1, random);
      PreparedPassword(w1, random);
      var p := PreparePassword(w1, w1.user.value.status.lastChange, random);
      if Stored(p.world).Some? && Targets(w.cluster, w.spec.selector).Some?
         && Targets(w.cluster, w.spec.selector).value.Ok? {
        NeverDies(servers, Targets(w.cluster, w.spec.selector).value.value, w.spec.wish, Stored(p.world).value);
      }
    }
  }

  // ---- What a successful pass leaves ----

  /** After a pass that succeeds the user is Ready, with one ready report per target, and on
      every target the role holds the password that is now stored, and the limit. */
  lemma SuccessMeansReady(w: World, servers: map<string, Server>, random: Option<string>, targets: seq<string>)
    requires Live(w) && Targets(w.cluster, w.spec.selector) == Some(Ok(targets)) && Distinct(targets)
    requires QuietPass(w, servers, random).r == Finished
    ensures var end := QuietPass(w, servers, random);
            && Stored(end.world).Some? && Stored(end.world) == NextPassword(w, random)
            && end.world.user.Some? && end.world.user.value.status.phase == Ready
            && (targets != [] ==>
                  var reports := end.world.user.value.status.reports;
                  |reports| == |targets| && forall i | 0 <= i < |targets| ::
                    reports[i] == InstanceReport(targets[i], true))
            && forall t | t in targets ::
                 t in end.servers && Holds(end.servers[t].roles, w.spec.wish, Stored(end.world).value)
  {
    hide Targets, Persist, PreparePassword, NextPassword, Stored, FanOut, Holds;
    var w1 := Persist(w, FAILED);
    PersistKeepsSecrets(w, FAILED, random);
    PreparedPassword(w1, random);
    var p := PreparePassword(w1, w1.user.value.status.lastChange, random);
    var password := Stored(p.world).value;
    var fan := FanOut(servers, targets, w.spec.wish, password);
    PersistKeepsSecrets(p.world, Status(Ready, p.last, fan.reports), random);
    ReportsInOrder(servers, targets, w.spec.wish, password);
    forall t | t in targets ensures t in fan.servers && Holds(fan.servers[t].roles, w.spec.wish, password) {
      var i :| 0 <= i < |targets| && targets[i] == t;
      ReadyHolds(servers, targets, w.spec.wish, password, i);
    }
  }

  /** A pass that gets as far as its instances reports on each of them, is Ready exactly if
      all are, and on every instance it reports ready the role holds the password now stored
      and the limit, whatever failed on the others. */
  lemma ReportsAreTrue(w: World, servers: map<string, Server>, random: Option<string>, targets: seq<string>)
    requires Live(w) && Targets(w.cluster, w.spec.selector) == Some(Ok(targets)) && Distinct(targets) && targets != []
    requires NextPassword(w, random).Some? && QuietPass(w, servers, random).r != Died
    ensures var end := QuietPass(w, servers, random);
            && end.world.user.Some? && Stored(end.world) == NextPassword(w, random)
            && var status := end.world.user.value.status;
               && |status.reports| == |targets|
               && (status.phase == Ready <==> forall i | 0 <= i < |targets| :: status.reports[i].ready)
               && forall i | 0 <= i < |targets| ::
                    && status.reports[i].name == targets[i]
                    && (status.reports[i].ready ==>
                          targets[i] in end.servers
                          && Holds(end.servers[targets[i]].roles, w.spec.wish, Stored(end.world).value))
  {
    hide Targets, Persist, PreparePassword, NextPassword, Stored, FanOut, Holds;
    var w1 := Persist(w, FAILED);
    PersistKeepsSecrets(w, FAILED, random);
    PreparedPassword(w1, random);
    var p := PreparePassword(w1, w1.user.value.status.lastChange, random);
    var password := Stored(p.world).value;
    var fan := FanOut(servers, targets, w.spec.wish, password);
    PersistKeepsSecrets(p.world, Status(if fan.r == Finished then Ready else Failed, p.last, fan.reports), random);
    ReportsInOrder(servers, targets, w.spec.wish, password);
    forall i | 0 <= i < |fan.reports| && fan.reports[i].ready
      ensures targets[i] in fan.servers && Holds(fan.servers[targets[i]].roles, w.spec.wish, password)
    {
      ReadyHolds(servers, targets, w.spec.wish, password, i);
    }
  }

  /** A live pass leaves Ready exactly if it finishes, and Failed otherwise, even if it dies. */
  lemma PhaseTellsOutcome(w: World, servers: map<string, Server>, random: Option<string>)
    requires Live(w)
    ensures var end := QuietPass(w, servers, random);
            && end.world.user.Some?
            && end.world.user.value.status.phase == if end.r == Finished then Ready else Failed
  {
    hide Targets, PreparePassword, Stored, FanOut, ShouldRotate, Persist, UserTargets;
    PersistsPhase();
    var w1 := Persist(w, FAILED);
    var p := PreparePassword(w1, w1.user.value.status.lastChange, random);
    assert p.world.user == w1.user;
  }

  lemma PersistsPhase()
    ensures forall w: World, s: Status | w.user.Some? ::
              Persist(w, s).user.Some? && Persist(w, s).user.value.status.phase == s.phase
  {
    hide Stored;
  }

  /** A pass that finds the interval over stores the new password and, unless it dies on an
      instance, records the time; likewise the first pass of all. */
  lemma RotationHappens(w: World, servers: map<string, Server>, random: string, targets: seq<string>,
                        p: PasswordSpec, last: Option<int>, hours: int)
    requires Live(w) && Targets(w.cluster, w.spec.selector) == Some(Ok(targets))
    requires w.spec.password == Some(p) && p.secretRef == None && p.generate
    requires w.user.value.status.lastChange == last
    requires last.None? || (&& p.policy == Some(Policy(true, hours)) && 1 <= hours <= 2_562_047
                            && w.clock >= (last.value + hours * 3600) * 1_000_000_000)
    requires (w.name + "-password") in w.secrets ==> w.secrets[w.name + "-password"].data != map[]
    ensures var end := QuietPass(w, servers, Some(random));
            && Stored(end.world) == Some(random)
            && end.world.user.Some?
            && (end.r != Died ==> end.world.user.value.status.lastChange == Some(Seconds(w.clock)))
  {
    hide Targets, FanOut, Persist, PreparePassword, NextPassword, Stored, ShouldRotate;
    assert RotationDue(w) by { if last.Some? { DueExactly(p, last, w.clock); } else { FirstDue(p, w.clock); } }
    var w1 := Persist(w, FAILED);
    PersistKeepsSecrets(w, FAILED, Some(random));
    DueStored(w1, random);
    var prepared := PreparePassword(w1, w1.user.value.status.lastChange, Some(random));
    PersistsLast(prepared.world, FAILED);
    PersistsLast(prepared.world, Status(Failed, prepared.last, []));
    var fan := FanOut(servers, targets, w.spec.wish, random);
    PersistsLast(prepared.world, Status(if fan.r == Finished then Ready else Failed, prepared.last, fan.reports));
  }

  lemma FirstDue(p: PasswordSpec, clock: nat)
    ensures ShouldRotate(p, None, clock)
  {
  }

  lemma PersistsLast(w: World, s: Status)
    requires w.user.Some?
    ensures Stored(Persist(w, s)) == Stored(w)
    ensures Persist(w, s).user.value.status.lastChange
            == if s.lastChange.Some? then s.lastChange else w.user.value.status.lastChange
  {
  }

  lemma DueStored(w: World, random: string)
    requires RotationDue(w) && w.spec.password.value.secretRef.None? && w.spec.password.value.generate
    requires (w.name + "-password") in w.secrets ==> w.secrets[w.name + "-password"].data != map[]
    ensures var p := PreparePassword(w, w.user.value.status.lastChange, Some(random));
            p.r == Finished && Stored(p.world) == Some(random) && p.last == Some(Seconds(w.clock))
  {
    hide ShouldRotate;
  }

  /** `after` has the Secrets of `before`, but for the key "password" of the Secret `own`. */
  ghost predicate PasswordOnly(own: string, before: map<string, Secret>, after: map<string, Secret>) {
    && before.Keys <= after.Keys <= before.Keys + {own}
    && (forall name | name in before && name != own :: after[name] == before[name])
    && (own in after ==> forall key | key != "password" ::
          && (key in after[own].data <==> own in before && key in before[own].data)
          && (key in after[own].data ==> after[own].data[key] == before[own].data[key]))
  }

  /** A live pass writes at most the key "password" of the Secret named after the user. */
  lemma OtherKeysStay(w: World, servers: map<string, Server>, random: Option<string>)
    requires Live(w)
    ensures PasswordOnly(w.name + "-password", w.secrets, QuietPass(w, servers, random).world.secrets)
  {
    hide Targets, FanOut, Stored, Persist, PreparePassword, UserTargets, PasswordOnly;
    var w1 := Persist(w, FAILED);
    PersistKeepsSecrets(w, FAILED, random);
    PreparesOwn(w1, w1.user.value.status.lastChange, random);
    assert PasswordOnly(w.name + "-password", w.secrets, w.secrets) by { SameSecrets(w.name + "-password", w.secrets); }
  }

  lemma SameSecrets(own: string, secrets: map<string, Secret>)
    ensures PasswordOnly(own, secrets, secrets)
  {
  }

  lemma PreparesOwn(w: World, last: Option<int>, random: Option<string>)
    ensures PasswordOnly(w.name + "-password", w.secrets, PreparePassword(w, last, random).world.secrets)
  {
    hide Stored, ShouldRotate, Generated, PasswordOnly;
    SameSecrets(w.name + "-password", w.secrets);
    if random.Some? { GeneratesOwn(w, last, random.value); }
  }

  lemma GeneratesOwn(w: World, last: Option<int>, password: string)
    ensures PasswordOnly(w.name + "-password", w.secrets, Generated(w, last, password).world.secrets)
  {
    hide GeneratedSecret;
    assert GeneratedSecret(w.name) == w.name + "-password" by { OwnName(w.name); }
  }

  lemma OwnName(name: string)
    ensures GeneratedSecret(name) == name + "-password"
  {
  }

  /** A password that was recorded, in a run in which nobody took Secrets or keys away, is
      there for every pass at which no rotation is due. */
  lemma RecordedPasswordUsable(w: World, random: Option<string>)
    requires Inv(w) && Live(w) && !w.meddled
    requires w.spec.password.Some? && w.spec.password.value.secretRef.None? && w.spec.password.value.generate
    requires !RotationDue(w)
    ensures NextPassword(w, random).Some? && NextPassword(w, random) == Stored(w)
  {
  }

  /** The hours of the rotation policy, if there is one, fit a Duration. */
  predicate HoursFit(s: Spec) {
    s.password.Some? && s.password.value.policy.Some? ==> -2_562_047 <= s.password.value.policy.value.hours <= 2_562_047
  }

  /** Once the password is prepared, another rotation is not due if rotation is off or paced
      by at least an hour; with a policy of no hours it is due again at once. */
  lemma PreparedNotDue(w: World, random: Option<string>)
    requires w.user.Some? && w.spec.password.Some? && w.spec.password.value.secretRef.None?
    ensures var p := PreparePassword(w, w.user.value.status.lastChange, random);
            p.r == Finished ==>
              && p.world.clock == w.clock && p.last.Some?
              && (RotationOff(w.spec) || Paced(w.spec) ==> !ShouldRotate(w.spec.password.value, p.last, w.clock))
              && (HoursFit(w.spec) && (w.user.value.status.lastChange.Some? ==>
                                         w.user.value.status.lastChange.value <= Seconds(w.clock)) ==>
                    (!ShouldRotate(w.spec.password.value, p.last, w.clock) <==> RotationOff(w.spec) || Paced(w.spec)))
  {
    if w.spec.password.value.policy.Some? { IntervalFits(w.spec.password.value.policy.value.hours); }
  }

  /** Whether a pass is to store a new password. */
  predicate Generates(w: World, random: Option<string>) {
    && RotationDue(w) && random.Some?
    && w.spec.password.value.secretRef.None? && w.spec.password.value.generate
  }

  /** A pass that finds no rotation due, has no password to store or is not to generate one
      leaves every Secret and the time of the last change alone. */
  lemma NothingRotated(w: World, servers: map<string, Server>, random: Option<string>)
    requires Live(w) && !Generates(w, random)
    ensures var end := QuietPass(w, servers, random).world;
            && end.secrets == w.secrets
            && end.user.Some? && end.user.value.status.lastChange == w.user.value.status.lastChange
  {
    hide Targets, Persist, PreparePassword, Generates, Configured;
    PersistKeepsSecrets(w, FAILED, random);
    var w1 := Persist(w, FAILED);
    GeneratesAlike(w, w1, random);
    NothingPrepared(w1, random);
    PersistKeepsSecrets(w1, FAILED, random);
    var p := PreparePassword(w1, w1.user.value.status.lastChange, random);
    if Targets(w.cluster, w.spec.selector).Some? && Targets(w.cluster, w.spec.selector).value.Ok? && p.r == Finished {
      ConfiguredLast(p, servers, Targets(w.cluster, w.spec.selector).value.value);
    }
  }

  lemma ConfiguredLast(p: Prepared, servers: map<string, Server>, targets: seq<string>)
    requires p.world.user.Some? && p.last == p.world.user.value.status.lastChange
    ensures var end := Configured(p, servers, targets).world;
            && end.secrets == p.world.secrets
            && end.user.Some? && end.user.value.status.lastChange == p.last
  {
    hide FanOut, Stored, Persist;
    PersistKeepsSecrets(p.world, Status(Failed, p.last, []), None);
    var password := Stored(p.world);
    if password.Some? {
      var end := FanOut(servers, targets, p.world.spec.wish, password.value);
      PersistKeepsSecrets(p.world, Status(if end.r == Finished then Ready else Failed, p.last, end.reports), None);
    }
  }

  lemma GeneratesAlike(w: World, w1: World, random: Option<string>)
    requires Live(w) && w1.user.Some? && w1.user.value.status.lastChange == w.user.value.status.lastChange
    requires w1.spec == w.spec && w1.clock == w.clock
    ensures Generates(w1, random) == Generates(w, random)
  {
    hide ShouldRotate;
  }

  lemma NothingPrepared(w: World, random: Option<string>)
    requires w.user.Some? && !Generates(w, random)
    ensures var p := PreparePassword(w, w.user.value.status.lastChange, random);
            p.world == w && p.last == w.user.value.status.lastChange
  {
    hide ShouldRotate;
  }

  /** With an enabled policy of no hours, as one that omits its interval, a rotation is due at
      every later time. */
  lemma NoHoursAlwaysDue(w: World, later: nat)
    requires w.user.Some? && w.spec.password.Some? && Rotating(w.spec.password.value)
    requires w.spec.password.value.policy.value.hours == 0
    requires w.user.value.status.lastChange.Some? ==> w.user.value.status.lastChange.value <= Seconds(w.clock)
    ensures RotationDue(w.(clock := w.clock + later))
  {
    IntervalFits(0);
  }

  /** A successful pass has recorded its rotation. The pass that follows at once leaves every
      Secret alone if rotation is off or paced by at least an hour; for hours that fit a
      Duration, and a last change not in the future, another rotation is due at once otherwise. */
  lemma NoDoubleRotation(w: World, servers: map<string, Server>, random: Option<string>, random': Option<string>)
    requires Live(w) && QuietPass(w, servers, random).r == Finished
    requires w.spec.password.Some? && w.spec.password.value.secretRef.None?
    ensures var end := QuietPass(w, servers, random);
            && (RotationOff(w.spec) || Paced(w.spec) ==>
                  QuietPass(end.world, end.servers, random').world.secrets == end.world.secrets)
            && (HoursFit(w.spec) && (w.user.value.status.lastChange.Some? ==>
                                       w.user.value.status.lastChange.value <= Seconds(w.clock)) ==>
                  (!RotationDue(end.world) <==> RotationOff(w.spec) || Paced(w.spec)))
  {
    hide Targets, FanOut, Stored, ShouldRotate, Persist, PreparePassword, RotationOff, Paced, HoursFit;
    var w1 := Persist(w, FAILED);
    PersistKeepsSecrets(w, FAILED, random);
    PreparedNotDue(w1, random);
    var p := PreparePassword(w1, w1.user.value.status.lastChange, random);
    var end := QuietPass(w, servers, random);
    if Stored(p.world).Some? {
      var fan := FanOut(servers, Targets(w.cluster, w.spec.selector).value.value, w.spec.wish, Stored(p.world).value);
      PersistKeepsSecrets(p.world, Status(Ready, p.last, fan.reports), random);
    }
    if !RotationDue(end.world) { NothingRotated(end.world, end.servers, random'); }
  }

  // ---- Deletion ----

  /** Without faults a deletion drops the user from exactly the instances reported ready in a
      status that is Ready as a whole, if the cluster can be read; elsewhere roles stay behind. */
  lemma DeletionLeaves(w: World, servers: map<string, Server>, random: Option<string>)
    requires w.user.Some? && w.user.value.finalizer && w.user.value.deleting
    requires forall t | t in servers :: servers[t].script == []
    ensures var s, end := w.user.value.status, QuietPass(w, servers, random);
            && end.r == Finished && end.world.user.None? && end.servers.Keys == servers.Keys
            && forall t | t in servers ::
                 var dropped := s.phase == Ready && w.cluster.Some? && ReportedReady(s.reports, t);
                 end.servers[t] == WithoutUser(servers[t], dropped, w.spec.wish.user)
  {
    DropEachQuiet(servers, w.user.value.status.reports, w.spec.wish.user);
    hide DropEach;
  }

  /** Since every live pass first persists Failed, a pass that crashes right after leaves all
      roles behind when the user is deleted next; so it can go at the end of any run. */
  lemma CrashOrphansRoles(log: seq<World>, servers: map<string, Server>, random: Option<string>)
    requires Run(log) && Live(log[|log| - 1])
    ensures var w1 := Persist(log[|log| - 1], FAILED);
            var w2 := Env(w1, UserDelete);
            && Run(log + [w1, w2]) && w2.user.Some?
            && QuietPass(w2, servers, random) == PassEnd(w2.(user := None), servers, Finished)
  {
    var w := log[|log| - 1];
    var w1 := Persist(w, FAILED);
    var w2 := Env(w1, UserDelete);
    var s := Merged(w.user.value.status, FAILED);
    hide Spaced, MayFollow, HasGenerated;
    assert Promised(w, Write(s)) && w1 == Do(w, Write(s));
    assert Next(w, w1) && Next(w1, w2);
    var more := log + [w1, w2];
    forall i | 0 <= i < |more| - 1 ensures Next(more[i], more[i + 1]) {
      if i < |log| - 1 { assert more[i] == log[i] && more[i + 1] == log[i + 1]; }
    }
  }
}
