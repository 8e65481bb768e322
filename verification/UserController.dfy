/** controllers/postgresuser_controller.go: the reconciler, against a script that says,
    request by request, what the environment does first, how far behind a cache is, and
    what becomes of the request. A script that has run out means no interference and no fault. */
module UserController {
  import opened Types
  import opened Selection
  import opened PostgresClient
  import opened UserFanOut
  import opened UserProtocol
  import opened UserPass

  datatype Event = Event(env: seq<EnvAction>, lag: nat, fate: Fate)

  /** The environment acted; the controller wrote nothing. */
  ghost predicate Unwritten(w: World, w': World) {
    && Inv(w') && Later(w, w')
    && (w.user.Some? && w.user.value.finalizer ==> w'.user.Some?)
    && (w.user.Some? && w'.user.Some? ==> w'.user.value.status == w.user.value.status)
  }

  lemma UnwrittenTransitive(a: World, b: World, c: World)
    requires Unwritten(a, b) && Unwritten(b, c)
    ensures Unwritten(a, c)
  {
    hide Inv, PromisedStatus;
    LaterTransitive(a, b, c);
  }

  lemma EnvUnwritten(w: World, a: EnvAction)
    requires Inv(w)
    ensures Unwritten(w, Env(w, a)) && Next(w, Env(w, a))
  {
    hide Spaced, Promised;
    EnvKeeps(w, a);
  }

  lemma RunGrows(log: seq<World>, w: World)
    requires Run(log) && Next(log[|log| - 1], w)
    ensures Run(log + [w])
  {
  }

  // ---- What a pass knows between two requests ----

  /** `start` is the world whose user object `d` was read or last written at. */
  ghost predicate Working(w: World, start: World, d: User) {
    && Inv(w) && Inv(start) && Later(start, w) && start.user.Some?
    && var u := start.user.value;
       && d.version == u.version
       && d.finalizer && u.finalizer && !d.deleting && !u.deleting
       && KeepsFields(u.status, d.status)
       && Rotated(w, u.status.lastChange, d.status.lastChange)
  }

  lemma StillWorking(w: World, w': World, start: World, d: User)
    requires Working(w, start, d) && Unwritten(w, w')
    ensures Working(w', start, d)
  {
    hide Spaced, MayFollow;
    LaterTransitive(start, w, w');
    SecondsGrow(w.clock, w'.clock);
  }

  lemma SecondsGrow(a: nat, b: nat)
    requires a <= b
    ensures Seconds(a) <= Seconds(b)
  {
  }

  /** A status write that is accepted meets the very object `d` was read with. */
  lemma MayWrite(w: World, start: World, d: User, s: Status)
    requires Working(w, start, d) && Accepts(w, Write(s), d.version)
    requires KeepsFields(d.status, s) && s.lastChange == d.status.lastChange
    ensures Promised(w, Write(s))
  {
    hide Spaced, MayFollow, HasGenerated;
  }

  lemma WrittenWorking(w: World, s: Status, d: User)
    requires Inv(w) && Promised(w, Write(s)) && Do(w, Write(s)).user == Some(d)
    ensures var w' := Do(w, Write(s)); Working(w', w', d)
  {
    hide Spaced, MayFollow;
    WriteKeeps(w, s);
    LaterSelf(Do(w, Write(s)));
  }

  /** Storing a password leaves what the pass knows intact. */
  lemma StoredWorking(w: World, start: World, d: User, r: Request)
    requires Working(w, start, d) && (r.CreateSecret? || r.UpdateSecret?) && Promised(w, r)
    ensures Working(Do(w, r), start, d)
  {
    hide Spaced, MayFollow;
    ControllerKeeps(w, r);
    LaterTransitive(start, w, Do(w, r));
  }

  /** Once the password is stored, the rotation that was due may be recorded. */
  lemma RotationRecorded(w: World, start: World, d: User, spec: Spec, clock: nat, last: Option<int>)
    requires Working(w, start, d) && d.status.lastChange == start.user.value.status.lastChange
    requires spec.password.Some? && ShouldRotate(spec.password.value, d.status.lastChange, clock) && clock <= w.clock
    requires spec == start.spec
    requires !w.meddled ==> HasGenerated(w)
    requires last == Some(Seconds(w.clock))
    ensures Working(w, start, d.(status := d.status.(lastChange := last)))
  {
    RotatedMayFollow(spec, d.status.lastChange, clock, w.clock);
    assert !w.respecified ==> w.spec == spec;
    hide Inv, Later, MayFollow, HasGenerated, ShouldRotate;
  }

  /** A password read as stored stays stored while nobody takes Secrets or keys away. */
  lemma StillStored(seen: World, w: World)
    requires Later(seen, w) && !w.meddled
    ensures forall spec :: StoredBy(seen, spec).Some? ==> StoredBy(w, spec).Some?
    ensures HasGenerated(seen) ==> HasGenerated(w)
  {
  }

  lemma RecordedStored(w: World, start: World, d: User)
    requires Working(w, start, d) && !w.meddled
    requires d.status.lastChange.Some? && d.status.lastChange == start.user.value.status.lastChange
    ensures HasGenerated(w)
  {
    hide Spaced, MayFollow;
    StillStored(start, w);
  }

  lemma SameUser(w: World, read: World, v: nat)
    requires Inv(w) && Later(read, w) && read.user.Some? && w.user.Some?
    requires read.user.value.version == v == w.user.value.version
    ensures w.user == read.user
  {
  }

  lemma StartWorking(w: World, seen: World, d: User)
    requires Inv(w) && Inv(seen) && Later(seen, w) && seen.user == Some(d) && d.finalizer && !d.deleting
    ensures Working(w, seen, d)
  {
  }

  lemma MergedKeeps(old_: Status, s: Status)
    ensures KeepsFields(old_, Merged(old_, s))
  {
  }

  lemma ReadLater(seen: World, w: World, w': World)
    requires Later(seen, w) && Unwritten(w, w')
    ensures Later(seen, w')
  {
    LaterTransitive(seen, w, w');
  }

  lemma UnwrittenLater(w: World, w': World)
    requires Unwritten(w, w')
    ensures Later(w, w') && w'.name == w.name
  {
  }

  lemma SecretVersion(w: World, name: string)
    requires Inv(w) && name in w.secrets
    ensures w.secrets[name].version < w.next
  {
  }

  lemma UnchangedPassword(seen: World, w: World)
    requires Later(seen, w) && GeneratedSecret(w.name) in seen.secrets
    requires "password" in seen.secrets[GeneratedSecret(w.name)].data
    ensures !w.meddled ==> HasGenerated(w)
  {
  }

  lemma MayDrop(read: World, before: World, w: World, version: nat)
    requires Later(read, before) && Unwritten(before, w) && Accepts(w, Drop, version)
    requires read.user.Some? && read.user.value.deleting
    ensures Promised(w, Drop)
  {
    hide Inv;
    LaterTransitive(read, before, w);
  }

  /** After an accepted write the draft stands at the new object. */
  lemma UpdatedWorking(before: World, w: World, start: World, d: User, s: Status)
    requires Working(before, start, d) && Unwritten(before, w)
    requires Accepts(w, Write(s), d.version) && Promised(w, Write(s))
    ensures var w', u := Do(w, Write(s)), d.(version := w.next, status := s);
            w'.user == Some(u) && Working(w', w', u) && w'.spec == start.spec
  {
    hide Spaced, MayFollow, PromisedStatus;
    StillWorking(before, w, start, d);
    WrittenWorking(w, s, d.(version := w.next, status := s));
  }

  lemma SameSpec(w: World, start: World, d: User)
    requires Working(w, start, d)
    ensures !w.respecified ==> w.spec == start.spec
  {
  }

  lemma GeneratedStored(w: World, spec: Spec)
    requires spec.password.Some? && spec.password.value.secretRef.None?
    ensures HasGenerated(w) ==> StoredBy(w, spec).Some?
  {
  }

  lemma NotDueStored(w: World, start: World, d: User, p: PasswordSpec)
    requires Working(w, start, d) && start.user == Some(d)
    requires !ShouldRotate(p, d.status.lastChange, w.clock)
    ensures !w.meddled ==> HasGenerated(w)
  {
    hide Inv, Later, HasGenerated;
    if !w.meddled { RecordedStored(w, start, d); }
  }

  lemma MayStore(seen: World, before: World, w: World, q: Request, version: nat)
    requires Later(seen, before) && Unwritten(before, w) && Accepts(w, q, version)
    requires !before.respecified ==> MayGenerate(before)
    requires match q
             case CreateSecret(name, data) => name == GeneratedSecret(before.name) && "password" in data
             case UpdateSecret(name, data) =>
               && name == GeneratedSecret(before.name) && "password" in data && name in seen.secrets
               && version == seen.secrets[name].version
               && version < seen.next && seen.secrets[name].data.Keys <= data.Keys
             case _ => false
    ensures Promised(w, q)
  {
    LaterTransitive(seen, before, w);
    if !w.respecified { StillDue(before, w); }
  }

  lemma StillDue(w: World, w': World)
    requires !w'.respecified && MayGenerate(w) && Unwritten(w, w')
    ensures MayGenerate(w')
  {
    hide Spaced, MayFollow;
  }

  lemma PutLater(before: World, w: World, q: Request)
    requires Unwritten(before, w) && (q.CreateSecret? || q.UpdateSecret?) && Promised(w, q)
    ensures Later(before, Do(w, q))
  {
    ControllerKeeps(w, q);
    LaterTransitive(before, w, Do(w, q));
  }

  /** The user object as the reconciler holds it in memory. */
  class Draft {
    const spec: Spec
    var version: nat
    var finalizer: bool
    var deleting: bool
    var phase: Phase
    var lastChange: Option<int>
    var reports: seq<InstanceReport>

    constructor (u: User, spec: Spec)
      ensures Value() == u && this.spec == spec
    {
      this.spec := spec;
      version, finalizer, deleting := u.version, u.finalizer, u.deleting;
      phase, lastChange, reports := u.status.phase, u.status.lastChange, u.status.reports;
    }

    function Value(): User
      reads this
    {
      User(version, finalizer, deleting, Status(phase, lastChange, reports))
    }
  }

  class Reconciler {
    const fleet: Fleet
    var log: seq<World>
    var script: seq<Event>

    constructor (fleet: Fleet, log: seq<World>, script: seq<Event>)
      requires log != [] && Run(log)
      ensures Valid() && this.fleet == fleet && this.log == log && this.script == script
    {
      this.fleet, this.log, this.script := fleet, log, script;
    }

    ghost predicate Valid()
      reads this
    {
      log != [] && Run(log)
    }

    function Now(): World
      reads this
      requires log != []
    {
      log[|log| - 1]
    }

    /** The environment's turn before a request. */
    method Tick() returns (lag: nat, fate: Fate)
      requires Valid()
      modifies this
      ensures Valid() && old(log) <= log && Unwritten(old(Now()), Now())
      ensures if old(script) == [] then script == [] && log == old(log) && lag == 0 && fate == Served
              else script == old(script)[1..] && lag == old(script)[0].lag && fate == old(script)[0].fate
    {
      hide Later, Run;
      RunInv(log, |log| - 1);
      LaterSelf(Now());
      if script == [] { return 0, Served; }
      var e := script[0];
      script := script[1..];
      for i := 0 to |e.env|
        invariant Valid() && old(log) <= log && Unwritten(old(Now()), Now()) && script == old(script)[1..]
      {
        EnvUnwritten(Now(), e.env[i]);
        UnwrittenTransitive(old(Now()), Now(), Env(Now(), e.env[i]));
        RunGrows(log, Env(Now(), e.env[i]));
        log := log + [Env(Now(), e.env[i])];
      }
      return e.lag, e.fate;
    }

    /** Whether the next request is a read that is served, and served from a current cache. */
    predicate Prompt()
      reads this
    {
      script == [] || (script[0].lag == 0 && script[0].fate == Served)
    }

    /** Waits for the environment's turn and picks the world a cached read sees. */
    method ReadWorld() returns (r: Outcome, seen: World)
      requires Valid()
      modifies this
      ensures Valid() && old(log) <= log && Unwritten(old(Now()), Now())
      ensures Inv(seen) && Later(seen, Now())
      ensures old(Prompt()) ==> r == Finished && seen == Now()
      ensures old(script) == [] ==> script == [] && log == old(log)
    {
      var lag, fate := Tick();
      var k := if lag < |log| then |log| - 1 - lag else 0;
      RunInv(log, k);
      RunLater(log, k, |log| - 1);
      r := if fate == Served then Finished else if fate == Crash then Died else Errored;
      seen := log[k];
    }

    /** Sends a request whose promise holds wherever the environment may have gone.
        `mid` is the world it meets, `took` whether it takes effect there. */
    method Submit(q: Request, v: nat) returns (r: Outcome, ghost mid: World, ghost took: bool)
      requires Valid()
      requires forall w :: Unwritten(Now(), w) && Accepts(w, q, v) ==> Promised(w, q)
      modifies this
      ensures Valid() && old(log) <= log && Unwritten(old(Now()), mid)
      ensures took ==> Accepts(mid, q, v) && Promised(mid, q)
      ensures Now() == if took then Do(mid, q) else mid
      ensures r == Finished ==> took
      ensures old(script) == [] ==>
                script == [] && mid == old(Now()) && took == Accepts(mid, q, v)
                && r == (if took then Finished else Errored)
                && log == if took then old(log) + [Now()] else old(log)
    {
      hide Unwritten, Promised, Env, Do;
      var _, fate := Tick();
      var w := Now();
      mid := w;
      if fate == Crash { return Died, mid, false; }
      var ok := Accepts(w, q, v);
      took := Applied(fate) && ok;
      if Applied(fate) && ok {
        RunGrows(log, Do(w, q));
        log := log + [Do(w, q)];
      }
      r := if fate == Served && ok then Finished else Errored;
    }

    // ---- The reconciler ----

    /** `random` is what the password generator would give. */
    method Reconcile(random: Option<string>) returns (r: Outcome)
      requires Valid()
      modifies this, fleet
      ensures Valid() && old(log) <= log
      ensures old(script) == [] ==>
                script == [] && PassEnd(Now(), fleet.servers, r) == QuietPass(old(Now()), old(fleet.servers), random)
      ensures old(script) == [] && Live(old(Now())) ==> old(log) + [Persist(old(Now()), FAILED)] <= log
    {
      hide Run, Later, Inv, LivePass, DeletingPass, Unwritten, Persist;
      ghost var w0 := Now();
      var read, seen := ReadWorld();
      if read != Finished { return read; }
      if seen.user.None? { return Finished; }
      var d := new Draft(seen.user.value, seen.spec);

      if !d.finalizer {
        r := AddsFinalizer(d, seen);
      } else if d.deleting {
        r := HandleDeletion(d, seen);
      } else {
        StartWorking(Now(), seen, d.Value());
        r := ReconcileLive(d, seen, random);
      }
    }

    method AddsFinalizer(d: Draft, ghost read: World) returns (r: Outcome)
      requires Valid() && Inv(read) && Later(read, Now()) && read.user == Some(d.Value()) && !d.finalizer
      modifies this, d
      ensures Valid() && old(log) <= log
      ensures old(script) == [] && read == old(Now()) ==>
                script == [] && r == Finished && Now() == Do(old(Now()), AddFinalizer)
    {
      hide Run, Spaced;
      forall w | Unwritten(Now(), w) && Accepts(w, AddFinalizer, d.version) ensures Promised(w, AddFinalizer) {
        LaterTransitive(read, Now(), w);
        SameUser(w, read, d.version);
      }
      d.finalizer := true;
      var sent, _, _ := Submit(AddFinalizer, d.version);
      r := sent;
    }

    /** A pass over a user that is not being deleted. The failure it writes first is written
        on every pass, whether the cluster was found or not. */
    method ReconcileLive(d: Draft, ghost read: World, random: Option<string>) returns (r: Outcome)
      requires Valid() && Working(Now(), read, d.Value()) && read.user == Some(d.Value()) && read.spec == d.spec
      modifies this, fleet, d
      ensures Valid() && old(log) <= log
      ensures old(script) == [] && read == old(Now()) ==>
                script == [] && PassEnd(Now(), fleet.servers, r) == LivePass(old(Now()), old(fleet.servers), random)
                && old(log) + [Persist(old(Now()), FAILED)] <= log
    {
      hide Run, Later, Inv, Unwritten, Working, Targets, Persist, TargetedPass;
      ghost var w0, value := Now(), d.Value();
      var got, cw := ReadWorld();
      StillWorking(w0, Now(), read, value);
      if got == Died { return Died; }
      var cluster := if got == Finished then cw.cluster else None;
      var selector := d.spec.selector;

      ghost var start;
      r, start := UpdateStatus(d, FAILED, read);
      if r != Finished { return; }

      var targets := SelectTargets(cluster, selector);
      if targets.None? { return Died; }
      if targets.value.Err? {
        r := Fail(d, start);
        return;
      }

      r := ReconcileTargets(d, start, cluster, targets.value.value, random);
    }

    /** The target instances; none if a cluster that was not found is dereferenced, which an
        invalid label selector prevents. */
    method SelectTargets(cluster: Option<seq<InstanceStatus>>, selector: Option<Selector>)
      returns (targets: Option<Result<seq<string>>>)
      ensures targets == Targets(cluster, selector)
    {
      if cluster.Some? {
        var selected := SelectForUser(cluster.value, selector);
        return Some(selected);
      }
      if selector.None? { return None; }
      var sel := selector.value;
      if |sel.names| > 0 { return Some(Ok(sel.names)); }
      if sel.role == "" && sel.labels.Some? && !ValidSelector(sel.labels.value) { return Some(Err); }
      return None;
    }

    method ReconcileTargets(d: Draft, ghost start: World, cluster: Option<seq<InstanceStatus>>, targets: seq<string>,
                            random: Option<string>) returns (r: Outcome)
      requires Valid() && Working(Now(), start, d.Value()) && start.user == Some(d.Value()) && start.user == Now().user
      requires start.spec == d.spec
      modifies this, fleet, d
      ensures Valid() && old(log) <= log
      ensures old(script) == [] && old(Now()).user == Some(old(d.Value())) && cluster == old(Now()).cluster
              && old(Now()).spec == d.spec ==>
                script == [] &&
                PassEnd(Now(), fleet.servers, r) == TargetedPass(old(Now()), old(fleet.servers), targets, random)
    {
      hide Run, Later, Inv, Unwritten, Working, PreparePassword, Persist, Configured;
      r := ReconcilePasswordSecret(d, start, random);
      if r == Died { return; }
      if r == Errored {
        r := Fail(d, start);
        return;
      }
      r := ConfigureUser(d, start, cluster, targets);
    }

    /** The user object is the draft's, but for a rotation that has just taken place. */
    predicate Current(d: User)
      reads this
      requires log != []
    {
      Now().user.Some? && Now().user.value == d.(status := d.status.(lastChange := Now().user.value.status.lastChange))
    }

    /** Writes a status over the draft's, keeping fields that are not set. */
    method UpdateStatus(d: Draft, s: Status, ghost start: World) returns (r: Outcome, ghost at: World)
      requires Valid() && Working(Now(), start, d.Value())
      requires s.lastChange in {None, d.lastChange}
      modifies this, d
      ensures Valid() && old(log) <= log
      ensures r == Finished ==>
                Working(Now(), at, d.Value()) && at == Now() && at.user == Some(d.Value()) && at.spec == start.spec
                && d.Value().status == Merged(old(d.Value().status), s)
      ensures old(script) == [] && old(Current(d.Value()))
              && (old(d.lastChange) == old(Now()).user.value.status.lastChange
                  || (s.lastChange.Some? && s.lastChange == old(d.lastChange))) ==>
                script == [] && r == Finished && log == old(log) + [Persist(old(Now()), s)]
                && Now().user == Some(d.Value())
    {
      hide Run, Later, Inv, Unwritten, Working, PromisedStatus;
      ghost var before, value := Now(), d.Value();
      var merged := s;
      if |merged.reports| == 0 && |d.reports| > 0 { merged := merged.(reports := d.reports); }
      if merged.lastChange.None? && d.lastChange.Some? { merged := merged.(lastChange := d.lastChange); }
      assert merged == Merged(value.status, s) && merged.lastChange == d.lastChange;
      MergedKeeps(value.status, s);
      r, at := SendStatus(d, merged, start);
    }

    /** Writes a status that keeps the draft's fields. */
    method SendStatus(d: Draft, s: Status, ghost start: World) returns (r: Outcome, ghost at: World)
      requires Valid() && Working(Now(), start, d.Value())
      requires KeepsFields(d.Value().status, s) && s.lastChange == d.lastChange
      modifies this, d
      ensures Valid() && old(log) <= log
      ensures r == Finished ==>
                Working(Now(), at, d.Value()) && at == Now() && at.user == Some(d.Value()) && at.spec == start.spec
                && d.Value().status == s
      ensures old(script) == [] && old(Now()).user.Some? && old(Now()).user.value.version == old(d.version) ==>
                script == [] && r == Finished && log == old(log) + [Do(old(Now()), Write(s))]
                && Now().user == Some(d.Value())
    {
      hide Run, Later, Inv, Unwritten, Working, Promised, KeepsFields, WriteStatus;
      ghost var before, value := Now(), d.Value();
      forall w | Unwritten(before, w) && Accepts(w, Write(s), d.version) ensures Promised(w, Write(s)) {
        StillWorking(before, w, start, value);
        MayWrite(w, start, value, s);
      }
      d.phase, d.lastChange, d.reports := s.phase, s.lastChange, s.reports;
      ghost var mid, took;
      r, mid, took := Submit(Write(s), d.version);
      at := Now();
      if r == Finished {
        UpdatedWorking(before, mid, start, value, s);
        d.version := Now().user.value.version;
      }
    }

    /** Writes a failure and passes the error on. */
    method Fail(d: Draft, ghost start: World) returns (r: Outcome)
      requires Valid() && Working(Now(), start, d.Value())
      modifies this, d
      ensures Valid() && old(log) <= log && (r == Errored || r == Died)
      ensures old(script) == [] && old(Now()).user == Some(old(d.Value())) ==>
                script == [] && r == Errored && log == old(log) + [Persist(old(Now()), FAILED)]
    {
      hide Run, Working;
      var wrote, _ := UpdateStatus(d, FAILED, start);
      r := if wrote == Finished then Errored else wrote;
    }

    method ReconcilePasswordSecret(d: Draft, ghost start: World, random: Option<string>) returns (r: Outcome)
      requires Valid() && Working(Now(), start, d.Value()) && start.user == Some(d.Value()) && start.user == Now().user
      requires start.spec == d.spec
      modifies this, d`lastChange
      ensures Valid() && old(log) <= log
      ensures r != Died ==> Working(Now(), start, d.Value())
      ensures r != Finished ==> d.Value() == old(d.Value())
      ensures r == Finished && !Now().meddled ==> StoredBy(Now(), d.spec).Some?
      ensures old(script) == [] && old(Now()).spec == d.spec ==>
                script == [] && Prepared(Now(), d.lastChange, r)
                    == PreparePassword(old(Now()), old(d.lastChange), random)
    {
      hide Run, Later, Inv, Unwritten, Working, ShouldRotate, HasGenerated;
      var spec := d.spec.password;
      if spec.None? { return Errored; }
      var p := spec.value;
      if p.secretRef.Some? {
        r := CheckReferenced(d, start);
        return;
      }
      if !p.generate { return Errored; }
      if !ShouldRotate(p, d.lastChange, Now().clock) {
        NotDueStored(Now(), start, d.Value(), p);
        GeneratedStored(Now(), d.spec);
        return Finished;
      }
      if random.None? { return Errored; }
      assert !Now().respecified ==> MayGenerate(Now()) by { SameSpec(Now(), start, d.Value()); }
      r := Rotate(d, start, random.value, Now().clock);
      GeneratedStored(Now(), d.spec);
    }

    /** Checks that the referenced Secret has its key. */
    method CheckReferenced(d: Draft, ghost start: World) returns (r: Outcome)
      requires Valid() && Working(Now(), start, d.Value()) && d.spec.password.Some?
      modifies this
      ensures Valid() && old(log) <= log
      ensures r != Died ==> Working(Now(), start, d.Value())
      ensures r == Finished && !Now().meddled ==> StoredBy(Now(), d.spec).Some?
      ensures old(script) == [] ==>
                script == [] && log == old(log) && r == if StoredBy(Now(), d.spec).Some? then Finished else Errored
    {
      ghost var before := Now();
      var seen;
      r, seen := ReadWorld();
      StillWorking(before, Now(), start, d.Value());
      if r != Finished { return; }
      if StoredBy(seen, d.spec).None? { return Errored; }
      if !Now().meddled { StillStored(seen, Now()); }
    }

    /** Stores a new password, then takes the time; `due` is when rotation was found due. */
    method Rotate(d: Draft, ghost start: World, password: string, ghost due: nat) returns (r: Outcome)
      requires Valid() && Working(Now(), start, d.Value()) && start.user == Some(d.Value())
      requires start.spec == d.spec && (!Now().respecified ==> MayGenerate(Now()))
      requires d.spec.password.Some? && ShouldRotate(d.spec.password.value, d.lastChange, due) && due <= Now().clock
      modifies this, d`lastChange
      ensures Valid() && old(log) <= log
      ensures r != Died ==> Working(Now(), start, d.Value())
      ensures r != Finished ==> d.lastChange == old(d.lastChange)
      ensures r == Finished && !Now().meddled ==> HasGenerated(Now())
      ensures old(script) == [] ==>
                script == [] && Prepared(Now(), d.lastChange, r) == Generated(old(Now()), old(d.lastChange), password)
    {
      hide Run, Inv, Unwritten, Working, ShouldRotate, HasGenerated;
      r := PutPassword(d, start, password);
      if r == Finished {
        RotationRecorded(Now(), start, d.Value(), d.spec, due, Some(Seconds(Now().clock)));
        d.lastChange := Some(Seconds(Now().clock));
      }
    }

    /** Reads the generated Secret and creates it, or sets its password and updates it. */
    method PutPassword(d: Draft, ghost start: World, password: string) returns (r: Outcome)
      requires Valid() && Working(Now(), start, d.Value()) && (!Now().respecified ==> MayGenerate(Now()))
      modifies this
      ensures Valid() && old(log) <= log && Later(old(Now()), Now())
      ensures r != Died ==> Working(Now(), start, d.Value())
      ensures r == Finished && !Now().meddled ==> HasGenerated(Now())
      ensures old(script) == [] ==>
                script == [] && Now().clock == old(Now()).clock
                && (Now(), r) == (Generated(old(Now()), None, password).world, Generated(old(Now()), None, password).r)
    {
      hide Run, Inv, Later, Unwritten, Working, Promised, HasGenerated;
      ghost var before := Now();
      var got, seen := ReadWorld();
      StillWorking(before, Now(), start, d.Value());
      UnwrittenLater(before, Now());
      if !Now().respecified { StillDue(before, Now()); }
      if got != Finished { return got; }
      ghost var middle := Now();
      var name := GeneratedSecret(Now().name);
      if name !in seen.secrets {
        r := Store(d, start, CreateSecret(name, map["password" := password]), 0, seen);
        LaterTransitive(before, middle, Now());
      } else {
        var secret := seen.secrets[name];
        if secret.data == map[] { return Died; } // assignment to an entry of a nil map
        if "password" in secret.data && secret.data["password"] == password {
          UnchangedPassword(seen, Now());
          return Finished;
        }
        SecretVersion(seen, name);
        r := Store(d, start, UpdateSecret(name, secret.data["password" := password]), secret.version, seen);
        LaterTransitive(before, middle, Now());
      }
    }

    /** Sends a write of the generated Secret, computed from what was read at `seen`. */
    method Store(d: Draft, ghost start: World, q: Request, version: nat, ghost seen: World) returns (r: Outcome)
      requires Valid() && Working(Now(), start, d.Value()) && Later(seen, Now())
      requires !Now().respecified ==> MayGenerate(Now())
      requires var name := GeneratedSecret(Now().name);
               match q
               case CreateSecret(n, data) => n == name && "password" in data
               case UpdateSecret(n, data) =>
                 && n == name && "password" in data && name in seen.secrets && version == seen.secrets[name].version
                 && version < seen.next && seen.secrets[name].data.Keys <= data.Keys
               case _ => false
      modifies this
      ensures Valid() && old(log) <= log && Later(old(Now()), Now())
      ensures r != Died ==> Working(Now(), start, d.Value())
      ensures r == Finished ==> HasGenerated(Now())
      ensures old(script) == [] ==>
                script == [] && if Accepts(old(Now()), q, version) then r == Finished && Now() == Do(old(Now()), q)
                                else r == Errored && Now() == old(Now())
    {
      hide Run, Inv, Working, Spaced;
      ghost var before := Now();
      forall w | Unwritten(before, w) && Accepts(w, q, version) ensures Promised(w, q) {
        MayStore(seen, before, w, q, version);
      }
      ghost var mid, took;
      r, mid, took := Submit(q, version);
      StillWorking(before, mid, start, d.Value());
      if took {
        StoredWorking(mid, start, d.Value(), q);
        PutLater(before, mid, q);
      }
    }

    /** Reads the password where it is stored. */
    method GetPassword(spec: Spec) returns (r: Outcome, password: string)
      requires Valid()
      modifies this
      ensures Valid() && old(log) <= log && Unwritten(old(Now()), Now())
      ensures old(Prompt()) && !Now().meddled && StoredBy(old(Now()), spec).Some? ==>
                r == Finished && StoredBy(Now(), spec) == Some(password)
      ensures old(script) == [] ==>
                script == [] && log == old(log) && r == (if StoredBy(Now(), spec).Some? then Finished else Errored)
                && (r == Finished ==> StoredBy(Now(), spec) == Some(password))
    {
      password := "";
      ghost var before := Now();
      var seen;
      r, seen := ReadWorld();
      if r != Finished { return; }
      if !Now().meddled { StillStored(before, Now()); }
      var found := StoredBy(seen, spec);
      if found.None? { return Errored, password; }
      password := found.value;
    }

    /** Configures the user on its instances and records how that went. Even under faults it
        finishes only with a persisted Ready whose reports are those of a loop without error. */
    method ConfigureUser(d: Draft, ghost start: World, cluster: Option<seq<InstanceStatus>>, targets: seq<string>)
      returns (r: Outcome)
      requires Valid() && Working(Now(), start, d.Value())
      modifies this, fleet, d
      ensures Valid() && old(log) <= log
      ensures r == Finished ==>
                exists password ::
                  var fan := FanOut(old(fleet.servers), targets, d.spec.wish, password);
                  && fan.r == Finished && fleet.servers == fan.servers
                  && Now().user.Some? && Now().user.value.status.phase == Ready
                  && (targets != [] ==> Now().user.value.status.reports == fan.reports)
      ensures old(script) == [] && old(Current(d.Value())) && cluster == old(Now()).cluster && old(Now()).spec == d.spec
              && (old(d.lastChange) == old(Now()).user.value.status.lastChange || old(d.lastChange).Some?) ==>
                script == [] && PassEnd(Now(), fleet.servers, r)
                                == Configured(Prepared(old(Now()), old(d.lastChange), Finished),
                                              old(fleet.servers), targets)
    {
      hide Run, Later, Inv, Unwritten, Working, FanOut, Persist, StoredBy;
      ghost var before := Now();
      var got, password := GetPassword(d.spec);
      StillWorking(before, Now(), start, d.Value());
      if got == Died { return Died; }
      if got == Errored {
        var failed, _ := UpdateStatus(d, Status(Failed, d.lastChange, []), start);
        return if failed == Finished then Errored else failed;
      }
      if cluster.None? && targets != [] { return Died; } // the cluster is dereferenced
      ReportsInOrder(fleet.servers, targets, d.spec.wish, password);
      var fan, reports := ConfigureInstances(fleet, targets, d.spec.wish, password);
      if fan == Died { return Died; }
      var wrote, _ := UpdateStatus(d, Status(if fan == Finished then Ready else Failed, d.lastChange, reports), start);
      r := if wrote == Finished then fan else wrote;
    }

    /** Drops the user where it was ready, if the cluster can be read, then removes the finalizer. */
    method HandleDeletion(d: Draft, ghost read: World) returns (r: Outcome)
      requires Valid() && Inv(read) && Later(read, Now()) && read.user == Some(d.Value()) && d.deleting
      requires read.spec == d.spec
      modifies this, fleet, d
      ensures Valid() && old(log) <= log
      ensures old(script) == [] && read == old(Now()) ==>
                script == [] && PassEnd(Now(), fleet.servers, r) == DeletingPass(old(Now()), old(fleet.servers))
    {
      assert d.reports == [] ==>
               DropEach(fleet.servers, d.reports, d.spec.wish.user) == Dropped(fleet.servers, Finished);
      hide Run, Inv, Later, DropEach;
      ghost var w0 := Now();
      if d.phase == Ready {
        var got, cw := ReadWorld();
        assert Later(read, Now()) by { ReadLater(read, w0, Now()); }
        if got == Died { return Died; }
        if got == Finished && cw.cluster.Some? && |d.reports| > 0 {
          var dropped := DropUsers(fleet, d.reports, d.spec.wish.user);
          if dropped == Died { return Died; }
        }
      }
      r := DropFinalizer(d, read);
    }

    method DropFinalizer(d: Draft, ghost read: World) returns (r: Outcome)
      requires Valid() && Later(read, Now()) && read.user.Some? && read.user.value.deleting
      modifies this, d
      ensures Valid() && old(log) <= log
      ensures old(script) == [] && old(Now()).user.Some? && old(Now()).user.value.version == old(d.version) ==>
                script == [] && r == Finished && Now() == Do(old(Now()), Drop)
    {
      hide Run, Inv, Later, Unwritten, Promised;
      ghost var before := Now();
      forall w | Unwritten(before, w) && Accepts(w, Drop, d.version) ensures Promised(w, Drop) {
        MayDrop(read, before, w, d.version);
      }
      d.finalizer := false;
      var sent, _, _ := Submit(Drop, d.version);
      r := sent;
    }
  }
}
