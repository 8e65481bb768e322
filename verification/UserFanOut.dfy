/** The loop over a user's target instances (reconcileUserOnInstances in
    controllers/postgresuser_controller.go): a failure on one instance does not touch another. */
module UserFanOut {
  import opened Types
  import opened PostgresClient

  /** What the operator wants of a role. */
  datatype Wish = Wish(user: string, privileges: seq<string>, limit: int)

  datatype InstanceReport = InstanceReport(name: string, ready: bool)

  /** How the loop ends: `Errored` if some instance failed, `Died` if it was cut short. */
  datatype End = End(servers: map<string, Server>, reports: seq<InstanceReport>, r: Outcome)

  /** One instance: connect, write the user, write the limit if there is one. */
  function Configure(s: Server, wish: Wish, password: string): Step {
    var connected := Ask(s);
    if connected.r != Finished then connected
    else
      var written := UserWritten(connected.server, wish.user, password, wish.privileges);
      if written.r != Finished || wish.limit < 0 then written
      else LimitWritten(written.server, wish.user, wish.limit)
  }

  /** What one more target adds to the end so far. */
  function Then(before: End, target: string, wish: Wish, password: string): End {
    if before.r == Died then before
    else if target !in before.servers then End(before.servers, before.reports + [InstanceReport(target, false)],
             Errored)
    else
      var step := Configure(before.servers[target], wish, password);
      var servers := before.servers[target := step.server];
      if step.r == Died then End(servers, before.reports, Died)
      else End(servers, before.reports + [InstanceReport(target, step.r == Finished)],
               if step.r == Errored then Errored else before.r)
  }

  function FanOut(servers: map<string, Server>, targets: seq<string>, wish: Wish, password: string): End {
    if targets == [] then End(servers, [], Finished)
    else Then(FanOut(servers, targets[..|targets| - 1], wish, password), targets[|targets| - 1], wish, password)
  }

  method ConfigureInstance(fleet: Fleet, instance: string, wish: Wish, password: string) returns (r: Outcome)
    modifies fleet
    ensures instance !in old(fleet.servers) ==> r == Errored && fleet.servers == old(fleet.servers)
    ensures instance in old(fleet.servers) ==>
              var step := Configure(old(fleet.servers[instance]), wish, password);
              r == step.r && fleet.servers == old(fleet.servers)[instance := step.server]
  {
    hide UserWritten, LimitWritten, Ask;
    var client;
    r, client := NewClientForInstance(fleet, instance);
    if r != Finished { return; }
    var c := client.value;
    r := c.CreateOrUpdateUser(wish.user, password, wish.privileges);
    if r != Finished { return; }
    if wish.limit >= 0 {
      r := c.SetConnectionLimit(wish.user, wish.limit);
    }
  }

  /** Goes on after an instance that fails. */
  method ConfigureInstances(fleet: Fleet, targets: seq<string>, wish: Wish, password: string)
    returns (r: Outcome, reports: seq<InstanceReport>)
    modifies fleet
    ensures End(fleet.servers, reports, r) == FanOut(old(fleet.servers), targets, wish, password)
  {
    hide Configure;
    r, reports := Finished, [];
    for i := 0 to |targets|
      invariant r != Died
      invariant End(fleet.servers, reports, r) == FanOut(old(fleet.servers), targets[..i], wish, password)
    {
      assert targets[..i + 1][..i] == targets[..i];
      var one := ConfigureInstance(fleet, targets[i], wish, password);
      if one == Died {
        DiesEarly(old(fleet.servers), targets, i + 1, wish, password);
        return Died, reports;
      }
      reports := reports + [InstanceReport(targets[i], one == Finished)];
      if one == Errored { r := Errored; }
    }
    assert targets[..|targets|] == targets;
  }

  lemma {:induction false} DiesEarly(servers: map<string, Server>, targets: seq<string>, i: nat,
                                    wish: Wish, password: string)
    requires i <= |targets| && FanOut(servers, targets[..i], wish, password).r == Died
    ensures FanOut(servers, targets, wish, password) == FanOut(servers, targets[..i], wish, password)
    decreases |targets|
  {
    var n := |targets| - 1;
    if i > n { assert targets[..i] == targets; } else {
      assert targets[..n][..i] == targets[..i];
      DiesEarly(servers, targets[..n], i, wish, password);
    }
  }

  // ---- What the loop guarantees ----

  /** One report per target, in order, up to where the operator died; no error exactly if
      every instance is ready. */
  ghost predicate InOrder(end: End, targets: seq<string>) {
    && |end.reports| <= |targets| && (end.r != Died ==> |end.reports| == |targets|)
    && (forall i | 0 <= i < |end.reports| :: end.reports[i].name == targets[i])
    && (end.r != Died ==> (end.r == Finished <==> forall i | 0 <= i < |end.reports| :: end.reports[i].ready))
  }

  lemma ThenInOrder(before: End, targets: seq<string>, wish: Wish, password: string)
    requires targets != [] && InOrder(before, targets[..|targets| - 1])
    ensures InOrder(Then(before, targets[|targets| - 1], wish, password), targets)
    ensures Then(before, targets[|targets| - 1], wish, password).servers.Keys == before.servers.Keys
  {
    hide Configure;
    var end := Then(before, targets[|targets| - 1], wish, password);
    if end.r == Finished {
      assert forall i | 0 <= i < |end.reports| :: end.reports[i].ready;
    } else if end.r == Errored && before.r == Finished {
      assert !end.reports[|before.reports|].ready;
    } else if end.r == Errored {
      var k :| 0 <= k < |before.reports| && !before.reports[k].ready;
      assert !end.reports[k].ready;
    }
  }

  lemma {:induction false} ReportsInOrder(servers: map<string, Server>, targets: seq<string>,
                                         wish: Wish, password: string)
    ensures var end := FanOut(servers, targets, wish, password);
            InOrder(end, targets) && end.servers.Keys == servers.Keys
  {
    if targets != [] {
      hide Configure, Then, InOrder;
      ReportsInOrder(servers, targets[..|targets| - 1], wish, password);
      ThenInOrder(FanOut(servers, targets[..|targets| - 1], wish, password), targets, wish, password);
    }
  }

  /** What the loop does to one instance, told from that instance alone. */
  predicate Alone(before: map<string, Server>, end: End, i: nat, target: string, wish: Wish, password: string)
    requires i < |end.reports|
  {
    if target !in before then !end.reports[i].ready
    else
      var step := Configure(before[target], wish, password);
      && target in end.servers && end.servers[target] == step.server
      && (end.reports[i].ready <==> step.r == Finished)
  }

  predicate SameServer(a: map<string, Server>, b: map<string, Server>, t: string) {
    (t in a <==> t in b) && (t in a ==> b[t] == a[t])
  }

  lemma ThenAlone(servers: map<string, Server>, before: End, target: string, wish: Wish, password: string)
    requires SameServer(servers, before.servers, target)
    ensures var end := Then(before, target, wish, password);
            |end.reports| > |before.reports| ==> Alone(servers, end, |before.reports|, target, wish, password)
  {
    hide Configure;
  }

  lemma ThenOthers(servers: map<string, Server>, before: End, target: string, wish: Wish, password: string,
                   i: nat, t: string)
    requires t != target && i < |before.reports| && Alone(servers, before, i, t, wish, password)
    ensures var end := Then(before, target, wish, password);
            i < |end.reports| && Alone(servers, end, i, t, wish, password)
  {
    hide Configure;
  }

  lemma ThenSame(servers: map<string, Server>, before: End, target: string, wish: Wish, password: string, t: string)
    requires t != target && SameServer(servers, before.servers, t)
    ensures SameServer(servers, Then(before, target, wish, password).servers, t)
  {
    hide Configure;
  }

  /** With distinct targets each instance's outcome depends only on its own server and the
      fates of its own calls, whatever failed elsewhere; other instances are untouched. */
  lemma {:induction false} Isolation(servers: map<string, Server>, targets: seq<string>, wish: Wish, password: string)
    requires Distinct(targets)
    ensures var end := FanOut(servers, targets, wish, password);
            && |end.reports| <= |targets|
            && (forall i | 0 <= i < |end.reports| :: Alone(servers, end, i, targets[i], wish, password))
            && (forall t | t !in targets :: SameServer(servers, end.servers, t))
  {
    if targets != [] {
      hide Configure, Alone, Then, SameServer, InOrder;
      var n := |targets| - 1;
      var target := targets[n];
      Isolation(servers, targets[..n], wish, password);
      Counts(servers, targets, wish, password);
      var before := FanOut(servers, targets[..n], wish, password);
      hide FanOut, Distinct;
      assert target !in targets[..n] by { LastDiffers(targets); }
      assert forall i | 0 <= i < |before.reports| :: targets[..n][i] == targets[i];
      OneMoreAlone(servers, before, targets, wish, password);
    }
  }

  lemma LastDiffers(targets: seq<string>)
    requires targets != [] && Distinct(targets)
    ensures targets[|targets| - 1] !in targets[..|targets| - 1]
  {
  }

  lemma OneMoreAlone(servers: map<string, Server>, before: End, targets: seq<string>, wish: Wish, password: string)
    requires targets != [] && |before.reports| <= |targets| - 1
    requires targets[|targets| - 1] !in targets[..|targets| - 1]
    requires forall i | 0 <= i < |before.reports| :: Alone(servers, before, i, targets[i], wish, password)
    requires forall t | t !in targets[..|targets| - 1] :: SameServer(servers, before.servers, t)
    requires var end := Then(before, targets[|targets| - 1], wish, password);
             |end.reports| > |before.reports| ==> |before.reports| == |targets| - 1 == |end.reports| - 1
    ensures var end := Then(before, targets[|targets| - 1], wish, password);
            && (forall i | 0 <= i < |end.reports| && i < |targets| ::
                  Alone(servers, end, i, targets[i], wish, password))
            && (forall t | t !in targets :: SameServer(servers, end.servers, t))
  {
    hide Configure, Alone, Then, SameServer;
    var n := |targets| - 1;
    var end := Then(before, targets[n], wish, password);
    forall i | 0 <= i < |end.reports| && i < |targets| ensures Alone(servers, end, i, targets[i], wish, password) {
      if i < |before.reports| {
        assert targets[i] == targets[..n][i];
        ThenOthers(servers, before, targets[n], wish, password, i, targets[i]);
      } else {
        ThenAlone(servers, before, targets[n], wish, password);
      }
    }
    forall t | t !in targets ensures SameServer(servers, end.servers, t) {
      assert t !in targets[..n];
      ThenSame(servers, before, targets[n], wish, password, t);
    }
  }

  lemma Counts(servers: map<string, Server>, targets: seq<string>, wish: Wish, password: string)
    requires targets != []
    ensures var n := |targets| - 1;
            var before := FanOut(servers, targets[..n], wish, password);
            var end := Then(before, targets[n], wish, password);
            && |before.reports| <= |end.reports| <= |targets| && |end.reports| <= |before.reports| + 1
            && (|end.reports| > |before.reports| ==> |before.reports| == n)
  {
    hide Configure, FanOut;
    var n := |targets| - 1;
    ReportsInOrder(servers, targets[..n], wish, password);
  }

  /** The role is as wished, with this password. */
  predicate Holds(roles: Table, wish: Wish, password: string) {
    && ListedAsUser(roles, wish.user) && roles[wish.user].password == password
    && (wish.limit >= 0 ==> roles[wish.user].limit == wish.limit)
    && forall p | p in wish.privileges :: p in roles[wish.user].granted
  }

  lemma ConfiguredHolds(s: Server, wish: Wish, password: string)
    requires Configure(s, wish, password).r == Finished
    ensures Holds(Configure(s, wish, password).server.roles, wish, password)
  {
    hide UserWritten;
    UserWrittenHolds(Ask(s).server, wish.user, password, wish.privileges);
  }

  /** A negative wish leaves an existing role's limit alone, and a new role has none; the role
      gains the privileges listed and no others. */
  lemma ConfiguredExactly(s: Server, wish: Wish, password: string)
    requires Configure(s, wish, password).r == Finished
    ensures var roles := Configure(s, wish, password).server.roles;
            && wish.user in roles
            && roles[wish.user].limit == (if wish.limit >= 0 then wish.limit
                                          else if wish.user in s.roles then s.roles[wish.user].limit else -1)
            && forall p :: p in roles[wish.user].granted
                           <==> p in wish.privileges || (wish.user in s.roles && p in s.roles[wish.user].granted)
  {
    hide UserWritten;
    UserWrittenHolds(Ask(s).server, wish.user, password, wish.privileges);
    AskKeepsRoles(s);
  }

  /** Every role of another name is as it was, even if the calls failed. */
  lemma ConfigureOthers(s: Server, wish: Wish, password: string, other: string)
    requires other != wish.user
    ensures SameRole(s.roles, Configure(s, wish, password).server.roles, other)
  {
    hide UserWritten;
    UserWrittenOthers(Ask(s).server, wish.user, password, wish.privileges, other);
  }

  /** On every instance reported ready the role holds the password and the limit. */
  lemma ReadyHolds(servers: map<string, Server>, targets: seq<string>, wish: Wish, password: string, i: nat)
    requires Distinct(targets) && i < |FanOut(servers, targets, wish, password).reports|
    requires FanOut(servers, targets, wish, password).reports[i].ready
    ensures i < |targets| && targets[i] in servers
    ensures var end := FanOut(servers, targets, wish, password);
            targets[i] in end.servers && Holds(end.servers[targets[i]].roles, wish, password)
  {
    hide Configure, FanOut, Holds;
    Isolation(servers, targets, wish, password);
    var end := FanOut(servers, targets, wish, password);
    assert Alone(servers, end, i, targets[i], wish, password);
    ConfiguredHolds(servers[targets[i]], wish, password);
  }

  /** Whether an instance without faults can take the user. */
  predicate Configurable(servers: map<string, Server>, target: string, wish: Wish, password: string) {
    && target in servers
    && wish.user != "" && password != ""
    && (wish.user in servers[target].roles ==> servers[target].roles[wish.user].login)
    && forall p | p in wish.privileges :: p in servers[target].grantable
  }

  lemma ConfigureQuiet(servers: map<string, Server>, target: string, wish: Wish, password: string)
    requires target in servers && servers[target].script == []
    ensures Configure(servers[target], wish, password).r == Finished <==> Configurable(servers, target, wish, password)
  {
    hide UserWritten;
    UserWrittenQuiet(servers[target], wish.user, password, wish.privileges);
    if UserWritten(servers[target], wish.user, password, wish.privileges).r == Finished {
      UserWrittenHolds(servers[target], wish.user, password, wish.privileges);
    }
  }

  /** Without faults the loop succeeds exactly if every target is configurable. */
  lemma FanOutQuiet(servers: map<string, Server>, targets: seq<string>, wish: Wish, password: string)
    requires Distinct(targets) && forall t | t in servers :: servers[t].script == []
    ensures var end := FanOut(servers, targets, wish, password);
            && end.r != Died
            && (end.r == Finished <==> forall t | t in targets :: Configurable(servers, t, wish, password))
  {
    hide Configure, Configurable;
    var end := FanOut(servers, targets, wish, password);
    NeverDies(servers, targets, wish, password);
    ReportsInOrder(servers, targets, wish, password);
    Isolation(servers, targets, wish, password);
    hide FanOut;
    forall i | 0 <= i < |targets| ensures end.reports[i].ready <==> Configurable(servers, targets[i], wish, password) {
      assert Alone(servers, end, i, targets[i], wish, password);
      if targets[i] in servers { ConfigureQuiet(servers, targets[i], wish, password); }
      else { NotThere(servers, targets[i], wish, password); }
    }
  }

  lemma NotThere(servers: map<string, Server>, target: string, wish: Wish, password: string)
    requires target !in servers
    ensures !Configurable(servers, target, wish, password)
  {
  }

  lemma ConfigureLives(s: Server, wish: Wish, password: string)
    requires s.script == []
    ensures Configure(s, wish, password).r != Died && Configure(s, wish, password).server.script == []
  {
    hide UserWritten;
    UserWrittenQuiet(s, wish.user, password, wish.privileges);
    UserWrittenLives(s, wish.user, password, wish.privileges);
  }

  lemma UserWrittenLives(s: Server, user: string, password: string, privileges: seq<string>)
    requires s.script == []
    ensures UserWritten(s, user, password, privileges).r != Died
  {
    var statement := if ListedAsUser(s.roles, user) then AlterPassword(user, password) else CreateUser(user, password);
    if user != "" && password != "" && Send(s, statement).r == Finished {
      GrantedQuiet(Send(s, statement).server, user, privileges);
    }
  }

  lemma {:induction false} NeverDies(servers: map<string, Server>, targets: seq<string>, wish: Wish, password: string)
    requires forall t | t in servers :: servers[t].script == []
    ensures var end := FanOut(servers, targets, wish, password);
            end.r != Died && forall t | t in end.servers :: end.servers[t].script == []
  {
    if targets != [] {
      hide Configure;
      var n := |targets| - 1;
      NeverDies(servers, targets[..n], wish, password);
      var before := FanOut(servers, targets[..n], wish, password);
      if targets[n] in before.servers { ConfigureLives(before.servers[targets[n]], wish, password); }
    }
  }

  // ---- Deletion ----

  /** `Died` if the operator died on the way; other failures are only logged. */
  datatype Dropped = Dropped(servers: map<string, Server>, r: Outcome)

  function DropOn(s: Server, user: string): Step {
    var connected := Ask(s);
    if connected.r != Finished then connected else UserDropped(connected.server, user)
  }

  /** Drops the user where it was reported ready. */
  function DropEach(servers: map<string, Server>, reports: seq<InstanceReport>, user: string): Dropped {
    if reports == [] then Dropped(servers, Finished)
    else
      var n := |reports| - 1;
      var before := DropEach(servers, reports[..n], user);
      var name := reports[n].name;
      if before.r == Died || !reports[n].ready || name !in before.servers then before
      else
        var step := DropOn(before.servers[name], user);
        Dropped(before.servers[name := step.server], if step.r == Died then Died else Finished)
  }

  method DropOne(fleet: Fleet, instance: string, user: string) returns (died: bool)
    modifies fleet
    ensures instance !in old(fleet.servers) ==> !died && fleet.servers == old(fleet.servers)
    ensures instance in old(fleet.servers) ==>
              var step := DropOn(old(fleet.servers[instance]), user);
              died == (step.r == Died) && fleet.servers == old(fleet.servers)[instance := step.server]
  {
    hide UserDropped, Ask;
    var r, client := NewClientForInstance(fleet, instance);
    if r == Finished {
      r := client.value.DropUser(user);
    }
    died := r == Died;
  }

  method DropUsers(fleet: Fleet, reports: seq<InstanceReport>, user: string) returns (r: Outcome)
    modifies fleet
    ensures Dropped(fleet.servers, r) == DropEach(old(fleet.servers), reports, user)
  {
    hide DropOn;
    r := Finished;
    for i := 0 to |reports|
      invariant r == Finished && Dropped(fleet.servers, r) == DropEach(old(fleet.servers), reports[..i], user)
    {
      assert reports[..i + 1][..i] == reports[..i];
      if reports[i].ready {
        var died := DropOne(fleet, reports[i].name, user);
        if died {
          DropDies(old(fleet.servers), reports, i + 1, user);
          return Died;
        }
      }
    }
    assert reports[..|reports|] == reports;
  }

  lemma {:induction false} DropDies(servers: map<string, Server>, reports: seq<InstanceReport>, i: nat, user: string)
    requires i <= |reports| && DropEach(servers, reports[..i], user).r == Died
    ensures DropEach(servers, reports, user) == DropEach(servers, reports[..i], user)
    decreases |reports|
  {
    var n := |reports| - 1;
    if i > n { assert reports[..i] == reports; } else {
      assert reports[..n][..i] == reports[..i];
      DropDies(servers, reports[..n], i, user);
    }
  }

  predicate Droppable(user: string) { user != "" && user !in SYSTEM_USERS }

  predicate ReportedReady(reports: seq<InstanceReport>, name: string) {
    exists r | r in reports :: r.name == name && r.ready
  }

  lemma ReportedLast(reports: seq<InstanceReport>, name: string)
    requires reports != []
    ensures var last := reports[|reports| - 1];
            ReportedReady(reports, name) <==>
              ReportedReady(reports[..|reports| - 1], name) || (last.name == name && last.ready)
  {
    assert reports == reports[..|reports| - 1] + [reports[|reports| - 1]];
  }

  function WithoutUser(s: Server, gone: bool, user: string): Server {
    s.(roles := if gone && Droppable(user) then s.roles - {user} else s.roles)
  }

  /** Without faults the user is gone from exactly the instances that were reported ready,
      unless it is a system user. */
  lemma {:induction false} DropEachQuiet(servers: map<string, Server>, reports: seq<InstanceReport>, user: string)
    requires forall t | t in servers :: servers[t].script == []
    ensures var end := DropEach(servers, reports, user);
            && end.r == Finished && end.servers.Keys == servers.Keys
            && forall t | t in servers :: end.servers[t] == WithoutUser(servers[t], ReportedReady(reports, t), user)
  {
    if reports != [] {
      hide Droppable, ReportedReady, DropOn;
      var n := |reports| - 1;
      DropEachQuiet(servers, reports[..n], user);
      var before := DropEach(servers, reports[..n], user);
      forall t | t in servers
        ensures DropOn(before.servers[t], user).r != Died
        ensures DropOn(before.servers[t], user).server == WithoutUser(servers[t], true, user)
        ensures ReportedReady(reports, t)
                <==> ReportedReady(reports[..n], t) || (reports[n].name == t && reports[n].ready)
      {
        DropOnQuiet(before.servers[t], user);
        ReportedLast(reports, t);
      }
    } else {
      assert forall t | t in servers :: !ReportedReady(reports, t);
    }
  }

  lemma DropOnQuiet(s: Server, user: string)
    requires s.script == []
    ensures DropOn(s, user).r != Died
    ensures DropOn(s, user).server == s.(roles := if Droppable(user) then s.roles - {user} else s.roles)
  {
  }
}
