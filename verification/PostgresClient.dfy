/** internal/postgres/client.go: the statements the operator sends to one PostgreSQL
    instance, as effects on its table of roles. Each call to an instance meets a fate
    from that instance's own script; a script that has run out means no fault. */
module PostgresClient {
  import opened Types

  /** `pg_user` lists the roles that can log in. */
  datatype Role = Role(login: bool, password: string, limit: int, granted: set<string>)

  type Table = map<string, Role>

  /** `grantable` holds what this server accepts between GRANT and TO. */
  datatype Server = Server(roles: Table, grantable: set<string>, script: seq<Fate>)

  datatype Statement =
    | CreateUser(user: string, password: string)
    | AlterPassword(user: string, password: string)
    | AlterLimit(user: string, limit: int)
    | Grant(privilege: string, user: string)
    | DropIfExists(user: string)

  /** What the server does with a statement; `None` if it rejects it. */
  function Exec(s: Server, statement: Statement): Option<Table> {
    var roles := s.roles;
    match statement
    case CreateUser(user, password) =>
      if user in roles then None else Some(roles[user := Role(true, password, -1, {})])
    case AlterPassword(user, password) =>
      if user in roles then Some(roles[user := roles[user].(password := password)]) else None
    case AlterLimit(user, limit) =>
      if user in roles then Some(roles[user := roles[user].(limit := limit)]) else None
    case Grant(privilege, user) =>
      if user in roles && privilege in s.grantable
      then Some(roles[user := roles[user].(granted := roles[user].granted + {privilege})]) else None
    case DropIfExists(user) => Some(roles - {user})
  }

  /** A call's result and the server it leaves. */
  datatype Step = Step(server: Server, r: Outcome)

  function NextFate(s: Server): Fate { if s.script == [] then Served else s.script[0] }

  function Rest(s: Server): Server { if s.script == [] then s else s.(script := s.script[1..]) }

  /** Connecting, or a query. */
  function Ask(s: Server): Step {
    Step(Rest(s), match NextFate(s) case Crash => Died case Served => Finished case _ => Errored)
  }

  function Send(s: Server, statement: Statement): Step {
    var after := Exec(s, statement);
    if NextFate(s) == Crash then Step(Rest(s), Died)
    else if !Applied(NextFate(s)) || after.None? then Step(Rest(s), Errored)
    else Step(Rest(s).(roles := after.value), if NextFate(s) == Served then Finished else Errored)
  }

  predicate ListedAsUser(roles: Table, user: string) { user in roles && roles[user].login }

  function Granted(s: Server, user: string, privileges: seq<string>): Step
    decreases |privileges|
  {
    if privileges == [] then Step(s, Finished)
    else
      var first := Send(s, Grant(privileges[0], user));
      if first.r != Finished then first else Granted(first.server, user, privileges[1..])
  }

  function UserWritten(s: Server, user: string, password: string, privileges: seq<string>): Step {
    if user == "" || password == "" then Step(s, Errored)
    else
      var asked := Ask(s);
      if asked.r != Finished then asked
      else
        var written := Send(asked.server, if ListedAsUser(asked.server.roles, user) then AlterPassword(user, password)
                                          else CreateUser(user, password));
        if written.r != Finished then written else Granted(written.server, user, privileges)
  }

  function LimitWritten(s: Server, user: string, limit: int): Step {
    if user == "" || limit < -1 then Step(s, Errored) else Send(s, AlterLimit(user, limit))
  }

  const SYSTEM_USERS := [
    "postgres", "template0", "template1", "pg_monitor", "pg_read_all_settings", "pg_read_all_stats",
    "pg_stat_scan_tables", "pg_read_server_files", "pg_write_server_files", "pg_execute_server_program"]

  function UserDropped(s: Server, user: string): Step {
    if user == "" || user in SYSTEM_USERS then Step(s, Errored) else Send(s, DropIfExists(user))
  }

  // ---- The client ----

  /** Every instance that can be reached, by name. */
  class Fleet {
    var servers: map<string, Server>

    constructor (servers: map<string, Server>)
      ensures this.servers == servers
    {
      this.servers := servers;
    }
  }

  /** Connects to an instance; an instance of an unknown name cannot be reached. */
  method NewClientForInstance(fleet: Fleet, instance: string) returns (r: Outcome, client: Option<Client>)
    modifies fleet
    ensures instance !in old(fleet.servers) ==> r == Errored && fleet.servers == old(fleet.servers)
    ensures instance in old(fleet.servers) ==>
              var asked := Ask(old(fleet.servers)[instance]);
              r == asked.r && fleet.servers == old(fleet.servers)[instance := asked.server]
    ensures r == Finished ==> client.Some? && client.value.fleet == fleet && client.value.instance == instance
  {
    if instance !in fleet.servers { return Errored, None; }
    var asked := Ask(fleet.servers[instance]);
    fleet.servers := fleet.servers[instance := asked.server];
    if asked.r != Finished { return asked.r, None; }
    var c := new Client(fleet, instance);
    return Finished, Some(c);
  }

  class Client {
    const fleet: Fleet
    const instance: string

    constructor (fleet: Fleet, instance: string)
      ensures this.fleet == fleet && this.instance == instance
    {
      this.fleet, this.instance := fleet, instance;
    }

    ghost predicate Valid()
      reads fleet
    {
      instance in fleet.servers
    }

    /** Only this instance's server has changed, and as `step` says. */
    twostate predicate Made(step: Step, r: Outcome)
      requires old(Valid())
      reads fleet
    {
      r == step.r && fleet.servers == old(fleet.servers)[instance := step.server]
    }

    method Execute(statement: Statement) returns (r: Outcome)
      requires Valid()
      modifies fleet
      ensures Made(Send(old(fleet.servers[instance]), statement), r)
    {
      var sent := Send(fleet.servers[instance], statement);
      fleet.servers := fleet.servers[instance := sent.server];
      r := sent.r;
    }

    /** Whether the user is listed, or why that is not known. */
    method IsListed(user: string) returns (r: Outcome, listed: bool)
      requires Valid()
      modifies fleet
      ensures Made(Ask(old(fleet.servers[instance])), r)
      ensures r == Finished ==> listed == ListedAsUser(old(fleet.servers[instance]).roles, user)
    {
      listed := ListedAsUser(fleet.servers[instance].roles, user);
      var asked := Ask(fleet.servers[instance]);
      fleet.servers := fleet.servers[instance := asked.server];
      r := asked.r;
    }

    method CreateOrUpdateUser(user: string, password: string, privileges: seq<string>) returns (r: Outcome)
      requires Valid()
      modifies fleet
      ensures Made(UserWritten(old(fleet.servers[instance]), user, password, privileges), r)
    {
      hide Send, Ask, Granted;
      if user == "" || password == "" { return Errored; }
      var listed;
      r, listed := IsListed(user);
      if r != Finished { return; }
      assert fleet.servers[instance].roles == old(fleet.servers[instance]).roles
        by { AskKeepsRoles(old(fleet.servers[instance])); }
      if listed {
        r := Execute(AlterPassword(user, password));
      } else {
        r := Execute(CreateUser(user, password));
      }
      if r != Finished { return; }
      r := GrantAll(user, privileges);
    }

    /** Stops at the first privilege that cannot be granted. */
    method GrantAll(user: string, privileges: seq<string>) returns (r: Outcome)
      requires Valid()
      modifies fleet
      ensures Made(Granted(old(fleet.servers[instance]), user, privileges), r)
    {
      hide Send;
      r := Finished;
      ghost var before := fleet.servers[instance];
      for i := 0 to |privileges|
        invariant r == Finished && Valid() && fleet.servers == old(fleet.servers)[instance := fleet.servers[instance]]
        invariant Granted(before, user, privileges) == Granted(fleet.servers[instance], user, privileges[i..])
      {
        r := Execute(Grant(privileges[i], user));
        if r != Finished { return; }
        assert privileges[i..][1..] == privileges[i + 1..];
      }
      assert privileges[|privileges|..] == [];
    }

    method SetConnectionLimit(user: string, limit: int) returns (r: Outcome)
      requires Valid()
      modifies fleet
      ensures Made(LimitWritten(old(fleet.servers[instance]), user, limit), r)
    {
      if user == "" { return Errored; }
      if limit < -1 { return Errored; }
      r := Execute(AlterLimit(user, limit));
    }

    /** The revocations that come first are not modelled; their errors are only logged. */
    method DropUser(user: string) returns (r: Outcome)
      requires Valid()
      modifies fleet
      ensures Made(UserDropped(old(fleet.servers[instance]), user), r)
    {
      if user == "" { return Errored; }
      for i := 0 to |SYSTEM_USERS|
        invariant user !in SYSTEM_USERS[..i]
      {
        if user == SYSTEM_USERS[i] { return Errored; }
      }
      r := Execute(DropIfExists(user));
    }
  }

  lemma AskKeepsRoles(s: Server)
    ensures Ask(s).server.roles == s.roles
  {
  }

  // ---- What the calls achieve ----

  /** Granting touches nothing but the user's privileges. */
  lemma {:induction false} GrantedOnly(s: Server, user: string, privileges: seq<string>)
    requires user in s.roles
    ensures var s' := Granted(s, user, privileges);
            && user in s'.server.roles
            && s'.server.roles[user] == s.roles[user].(granted := s'.server.roles[user].granted)
            && s.roles[user].granted <= s'.server.roles[user].granted
            && (forall p | p in s'.server.roles[user].granted :: p in s.roles[user].granted || p in privileges)
            && (s'.r == Finished ==> forall p | p in privileges :: p in s'.server.roles[user].granted)
    decreases |privileges|
  {
    if privileges != [] {
      var first := Send(s, Grant(privileges[0], user));
      GrantedOnly(first.server, user, privileges[1..]);
    }
  }

  lemma {:induction false} GrantedOthers(s: Server, user: string, privileges: seq<string>, other: string)
    requires other != user
    ensures SameRole(s.roles, Granted(s, user, privileges).server.roles, other)
    decreases |privileges|
  {
    if privileges != [] { GrantedOthers(Send(s, Grant(privileges[0], user)).server, user, privileges[1..], other); }
  }

  predicate SameRole(a: Table, b: Table, user: string) {
    (user in a <==> user in b) && (user in a ==> b[user] == a[user])
  }

  /** A call that succeeds leaves a user that can log in with this password and holds the
      privileges; an existing user keeps its limit, a new one has none. */
  lemma UserWrittenHolds(s: Server, user: string, password: string, privileges: seq<string>)
    requires UserWritten(s, user, password, privileges).r == Finished
    ensures var roles := UserWritten(s, user, password, privileges).server.roles;
            && ListedAsUser(roles, user) && roles[user].password == password
            && (forall p :: p in roles[user].granted
                            <==> p in privileges || (user in s.roles && p in s.roles[user].granted))
            && roles[user].limit == if user in s.roles then s.roles[user].limit else -1
  {
    var asked := Ask(s);
    var written := Send(asked.server, if ListedAsUser(asked.server.roles, user) then AlterPassword(user, password)
                                      else CreateUser(user, password));
    GrantedOnly(written.server, user, privileges);
  }

  /** Without faults the limit of an existing role, and nothing else, becomes the one asked for. */
  lemma LimitWrittenQuiet(s: Server, user: string, limit: int)
    requires s.script == []
    ensures var step := LimitWritten(s, user, limit);
            && (step.r == Finished <==> user != "" && limit >= -1 && user in s.roles)
            && (step.r == Finished ==> step.server == s.(roles := s.roles[user := s.roles[user].(limit := limit)]))
            && (step.r != Finished ==> step.r == Errored && step.server == s)
  {
  }

  /** The names that are never dropped; without faults any other role is gone after the call. */
  lemma SystemUsersStay(s: Server, user: string)
    ensures var step := UserDropped(s, user);
            var kept := user == "" || user == "postgres" || user == "template0" || user == "template1"
                        || user == "pg_monitor" || user == "pg_read_all_settings" || user == "pg_read_all_stats"
                        || user == "pg_stat_scan_tables" || user == "pg_read_server_files"
                        || user == "pg_write_server_files" || user == "pg_execute_server_program";
            && (kept ==> step == Step(s, Errored))
            && (!kept && s.script == [] ==> step == Step(s.(roles := s.roles - {user}), Finished))
  {
    SystemUsersListed(user);
    hide SYSTEM_USERS;
  }

  lemma SystemUsersListed(user: string)
    ensures user in SYSTEM_USERS <==>
              || user == "postgres" || user == "template0" || user == "template1"
              || user == "pg_monitor" || user == "pg_read_all_settings" || user == "pg_read_all_stats"
              || user == "pg_stat_scan_tables" || user == "pg_read_server_files"
              || user == "pg_write_server_files" || user == "pg_execute_server_program"
  {
  }

  /** Whatever becomes of the calls, other roles are untouched. */
  lemma UserWrittenOthers(s: Server, user: string, password: string, privileges: seq<string>, other: string)
    requires other != user
    ensures SameRole(s.roles, UserWritten(s, user, password, privileges).server.roles, other)
  {
    if user != "" && password != "" {
      var asked := Ask(s);
      var written := Send(asked.server, if ListedAsUser(asked.server.roles, user) then AlterPassword(user, password)
                                        else CreateUser(user, password));
      GrantedOthers(written.server, user, privileges, other);
    }
  }

  lemma {:induction false} GrantedQuiet(s: Server, user: string, privileges: seq<string>)
    requires s.script == [] && user in s.roles
    ensures Granted(s, user, privileges).r ==
            (if forall p | p in privileges :: p in s.grantable then Finished else Errored)
    ensures Granted(s, user, privileges).server.script == []
    decreases |privileges|
  {
    if privileges != [] {
      var first := Send(s, Grant(privileges[0], user));
      GrantedQuiet(first.server, user, privileges[1..]);
      assert forall p :: p in privileges <==> p == privileges[0] || p in privileges[1..];
    }
  }

  /** Without faults it succeeds exactly if the arguments are not empty, the name does not
      belong to a role that cannot log in, and the server accepts every privilege. */
  lemma UserWrittenQuiet(s: Server, user: string, password: string, privileges: seq<string>)
    requires s.script == []
    ensures UserWritten(s, user, password, privileges).r == Finished
            <==> user != "" && password != "" && (user in s.roles ==> s.roles[user].login)
                 && forall p | p in privileges :: p in s.grantable
    ensures UserWritten(s, user, password, privileges).server.script == []
  {
    if user != "" && password != "" && (user in s.roles ==> s.roles[user].login) {
      var written := Send(s, if ListedAsUser(s.roles, user) then AlterPassword(user, password)
                             else CreateUser(user, password));
      GrantedQuiet(written.server, user, privileges);
    }
  }
}
