/** Which instances a restore and a user apply to: the two `getTargetInstances`
    (controllers/postgresrestore_controller.go, controllers/postgresuser_controller.go)
    and the label selectors they share. */
module Selection {
  import opened Types

  datatype Operator = In | NotIn | Exists | DoesNotExist | Unknown

  datatype Requirement = Requirement(key: string, op: Operator, values: seq<string>)

  datatype LabelSelector = LabelSelector(matchLabels: map<string, string>, requirements: seq<Requirement>)

  datatype Selector = Selector(names: seq<string>, role: string, labels: Option<LabelSelector>)

  /** One entry of a cluster's `status.instances`. */
  datatype InstanceStatus = InstanceStatus(
    name: string, role: string, ready: int, leader: string, labels: map<string, string>)

  /** The labels `updateStatus` gives an instance. */
  function StatusLabels(cluster: string, name: string, role: string): map<string, string> {
    map["app" := "postgres", "cluster" := cluster, "instance" := name, "role" := role]
  }

  /** The labels the restore controller makes up for an instance. */
  function RestoreLabels(instance: Instance): map<string, string> {
    map["instance" := instance.name, "role" := instance.role]
  }

  predicate ValidRequirement(r: Requirement) {
    match r.op
    case In | NotIn => r.values != []
    case Exists | DoesNotExist => r.values == []
    case Unknown => false
  }

  predicate ValidSelector(s: LabelSelector) {
    forall r | r in s.requirements :: ValidRequirement(r)
  }

  predicate Satisfies(labels: map<string, string>, r: Requirement) {
    match r.op
    case In => r.key in labels && labels[r.key] in r.values
    case NotIn => r.key !in labels || labels[r.key] !in r.values
    case Exists => r.key in labels
    case DoesNotExist => r.key !in labels
    case Unknown => false
  }

  predicate Matches(s: LabelSelector, labels: map<string, string>) {
    && (forall k | k in s.matchLabels :: k in labels && labels[k] == s.matchLabels[k])
    && (forall r | r in s.requirements :: Satisfies(labels, r))
  }

  /** The first instance of that name. */
  function FirstNamed(instances: seq<Instance>, name: string): (r: Option<Instance>)
    ensures r.None? <==> name !in Names(instances)
    ensures r.Some? ==> r.value.name == name && r.value in instances
  {
    if instances == [] then None
    else if instances[0].name == name then Some(instances[0])
    else
      assert forall i | 0 < i < |instances| :: Names(instances)[i] == Names(instances[1..])[i - 1];
      FirstNamed(instances[1..], name)
  }

  function Lookup(instances: seq<Instance>, names: seq<string>): (r: seq<Instance>)
    requires forall n | n in names :: n in Names(instances)
    ensures Names(r) == names
  {
    seq(|names|, i requires 0 <= i < |names| => FirstNamed(instances, names[i]).value)
  }

  /** What a restore selects from a cluster's spec. */
  function RestoreTargets(instances: seq<Instance>, selector: Option<Selector>): Result<seq<Instance>> {
    match selector
    case None => Ok(instances)
    case Some(sel) =>
      if sel.names != [] then
        if forall n | n in sel.names :: n in Names(instances) then Ok(Lookup(instances, sel.names)) else Err
      else if sel.role != "" then
        var hits := Filter(instances, (x: Instance) => x.role == sel.role);
        if hits == [] then Err else Ok(hits)
      else match sel.labels
        case None => Ok(instances)
        case Some(labels) =>
          if !ValidSelector(labels) then Err
          else Ok(Filter(instances, (x: Instance) => Matches(labels, RestoreLabels(x))))
  }

  function StatusNames(statuses: seq<InstanceStatus>): (names: seq<string>)
    ensures |names| == |statuses|
    ensures forall i | 0 <= i < |names| :: names[i] == statuses[i].name
  {
    seq(|statuses|, i requires 0 <= i < |statuses| => statuses[i].name)
  }

  /** What a user selects from a cluster's status. */
  function UserTargets(statuses: seq<InstanceStatus>, selector: Option<Selector>): Result<seq<string>> {
    match selector
    case None => Ok(StatusNames(statuses))
    case Some(sel) =>
      if sel.names != [] then Ok(sel.names)
      else if sel.role != "" then
        var hits := Filter(statuses, (x: InstanceStatus) => x.role == sel.role);
        if hits == [] then Err else Ok(StatusNames(hits))
      else match sel.labels
        case None => Ok(StatusNames(statuses))
        case Some(labels) =>
          if !ValidSelector(labels) then Err
          else
            var hits := Filter(statuses, (x: InstanceStatus) => Matches(labels, x.labels));
            if hits == [] then Err else Ok(StatusNames(hits))
  }

  // ---- The two controllers' loops ----

  method FindNamed(instances: seq<Instance>, name: string) returns (r: Option<Instance>)
    ensures r == FirstNamed(instances, name)
  {
    for i := 0 to |instances|
      invariant FirstNamed(instances, name) == FirstNamed(instances[i..], name)
    {
      if instances[i].name == name { return Some(instances[i]); }
    }
    return None;
  }

  /** One instance for each name; the first name without one is an error. */
  method PickNamed(instances: seq<Instance>, names: seq<string>) returns (r: Result<seq<Instance>>)
    ensures r == if forall n | n in names :: n in Names(instances) then Ok(Lookup(instances, names)) else Err
  {
    hide Names;
    var picked: seq<Instance> := [];
    for n := 0 to |names|
      invariant forall k | 0 <= k < n :: names[k] in Names(instances)
      invariant picked == Lookup(instances, names[..n])
    {
      var found := FindNamed(instances, names[n]);
      if found.None? {
        assert names[n] in names;
        return Err;
      }
      picked := picked + [found.value];
    }
    assert names[..|names|] == names;
    return Ok(picked);
  }

  method SelectForRestore(instances: seq<Instance>, selector: Option<Selector>) returns (r: Result<seq<Instance>>)
    ensures r == RestoreTargets(instances, selector)
  {
    if selector.None? { return Ok(instances); }
    var sel := selector.value;
    var picked: seq<Instance> := [];

    if |sel.names| > 0 {
      r := PickNamed(instances, sel.names);
      return;
    }

    if sel.role != "" {
      for i := 0 to |instances|
        invariant picked == Filter(instances[..i], (x: Instance) => x.role == sel.role)
      {
        assert instances[..i + 1][..i] == instances[..i];
        if instances[i].role == sel.role { picked := picked + [instances[i]]; }
      }
      assert instances[..|instances|] == instances;
      if |picked| > 0 { return Ok(picked); }
      return Err;
    }

    if sel.labels.Some? {
      var labels := sel.labels.value;
      if !ValidSelector(labels) { return Err; }
      for i := 0 to |instances|
        invariant picked == Filter(instances[..i], (x: Instance) => Matches(labels, RestoreLabels(x)))
      {
        assert instances[..i + 1][..i] == instances[..i];
        if Matches(labels, RestoreLabels(instances[i])) { picked := picked + [instances[i]]; }
      }
      assert instances[..|instances|] == instances;
      return Ok(picked);
    }

    return Ok(instances);
  }

  method AllNames(statuses: seq<InstanceStatus>) returns (names: seq<string>)
    ensures names == StatusNames(statuses)
  {
    names := [];
    for i := 0 to |statuses|
      invariant names == StatusNames(statuses[..i])
    {
      names := names + [statuses[i].name];
    }
    assert statuses[..|statuses|] == statuses;
  }

  method NamesOfRole(statuses: seq<InstanceStatus>, role: string) returns (names: seq<string>)
    ensures names == StatusNames(Filter(statuses, (x: InstanceStatus) => x.role == role))
  {
    names := [];
    for i := 0 to |statuses|
      invariant names == StatusNames(Filter(statuses[..i], (x: InstanceStatus) => x.role == role))
    {
      assert statuses[..i + 1][..i] == statuses[..i];
      if statuses[i].role == role { names := names + [statuses[i].name]; }
    }
    assert statuses[..|statuses|] == statuses;
  }

  method NamesWithLabels(statuses: seq<InstanceStatus>, labels: LabelSelector) returns (names: seq<string>)
    ensures names == StatusNames(Filter(statuses, (x: InstanceStatus) => Matches(labels, x.labels)))
  {
    hide Matches;
    names := [];
    for i := 0 to |statuses|
      invariant names == StatusNames(Filter(statuses[..i], (x: InstanceStatus) => Matches(labels, x.labels)))
    {
      assert statuses[..i + 1][..i] == statuses[..i];
      if Matches(labels, statuses[i].labels) { names := names + [statuses[i].name]; }
    }
    assert statuses[..|statuses|] == statuses;
  }

  method SelectForUser(statuses: seq<InstanceStatus>, selector: Option<Selector>) returns (r: Result<seq<string>>)
    ensures r == UserTargets(statuses, selector)
  {
    hide Matches;
    var picked: seq<string>;
    if selector.None? {
      picked := AllNames(statuses);
      return Ok(picked);
    }
    var sel := selector.value;

    if |sel.names| > 0 { return Ok(sel.names); }

    if sel.role != "" {
      picked := NamesOfRole(statuses, sel.role);
      return if |picked| == 0 then Err else Ok(picked);
    }

    if sel.labels.Some? {
      if !ValidSelector(sel.labels.value) { return Err; }
      picked := NamesWithLabels(statuses, sel.labels.value);
      return if |picked| == 0 then Err else Ok(picked);
    }

    picked := AllNames(statuses);
    return Ok(picked);
  }

  // ---- Agreement ----

  /** The statuses are those `updateStatus` writes for these instances. */
  ghost predicate Mirrors(cluster: string, instances: seq<Instance>, statuses: seq<InstanceStatus>) {
    && |statuses| == |instances|
    && forall i | 0 <= i < |instances| ::
         && statuses[i].name == instances[i].name
         && statuses[i].role == instances[i].role
         && statuses[i].labels == StatusLabels(cluster, instances[i].name, instances[i].role)
  }

  /** Both controllers fail, or both pick the same names in the same order. */
  ghost predicate Agree(r: Result<seq<Instance>>, u: Result<seq<string>>) {
    if r.Err? then u.Err? else u == Ok(Names(r.value))
  }

  /** The selector goes by labels. */
  predicate ByLabels(selector: Option<Selector>) {
    selector.Some? && selector.value.names == [] && selector.value.role == "" && selector.value.labels.Some?
  }

  /** The labels select the instance for both controllers or for neither. */
  predicate MatchesAlike(cluster: string, x: Instance, s: LabelSelector) {
    Matches(s, RestoreLabels(x)) == Matches(s, StatusLabels(cluster, x.name, x.role))
  }

  /** Whether the two controllers pick the same instances, instance by instance. */
  ghost predicate SameSelection(cluster: string, instances: seq<Instance>, selector: Option<Selector>) {
    if ByLabels(selector) then
      var labels := selector.value.labels.value;
      ValidSelector(labels) ==>
        && (exists x | x in instances :: Matches(labels, RestoreLabels(x)))
        && (forall x | x in instances :: MatchesAlike(cluster, x, labels))
    else selector.Some? ==> forall n | n in selector.value.names :: n in Names(instances)
  }

  lemma {:induction false} FilterMirrors(
    cluster: string, instances: seq<Instance>, statuses: seq<InstanceStatus>,
    p: Instance -> bool, q: InstanceStatus -> bool)
    requires Mirrors(cluster, instances, statuses)
    requires forall i | 0 <= i < |instances| :: p(instances[i]) == q(statuses[i])
    ensures StatusNames(Filter(statuses, q)) == Names(Filter(instances, p))
  {
    if instances != [] {
      hide StatusLabels, Names, StatusNames;
      var n := |instances| - 1;
      FilterMirrors(cluster, instances[..n], statuses[..n], p, q);
      NamesAppended(Filter(instances[..n], p), instances[n], Filter(statuses[..n], q), statuses[n]);
    } else {
      assert StatusNames(Filter(statuses, q)) == Names(Filter(instances, p)) == [];
    }
  }

  lemma NamesAppended(xs: seq<Instance>, x: Instance, statuses: seq<InstanceStatus>, s: InstanceStatus)
    ensures Names(xs + [x]) == Names(xs) + [x.name]
    ensures StatusNames(statuses + [s]) == StatusNames(statuses) + [s.name]
  {
  }

  lemma FilterNonEmpty<T>(s: seq<T>, p: T -> bool)
    ensures Filter(s, p) != [] <==> exists x | x in s :: p(x)
  {
    if Filter(s, p) != [] { assert Filter(s, p)[0] in s; }
  }

  lemma NameTold(instances: seq<Instance>, x: Instance, y: Instance)
    requires Distinct(Names(instances)) && x in instances && y in instances && x.name == y.name
    ensures x == y
  {
    var i :| 0 <= i < |instances| && instances[i] == x;
    var j :| 0 <= j < |instances| && instances[j] == y;
    assert Names(instances)[i] == Names(instances)[j];
  }

  /** Under distinct names a name is in the filtered list only through its own instance. */
  lemma FilteredName(instances: seq<Instance>, x: Instance, p: Instance -> bool)
    requires Distinct(Names(instances)) && x in instances
    ensures x.name in Names(Filter(instances, p)) <==> p(x)
  {
    var hits := Filter(instances, p);
    if x.name in Names(hits) {
      var i :| 0 <= i < |hits| && Names(hits)[i] == x.name;
      assert hits[i] in hits;
      NameTold(instances, x, hits[i]);
    }
    if p(x) {
      assert x in hits;
      var i :| 0 <= i < |hits| && hits[i] == x;
      assert Names(hits)[i] == x.name;
    }
  }

  lemma {:induction false} FilterAlike(instances: seq<Instance>, p: Instance -> bool, q: Instance -> bool)
    requires forall x | x in instances :: p(x) == q(x)
    ensures Filter(instances, p) == Filter(instances, q)
  {
    if instances != [] { FilterAlike(instances[..|instances| - 1], p, q); }
  }

  /** Two filters pick the same names exactly if they treat every instance alike. */
  lemma SameNames(instances: seq<Instance>, p: Instance -> bool, q: Instance -> bool)
    ensures (forall x | x in instances :: p(x) == q(x)) ==> Names(Filter(instances, p)) == Names(Filter(instances, q))
    ensures Distinct(Names(instances)) && Names(Filter(instances, p)) == Names(Filter(instances, q)) ==>
              forall x | x in instances :: p(x) == q(x)
  {
    if forall x | x in instances :: p(x) == q(x) { FilterAlike(instances, p, q); }
    if Distinct(Names(instances)) && Names(Filter(instances, p)) == Names(Filter(instances, q)) {
      forall x | x in instances ensures p(x) == q(x) {
        FilteredName(instances, x, p);
        FilteredName(instances, x, q);
      }
    }
  }

  /** What a user picks by labels, told from the instances the status mirrors. */
  lemma UserByLabels(cluster: string, instances: seq<Instance>, statuses: seq<InstanceStatus>, labels: LabelSelector)
    requires Mirrors(cluster, instances, statuses)
    ensures StatusNames(Filter(statuses, (x: InstanceStatus) => Matches(labels, x.labels)))
            == Names(Filter(instances, (x: Instance) => Matches(labels, StatusLabels(cluster, x.name, x.role))))
  {
    hide Matches;
    FilterMirrors(cluster, instances, statuses,
                  (x: Instance) => Matches(labels, StatusLabels(cluster, x.name, x.role)),
                  (x: InstanceStatus) => Matches(labels, x.labels));
  }

  lemma AgreementByLabels(cluster: string, instances: seq<Instance>, statuses: seq<InstanceStatus>,
                          selector: Option<Selector>)
    requires Mirrors(cluster, instances, statuses) && ByLabels(selector)
    ensures SameSelection(cluster, instances, selector) ==>
              Agree(RestoreTargets(instances, selector), UserTargets(statuses, selector))
    ensures Distinct(Names(instances))
            && Agree(RestoreTargets(instances, selector), UserTargets(statuses, selector)) ==>
              SameSelection(cluster, instances, selector)
  {
    hide Matches, Mirrors, Distinct;
    var labels := selector.value.labels.value;
    var p := (x: Instance) => Matches(labels, RestoreLabels(x));
    var q := (x: Instance) => Matches(labels, StatusLabels(cluster, x.name, x.role));
    UserByLabels(cluster, instances, statuses, labels);
    SameNames(instances, p, q);
    FilterNonEmpty(instances, p);
    FilterNonEmpty(statuses, (x: InstanceStatus) => Matches(labels, x.labels));
    assert forall x | x in instances :: MatchesAlike(cluster, x, labels) <==> p(x) == q(x);
  }

  /** With a current cluster status the restore and the user controller select the same
      instances if, and under distinct names only if, `SameSelection`: they differ on names
      that do not exist, on valid label selectors that match nothing, and on those that
      some instance's two sets of labels satisfy differently. */
  lemma SelectionAgreement(
    cluster: string, instances: seq<Instance>, statuses: seq<InstanceStatus>, selector: Option<Selector>)
    requires Mirrors(cluster, instances, statuses)
    ensures SameSelection(cluster, instances, selector) ==>
              Agree(RestoreTargets(instances, selector), UserTargets(statuses, selector))
    ensures Distinct(Names(instances)) || !ByLabels(selector) ==>
              (Agree(RestoreTargets(instances, selector), UserTargets(statuses, selector))
               <==> SameSelection(cluster, instances, selector))
  {
    if ByLabels(selector) {
      AgreementByLabels(cluster, instances, statuses, selector);
    } else {
      assert StatusNames(statuses) == Names(instances);
      if selector.Some? && selector.value.names == [] && selector.value.role != "" {
        var role := selector.value.role;
        FilterMirrors(cluster, instances, statuses, (x: Instance) => x.role == role,
                      (x: InstanceStatus) => x.role == role);
      }
    }
  }

  /** The selector mentions only the two labels both controllers know. */
  ghost predicate CommonKeys(s: LabelSelector) {
    && (forall k | k in s.matchLabels :: k == "instance" || k == "role")
    && (forall r | r in s.requirements :: r.key == "instance" || r.key == "role")
  }

  lemma CommonKeysMatchAlike(cluster: string, x: Instance, s: LabelSelector)
    requires CommonKeys(s)
    ensures MatchesAlike(cluster, x, s)
  {
    var a, b := RestoreLabels(x), StatusLabels(cluster, x.name, x.role);
    forall r | r in s.requirements ensures Satisfies(a, r) == Satisfies(b, r) { }
  }

  /** Over the two common keys, whatever the names, they agree exactly if a valid selector
      matches something. */
  lemma CommonKeysAgreement(
    cluster: string, instances: seq<Instance>, statuses: seq<InstanceStatus>, selector: Option<Selector>)
    requires Mirrors(cluster, instances, statuses) && ByLabels(selector) && CommonKeys(selector.value.labels.value)
    ensures Agree(RestoreTargets(instances, selector), UserTargets(statuses, selector))
            <==> (ValidSelector(selector.value.labels.value) ==>
                    exists x | x in instances :: Matches(selector.value.labels.value, RestoreLabels(x)))
  {
    hide Matches, Mirrors, CommonKeys;
    var labels := selector.value.labels.value;
    forall x | x in instances ensures MatchesAlike(cluster, x, labels) { CommonKeysMatchAlike(cluster, x, labels); }
    AgreementByLabels(cluster, instances, statuses, selector);
    UserByLabels(cluster, instances, statuses, labels);
    SameNames(instances, (x: Instance) => Matches(labels, RestoreLabels(x)),
              (x: Instance) => Matches(labels, StatusLabels(cluster, x.name, x.role)));
    FilterNonEmpty(instances, (x: Instance) => Matches(labels, RestoreLabels(x)));
  }

  /** A valid selector that fixes any other label selects nothing for a restore, and the
      controllers disagree, whatever the user controller selects. */
  lemma OtherKeysDisagree(
    cluster: string, instances: seq<Instance>, statuses: seq<InstanceStatus>, labels: LabelSelector, key: string)
    requires Mirrors(cluster, instances, statuses) && ValidSelector(labels)
    requires key in labels.matchLabels && key != "instance" && key != "role"
    ensures var selector := Some(Selector([], "", Some(labels)));
            && RestoreTargets(instances, selector) == Ok([])
            && !Agree(RestoreTargets(instances, selector), UserTargets(statuses, selector))
  {
    var p := (x: Instance) => Matches(labels, RestoreLabels(x));
    forall x | x in instances ensures !p(x) { assert key !in RestoreLabels(x); }
    FilterNonEmpty(instances, p);
    var q := (x: InstanceStatus) => Matches(labels, x.labels);
    assert Filter(statuses, q) != [] ==> StatusNames(Filter(statuses, q)) != [];
    assert Names([]) == [];
  }

  // ---- What selectors mean ----

  /** An entry of matchLabels asks for that very value, and no entry for nothing. */
  lemma MatchLabelsMeaning(key: string, value: string, labels: map<string, string>)
    ensures Matches(LabelSelector(map[key := value], []), labels) <==> key in labels && labels[key] == value
    ensures Matches(LabelSelector(map[], []), labels)
  {
    assert key in map[key := value];
  }

  /** In with one value is that entry of matchLabels; with several it is any of them. */
  lemma InMeaning(key: string, value: string, a: seq<string>, b: seq<string>, labels: map<string, string>)
    ensures Matches(LabelSelector(map[], [Requirement(key, In, [value])]), labels)
            <==> Matches(LabelSelector(map[key := value], []), labels)
    ensures Satisfies(labels, Requirement(key, In, a + b))
            <==> Satisfies(labels, Requirement(key, In, a)) || Satisfies(labels, Requirement(key, In, b))
  {
    MatchLabelsMeaning(key, value, labels);
    var r := Requirement(key, In, [value]);
    assert Matches(LabelSelector(map[], [r]), labels) <==> Satisfies(labels, r);
  }

  /** NotIn is the complement of In, also where the label is missing, and DoesNotExist that of
      Exists; a label exists if it has some value. */
  lemma ComplementsMeaning(key: string, values: seq<string>, labels: map<string, string>)
    ensures Satisfies(labels, Requirement(key, NotIn, values)) <==> !Satisfies(labels, Requirement(key, In, values))
    ensures Satisfies(labels, Requirement(key, DoesNotExist, [])) <==> !Satisfies(labels, Requirement(key, Exists, []))
    ensures Satisfies(labels, Requirement(key, Exists, []))
            <==> exists v :: Satisfies(labels, Requirement(key, In, [v]))
  {
    if key in labels { assert Satisfies(labels, Requirement(key, In, [labels[key]])); }
  }

  /** All parts of a selector must be satisfied. */
  lemma ConjunctionMeaning(entries: map<string, string>, a: seq<Requirement>, b: seq<Requirement>,
                           labels: map<string, string>)
    ensures Matches(LabelSelector(entries, a + b), labels)
            <==> && Matches(LabelSelector(entries, []), labels)
                 && Matches(LabelSelector(map[], a), labels) && Matches(LabelSelector(map[], b), labels)
  {
    assert forall r :: r in a + b <==> r in a || r in b;
  }

  /** What the API documents: In and NotIn need values, Exists and DoesNotExist must have none. */
  lemma ValidMeaning(s: LabelSelector)
    ensures ValidSelector(s)
            <==> !exists r | r in s.requirements ::
                   r.op == Unknown || (r.values == [] <==> r.op != Exists && r.op != DoesNotExist)
  {
  }

  lemma {:induction false} FirstNamedIsFirst(instances: seq<Instance>, name: string)
    requires name in Names(instances)
    ensures exists i | 0 <= i < |instances| ::
              && FirstNamed(instances, name) == Some(instances[i]) && instances[i].name == name
              && forall j | 0 <= j < i :: instances[j].name != name
  {
    if instances[0].name != name {
      var k :| 0 <= k < |instances| && Names(instances)[k] == name;
      assert Names(instances[1..])[k - 1] == name;
      FirstNamedIsFirst(instances[1..], name);
      var i :| 0 <= i < |instances| - 1 && FirstNamed(instances[1..], name) == Some(instances[1..][i])
               && instances[1..][i].name == name && forall j | 0 <= j < i :: instances[1..][j].name != name;
      assert instances[i + 1] == instances[1..][i];
      forall j | 0 <= j < i + 1 ensures instances[j].name != name {
        if j > 0 { assert instances[j] == instances[1..][j - 1]; }
      }
    }
  }

  /** What a restore ends up with, selector by selector; the order is that of the cluster, or
      of the list of names. */
  lemma RestoreMeaning(instances: seq<Instance>, sel: Selector)
    ensures sel.names != [] ==>
              match RestoreTargets(instances, Some(sel))
              case Err => exists n | n in sel.names :: n !in Names(instances)
              case Ok(targets) =>
                Names(targets) == sel.names
                && forall i | 0 <= i < |targets| :: Some(targets[i]) == FirstNamed(instances, sel.names[i])
    ensures sel.names == [] && sel.role != "" ==>
              match RestoreTargets(instances, Some(sel))
              case Err => forall x | x in instances :: x.role != sel.role
              case Ok(targets) => targets != [] && forall x :: x in targets <==> x in instances && x.role == sel.role
    ensures sel.names == [] && sel.role == "" && sel.labels.Some? ==>
              match RestoreTargets(instances, Some(sel))
              case Err => !ValidSelector(sel.labels.value)
              case Ok(targets) =>
                ValidSelector(sel.labels.value)
                && forall x :: x in targets <==> x in instances && Matches(sel.labels.value, RestoreLabels(x))
    ensures sel.names == [] && sel.role == "" && sel.labels.None? ==>
              RestoreTargets(instances, Some(sel)) == Ok(instances)
  {
    hide Matches, ValidSelector;
    FilterNonEmpty(instances, (x: Instance) => x.role == sel.role);
  }

  function RoleIn(role: string): LabelSelector { LabelSelector(map[], [Requirement("role", In, [role])]) }

  function InstanceIn(name: string): LabelSelector { LabelSelector(map[], [Requirement("instance", In, [name])]) }

  /** For a restore, the label selector `role In [r]` picks the same instances as role r, whenever
      one has it, and `instance In [n]` picks the instances of that name. */
  lemma RoleByLabel(instances: seq<Instance>, role: string, name: string)
    ensures role != "" && (exists x | x in instances :: x.role == role) ==>
              RestoreTargets(instances, Some(Selector([], "", Some(RoleIn(role)))))
              == RestoreTargets(instances, Some(Selector([], role, None)))
    ensures RestoreTargets(instances, Some(Selector([], "", Some(InstanceIn(name)))))
            == Ok(Filter(instances, (x: Instance) => x.name == name))
  {
    var byRole, byLabel := (x: Instance) => x.role == role, (x: Instance) => Matches(RoleIn(role), RestoreLabels(x));
    forall x ensures byRole(x) == byLabel(x) { InMeaning("role", role, [], [], RestoreLabels(x)); }
    FilterAlike(instances, byRole, byLabel);
    FilterNonEmpty(instances, byRole);
    var byName := (x: Instance) => x.name == name;
    var byInstance := (x: Instance) => Matches(InstanceIn(name), RestoreLabels(x));
    forall x ensures byName(x) == byInstance(x) { InMeaning("instance", name, [], [], RestoreLabels(x)); }
    FilterAlike(instances, byName, byInstance);
  }

  /** The four labels of the status: a user reaches every instance by the first two, and the
      instances of a role or a name by the others. */
  lemma StatusLabelMeaning(cluster: string, name: string, role: string, value: string)
    ensures var labels := StatusLabels(cluster, name, role);
            && (Matches(LabelSelector(map["app" := value], []), labels) <==> value == "postgres")
            && (Matches(LabelSelector(map["cluster" := value], []), labels) <==> value == cluster)
            && (Matches(LabelSelector(map["instance" := value], []), labels) <==> value == name)
            && (Matches(LabelSelector(map["role" := value], []), labels) <==> value == role)
            && labels.Keys == {"app", "cluster", "instance", "role"}
  {
    var labels := StatusLabels(cluster, name, role);
    MatchLabelsMeaning("app", value, labels);
    MatchLabelsMeaning("cluster", value, labels);
    MatchLabelsMeaning("instance", value, labels);
    MatchLabelsMeaning("role", value, labels);
  }

  /** What a user ends up with. */
  lemma UserMeaning(statuses: seq<InstanceStatus>, sel: Selector)
    ensures sel.names != [] ==> UserTargets(statuses, Some(sel)) == Ok(sel.names)
    ensures sel.names == [] && sel.role != "" ==>
              match UserTargets(statuses, Some(sel))
              case Err => forall x | x in statuses :: x.role != sel.role
              case Ok(names) =>
                names != [] && forall n :: n in names <==> exists x | x in statuses :: x.role == sel.role && x.name == n
    ensures sel.names == [] && sel.role == "" && sel.labels.Some? ==>
              match UserTargets(statuses, Some(sel))
              case Err =>
                ValidSelector(sel.labels.value) ==> forall x | x in statuses :: !Matches(sel.labels.value, x.labels)
              case Ok(names) =>
                && ValidSelector(sel.labels.value) && names != []
                && forall n :: n in names <==>
                     exists x | x in statuses :: Matches(sel.labels.value, x.labels) && x.name == n
    ensures sel.names == [] && sel.role == "" && sel.labels.None? ==>
              UserTargets(statuses, Some(sel)) == Ok(StatusNames(statuses))
  {
    hide Matches, ValidSelector;
    var byRole := (x: InstanceStatus) => x.role == sel.role;
    NamesOfFilter(statuses, byRole);
    FilterNonEmpty(statuses, byRole);
    if sel.labels.Some? {
      var byLabels := (x: InstanceStatus) => Matches(sel.labels.value, x.labels);
      NamesOfFilter(statuses, byLabels);
      FilterNonEmpty(statuses, byLabels);
    }
  }

  lemma NamesOfFilter(statuses: seq<InstanceStatus>, p: InstanceStatus -> bool)
    ensures forall n :: n in StatusNames(Filter(statuses, p)) <==> exists x | x in statuses :: p(x) && x.name == n
  {
    var hits := Filter(statuses, p);
    forall n ensures n in StatusNames(hits) <==> exists x | x in statuses :: p(x) && x.name == n {
      if n in StatusNames(hits) {
        var i :| 0 <= i < |hits| && StatusNames(hits)[i] == n;
        assert hits[i] in hits;
      }
      if exists x | x in statuses :: p(x) && x.name == n {
        var x :| x in statuses && p(x) && x.name == n;
        assert x in hits;
        var i :| 0 <= i < |hits| && hits[i] == x;
        assert StatusNames(hits)[i] == n;
      }
    }
  }
}
