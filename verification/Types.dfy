/** Values shared by the controllers: optional values, results without error text,
    the fate of one request to the API server, and the parts of the custom
    resources' specs that more than one controller reads. */
module Types {

  datatype Option<+T> = None | Some(value: T)

  /** An operation's result; error messages are not modelled. */
  datatype Result<+T> = Ok(value: T) | Err

  /** What becomes of one request. A `Lost` request takes effect although the caller
      is told it failed (a timeout, say); `Crash` stops the operator before the request. */
  datatype Fate = Served | Refused | Lost | Crash

  predicate Applied(f: Fate) { f == Served || f == Lost }

  /** How a reconcile pass ends. */
  datatype Outcome = Finished | Errored | Died

  datatype Database = Database(name: string, initScript: string)

  datatype Storage = Storage(volume: string, size: string, class_: string, modes: seq<string>)

  datatype Resources = Resources(cpu: string, memory: string)

  /** One entry of `spec.instances`; absent overrides fall back on the cluster. */
  datatype Instance = Instance(
    name: string,
    role: string,
    replicas: Option<int>,
    database: Option<Database>,
    storage: Option<Storage>,
    resources: Option<Resources>)

  function Names(instances: seq<Instance>): (names: seq<string>)
    ensures |names| == |instances|
    ensures forall i | 0 <= i < |names| :: names[i] == instances[i].name
  {
    seq(|instances|, i requires 0 <= i < |instances| => instances[i].name)
  }

  predicate Distinct<T(==)>(s: seq<T>) {
    forall i, j | 0 <= i < j < |s| :: s[i] != s[j]
  }

  /** The elements of `s` that satisfy `p`, in order. */
  function Filter<T>(s: seq<T>, p: T -> bool): (r: seq<T>)
    ensures forall x | x in r :: x in s && p(x)
    ensures forall x | x in s && p(x) :: x in r
  {
    if s == [] then []
    else
      var rest := Filter(s[..|s| - 1], p);
      if p(s[|s| - 1]) then rest + [s[|s| - 1]] else rest
  }

  /** Filtering goes element by element and keeps the order: with `FilterOne` this fixes it. */
  lemma {:induction false} FilterConcat<T>(a: seq<T>, b: seq<T>, p: T -> bool)
    ensures Filter(a + b, p) == Filter(a, p) + Filter(b, p)
  {
    hide Filter;
    if b == [] {
      FilterNone(p);
      assert a + b == a;
    } else {
      FilterConcat(a, b[..|b| - 1], p);
      FilterStep(a, b[..|b| - 1], b[|b| - 1], p);
      assert b == b[..|b| - 1] + [b[|b| - 1]];
    }
  }

  lemma FilterStep<T>(a: seq<T>, b: seq<T>, x: T, p: T -> bool)
    requires Filter(a + b, p) == Filter(a, p) + Filter(b, p)
    ensures Filter(a + (b + [x]), p) == Filter(a, p) + Filter(b + [x], p)
  {
    FilterMore(a + b, x, p);
    FilterMore(b, x, p);
    hide Filter;
    assert a + (b + [x]) == a + b + [x];
  }

  lemma FilterMore<T>(s: seq<T>, x: T, p: T -> bool)
    ensures Filter(s + [x], p) == if p(x) then Filter(s, p) + [x] else Filter(s, p)
  {
    assert (s + [x])[..|s|] == s;
  }

  lemma FilterNone<T>(p: T -> bool)
    ensures Filter([], p) == []
  {
  }

  lemma FilterOne<T>(x: T, p: T -> bool)
    ensures Filter([x], p) == if p(x) then [x] else []
  {
    assert [x][..0] == [];
  }
}
