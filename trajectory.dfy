/** The single-run container: an insertion-ordered dictionary of named numeric
    series plus the run's metadata (model, solver name, return code, status). */
module Trajectories {

  /** The errors the container raises, named after the Python exceptions. */
  datatype Key = Index(i: int) | Name(s: string)

  datatype Error =
    | KeyError(key: Key)          // a missing dictionary key
    | IndexError                  // a list index out of range (including `data[0]` of an empty list)
    | TypeError                   // a list indexed by a string
    | AttributeError              // `.name` looked up on a model that is `None`
    | ValidationError(message: string)

  datatype Result<T> = Ok(value: T) | Err(error: Error)

  /** An optional argument; `None` is Python's default `None`. */
  datatype Option<T> = None | Some(value: T)

  /** The model object a run was produced by, compared by equality; `NoModel` is Python's `None`. */
  datatype ModelRef = NoModel | Model(ident: nat, name: string)

  /** A Python dict: its keys in insertion order and the value stored under each. */
  datatype OrderedDict = OrderedDict(keys: seq<string>, values: map<string, seq<real>>)
  {
    /** Keys are distinct and are exactly the map's domain. */
    ghost predicate Valid() {
      (forall i, j :: 0 <= i < j < |keys| ==> keys[i] != keys[j]) &&
      (forall s :: s in values <==> s in keys)
    }

    /** `d[key] = value`: a new key goes to the end, an existing key keeps its place. */
    function Insert(key: string, value: seq<real>): (d: OrderedDict)
      requires Valid()
      ensures d.Valid()
      ensures d.values == values[key := value]
      ensures key in keys ==> d.keys == keys
      ensures key !in keys ==> d.keys == keys + [key]
    {
      if key in values then OrderedDict(keys, values[key := value])
      else OrderedDict(keys + [key], values[key := value])
    }
  }

  function EmptyDict(): (d: OrderedDict)
    ensures d.Valid() && d.keys == [] && d.values == map[]
  {
    OrderedDict([], map[])
  }

  /** The reserved key of the time series. */
  const Time: string := "time"

  datatype Trajectory = Trajectory(data: OrderedDict, model: ModelRef, solverName: string, rc: int, status: string)
  {
    ghost predicate Valid() { data.Valid() }
  }

  /** The return-code table of `Trajectory.__init__`; it maps only two codes. */
  const StatusTable: map<int, string> := map[0 := "Success", 33 := "Timed Out"]

  /** `Trajectory(data, model, solver_name, rc)`: looking the status up in the partial table
      fails with a KeyError for every code other than 0 and 33. */
  function NewTrajectory(data: OrderedDict, model: ModelRef, solverName: string, rc: int): (r: Result<Trajectory>)
    ensures rc == 0 ==> r == Ok(Trajectory(data, model, solverName, 0, "Success"))
    ensures rc == 33 ==> r == Ok(Trajectory(data, model, solverName, 33, "Timed Out"))
    ensures rc != 0 && rc != 33 ==> r == Err(KeyError(Index(rc)))
    ensures r.Ok? ==> r.value.data == data && r.value.model == model && r.value.solverName == solverName
  {
    if rc in StatusTable then Ok(Trajectory(data, model, solverName, rc, StatusTable[rc]))
    else Err(KeyError(Index(rc)))
  }

  /** The value `Trajectory.__getitem__` returns: the trajectory itself or one series. */
  datatype Item = Run(run: Trajectory) | Values(values: seq<real>)

  /** `Trajectory.__getitem__`, with the returned flag telling whether the legacy-index warning
      is emitted. An integer key answers the trajectory itself; a string key answers its series
      or raises KeyError, since `Trajectory` defines no `__missing__`. */
  function GetItem(t: Trajectory, key: Key): (r: (Result<Item>, bool))
    requires t.Valid()
    ensures r.1 <==> key.Index?
    ensures key.Index? ==> r.0 == Ok(Run(t))
    ensures key.Name? ==> (r.0.Ok? <==> key.s in t.data.keys)
    ensures key.Name? && key.s in t.data.keys ==> r.0 == Ok(Values(t.data.values[key.s]))
    ensures key.Name? && key.s !in t.data.keys ==> r.0 == Err(KeyError(key))
  {
    match key
    case Index(_) => (Ok(Run(t)), true)
    case Name(s) =>
      if s in t.data.values then (Ok(Values(t.data.values[s])), false)
      else (Err(KeyError(key)), false)
  }

  /** The status of a constructed trajectory gives its return code back: the table is
      one-to-one. */
  lemma StatusDeterminesCode(data: OrderedDict, model: ModelRef, solverName: string, rc: int)
    requires NewTrajectory(data, model, solverName, rc).Ok?
    ensures rc == (if NewTrajectory(data, model, solverName, rc).value.status == "Success" then 0 else 33)
  {
  }

  /** The legacy spelling `trajectory[0][key]` reads the same as `trajectory[key]`. */
  lemma LegacyIndexTransparent(t: Trajectory, i: int, s: string)
    requires t.Valid()
    ensures GetItem(t, Index(i)).0.Ok? && GetItem(t, Index(i)).0.value.Run?
    ensures GetItem(GetItem(t, Index(i)).0.value.run, Name(s)) == GetItem(t, Name(s))
  {
  }
}
