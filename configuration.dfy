/**
 * The runtime configuration of a container (creation time, entrypoint,
 * program arguments, environment and exposed ports), its builder, and a
 * value-level description of what each builder setter does.
 *
 * Java's nullable references are `Option`s: a field that is `None` is unset,
 * which is not the same as a field that holds an empty list or map. A setter's
 * argument may itself contain nulls, so its elements (and the environment's
 * keys and values) are `Option`s too; the stored values never are.
 */
module Configuration {
  import opened Wrappers

  /** A point in time (java.time.Instant), on an integer scale. */
  type Instant = int

  /** Instant.EPOCH, the creation time of a builder nobody set one on. */
  const EPOCH: Instant := 0

  /** A network port with its protocol; only its equality matters here. */
  type Port(==)

  /** The one failure a setter can report: IllegalArgumentException. */
  datatype Error = IllegalArgument

  /** The immutable result of a build; its destructors are the getters. */
  datatype ContainerConfiguration = ContainerConfiguration(
    creationTime: Instant,
    entrypoint: Option<seq<string>>,
    programArguments: Option<seq<string>>,
    environmentMap: Option<map<string, string>>,
    exposedPorts: Option<seq<Port>>)

  /** What a fresh builder holds: the epoch and every collection unset. */
  const Defaults: ContainerConfiguration :=
    ContainerConfiguration(EPOCH, None, None, None, None)

  /** The immutable copy of a list that contains no null: the same elements, in order. */
  function CopyOf<T>(s: seq<Option<T>>): (r: seq<T>)
    requires None !in s
    ensures |r| == |s|
    ensures forall i :: 0 <= i < |s| ==> s[i] == Some(r[i])
  {
    if s == [] then [] else [s[0].value] + CopyOf(s[1..])
  }

  /** The immutable copy of a map that has no null key and no null value. */
  function CopyOfEnvironment(m: map<Option<string>, Option<string>>): (r: map<string, string>)
    requires None !in m.Keys && None !in m.Values
    ensures forall k :: k in r <==> Some(k) in m
    ensures forall k :: k in r ==> m[Some(k)] == Some(r[k])
  {
    var r := map k | k in m.Keys && k.Some? :: k.value := m[k].value;
    assert forall s | s in r :: r[Some(s).value] == m[Some(s)].value;
    r
  }

  /** One call of a builder setter, with the argument as the caller passed it. */
  datatype Setter =
    | CreationTime(time: Instant)
    | Entrypoint(tokens: Option<seq<Option<string>>>)
    | ProgramArguments(tokens: Option<seq<Option<string>>>)
    | Environment(env: Option<map<Option<string>, Option<string>>>)
    | ExposedPorts(ports: Option<seq<Option<Port>>>)

  /** The five fields a builder holds and a configuration reports. */
  datatype Field =
    CreationTimeField | EntrypointField | ProgramArgumentsField | EnvironmentMapField | ExposedPortsField

  /** The value of one field, whichever its type. */
  datatype FieldValue =
    | TimeValue(time: Instant)
    | TokensValue(tokens: Option<seq<string>>)
    | EnvironmentValue(env: Option<map<string, string>>)
    | PortsValue(ports: Option<seq<Port>>)

  function Get(c: ContainerConfiguration, f: Field): FieldValue
  {
    match f
    case CreationTimeField => TimeValue(c.creationTime)
    case EntrypointField => TokensValue(c.entrypoint)
    case ProgramArgumentsField => TokensValue(c.programArguments)
    case EnvironmentMapField => EnvironmentValue(c.environmentMap)
    case ExposedPortsField => PortsValue(c.exposedPorts)
  }

  /** The field a setter call is about. */
  function Target(call: Setter): Field
  {
    match call
    case CreationTime(_) => CreationTimeField
    case Entrypoint(_) => EntrypointField
    case ProgramArguments(_) => ProgramArgumentsField
    case Environment(_) => EnvironmentMapField
    case ExposedPorts(_) => ExposedPortsField
  }

  /** A list argument is acceptable when it is null or none of its elements is null. */
  predicate NullFreeList<T>(s: Option<seq<Option<T>>>)
  {
    s.Some? ==> forall i :: 0 <= i < |s.value| ==> s.value[i].Some?
  }

  /**
   * The arguments a setter accepts: any creation time; a list that is null or
   * has no null element; a map that is null or has neither a null key nor a
   * null value.
   */
  predicate Accepted(call: Setter)
  {
    match call
    case CreationTime(_) => true
    case Entrypoint(s) => NullFreeList(s)
    case ProgramArguments(s) => NullFreeList(s)
    case Environment(m) => m.Some? ==> forall k :: k in m.value ==> k.Some? && m.value[k].Some?
    case ExposedPorts(s) => NullFreeList(s)
  }

  /**
   * The effect of one setter call on the builder state `c`: the new state, or
   * the IllegalArgument error, in which case the call stored nothing. A null
   * list or map clears the field; a valid one is copied into it.
   */
  function Apply(c: ContainerConfiguration, call: Setter): (r: Result<ContainerConfiguration, Error>)
    ensures r.Failure? <==> !Accepted(call)
    ensures r.Failure? ==> r.error == IllegalArgument
    ensures r.Success? ==> forall f :: f != Target(call) ==> Get(r.value, f) == Get(c, f)
  {
    match call
    case CreationTime(t) => Success(c.(creationTime := t))
    case Entrypoint(s) =>
      if s.None? then Success(c.(entrypoint := None))
      else if None in s.value then Failure(IllegalArgument)
      else Success(c.(entrypoint := Some(CopyOf(s.value))))
    case ProgramArguments(s) =>
      if s.None? then Success(c.(programArguments := None))
      else if None in s.value then Failure(IllegalArgument)
      else Success(c.(programArguments := Some(CopyOf(s.value))))
    case Environment(m) =>
      if m.None? then Success(c.(environmentMap := None))
      else if None in m.value.Keys then Failure(IllegalArgument)
      else if None in m.value.Values then Failure(IllegalArgument)
      else Success(c.(environmentMap := Some(CopyOfEnvironment(m.value))))
    case ExposedPorts(s) =>
      if s.None? then Success(c.(exposedPorts := None))
      else if None in s.value then Failure(IllegalArgument)
      else Success(c.(exposedPorts := Some(CopyOf(s.value))))
  }

  /** The value an accepted call writes into its field, whatever the field held before. */
  function Written(call: Setter): FieldValue
    requires Accepted(call)
  {
    Get(Apply(Defaults, call).value, Target(call))
  }

  /** A setter overwrites its field: the value it leaves there does not depend on the old state. */
  lemma ApplyOverwrites(c: ContainerConfiguration, call: Setter)
    requires Accepted(call)
    ensures Get(Apply(c, call).value, Target(call)) == Written(call)
  {
  }

  /** A null argument unsets the field; an empty list or map sets it to an empty value. */
  lemma NullUnsetsEmptySets(c: ContainerConfiguration)
    ensures Apply(c, Entrypoint(None)).value.entrypoint == None
    ensures Apply(c, Entrypoint(Some([]))).value.entrypoint == Some([])
    ensures Apply(c, ProgramArguments(None)).value.programArguments == None
    ensures Apply(c, ProgramArguments(Some([]))).value.programArguments == Some([])
    ensures Apply(c, Environment(None)).value.environmentMap == None
    ensures Apply(c, Environment(Some(map[]))).value.environmentMap == Some(map[])
    ensures Apply(c, ExposedPorts(None)).value.exposedPorts == None
    ensures Apply(c, ExposedPorts(Some([]))).value.exposedPorts == Some([])
  {
  }

  /**
   * An accepted list is stored element by element, in order, duplicates kept;
   * an accepted map is stored with exactly its key-to-value pairs.
   */
  lemma AcceptedContentsStored(c: ContainerConfiguration, call: Setter)
    requires Accepted(call)
    ensures call.Entrypoint? && call.tokens.Some? ==>
      var e := Apply(c, call).value.entrypoint;
      e.Some? && |e.value| == |call.tokens.value| &&
      forall i :: 0 <= i < |e.value| ==> call.tokens.value[i] == Some(e.value[i])
    ensures call.ProgramArguments? && call.tokens.Some? ==>
      var a := Apply(c, call).value.programArguments;
      a.Some? && |a.value| == |call.tokens.value| &&
      forall i :: 0 <= i < |a.value| ==> call.tokens.value[i] == Some(a.value[i])
    ensures call.ExposedPorts? && call.ports.Some? ==>
      var p := Apply(c, call).value.exposedPorts;
      p.Some? && |p.value| == |call.ports.value| &&
      forall i :: 0 <= i < |p.value| ==> call.ports.value[i] == Some(p.value[i])
    ensures call.Environment? && call.env.Some? ==>
      var m := Apply(c, call).value.environmentMap;
      m.Some? &&
      (forall k, v :: k in m.value && m.value[k] == v <==> Some(k) in call.env.value && call.env.value[Some(k)] == Some(v))
  {
  }

  /** The builder; each setter checks its argument before it assigns the field. */
  class Builder {
    var creationTime: Instant
    var entrypoint: Option<seq<string>>
    var programArguments: Option<seq<string>>
    var environmentMap: Option<map<string, string>>
    var exposedPorts: Option<seq<Port>>

    /** The builder's state, as the configuration a build would now return. */
    function State(): ContainerConfiguration
      reads this
    {
      ContainerConfiguration(creationTime, entrypoint, programArguments, environmentMap, exposedPorts)
    }

    /** A new builder: creation time at the epoch, every other field unset. */
    constructor ()
      ensures State() == Defaults
      ensures creationTime == EPOCH
      ensures entrypoint.None? && programArguments.None? && environmentMap.None? && exposedPorts.None?
    {
      creationTime := EPOCH;
      entrypoint := None;
      programArguments := None;
      environmentMap := None;
      exposedPorts := None;
    }

    method SetCreationTime(time: Instant)
      modifies this
      ensures creationTime == time
      ensures entrypoint == old(entrypoint) && programArguments == old(programArguments)
      ensures environmentMap == old(environmentMap) && exposedPorts == old(exposedPorts)
      ensures Apply(old(State()), CreationTime(time)) == Success(State())
    {
      creationTime := time;
    }

    method SetProgramArguments(arguments: Option<seq<Option<string>>>) returns (r: Outcome<Error>)
      modifies this
      ensures r.Fail? <==> !NullFreeList(arguments)
      ensures r.Fail? ==> r.error == IllegalArgument && programArguments == old(programArguments)
      ensures arguments.None? ==> programArguments.None?
      ensures r.Pass? && arguments.Some? ==>
        programArguments.Some? && |programArguments.value| == |arguments.value| &&
        forall i :: 0 <= i < |arguments.value| ==> arguments.value[i] == Some(programArguments.value[i])
      ensures creationTime == old(creationTime) && entrypoint == old(entrypoint)
      ensures environmentMap == old(environmentMap) && exposedPorts == old(exposedPorts)
      ensures Apply(old(State()), ProgramArguments(arguments)) ==
        if r.Pass? then Success(State()) else Failure(r.error)
    {
      if arguments.None? {
        programArguments := None;
      } else {
        if None in arguments.value {
          return Fail(IllegalArgument);
        }
        programArguments := Some(CopyOf(arguments.value));
      }
      r := Pass;
    }

    method SetEnvironment(env: Option<map<Option<string>, Option<string>>>) returns (r: Outcome<Error>)
      modifies this
      ensures r.Fail? <==> env.Some? && (None in env.value.Keys || None in env.value.Values)
      ensures r.Fail? ==> r.error == IllegalArgument && environmentMap == old(environmentMap)
      ensures env.None? ==> environmentMap.None?
      ensures r.Pass? && env.Some? ==>
        environmentMap.Some? &&
        forall k, v :: k in environmentMap.value && environmentMap.value[k] == v <==>
          Some(k) in env.value && env.value[Some(k)] == Some(v)
      ensures creationTime == old(creationTime) && entrypoint == old(entrypoint)
      ensures programArguments == old(programArguments) && exposedPorts == old(exposedPorts)
      ensures Apply(old(State()), Environment(env)) ==
        if r.Pass? then Success(State()) else Failure(r.error)
    {
      if env.None? {
        environmentMap := None;
      } else {
        if None in env.value.Keys {
          return Fail(IllegalArgument);
        }
        if None in env.value.Values {
          return Fail(IllegalArgument);
        }
        environmentMap := Some(CopyOfEnvironment(env.value));
      }
      r := Pass;
    }

    method SetExposedPorts(ports: Option<seq<Option<Port>>>) returns (r: Outcome<Error>)
      modifies this
      ensures r.Fail? <==> !NullFreeList(ports)
      ensures r.Fail? ==> r.error == IllegalArgument && exposedPorts == old(exposedPorts)
      ensures ports.None? ==> exposedPorts.None?
      ensures r.Pass? && ports.Some? ==>
        exposedPorts.Some? && |exposedPorts.value| == |ports.value| &&
        forall i :: 0 <= i < |ports.value| ==> ports.value[i] == Some(exposedPorts.value[i])
      ensures creationTime == old(creationTime) && entrypoint == old(entrypoint)
      ensures programArguments == old(programArguments) && environmentMap == old(environmentMap)
      ensures Apply(old(State()), ExposedPorts(ports)) ==
        if r.Pass? then Success(State()) else Failure(r.error)
    {
      if ports.None? {
        exposedPorts := None;
      } else {
        if None in ports.value {
          return Fail(IllegalArgument);
        }
        exposedPorts := Some(CopyOf(ports.value));
      }
      r := Pass;
    }

    method SetEntrypoint(tokens: Option<seq<Option<string>>>) returns (r: Outcome<Error>)
      modifies this
      ensures r.Fail? <==> !NullFreeList(tokens)
      ensures r.Fail? ==> r.error == IllegalArgument && entrypoint == old(entrypoint)
      ensures tokens.None? ==> entrypoint.None?
      ensures r.Pass? && tokens.Some? ==>
        entrypoint.Some? && |entrypoint.value| == |tokens.value| &&
        forall i :: 0 <= i < |tokens.value| ==> tokens.value[i] == Some(entrypoint.value[i])
      ensures creationTime == old(creationTime) && programArguments == old(programArguments)
      ensures environmentMap == old(environmentMap) && exposedPorts == old(exposedPorts)
      ensures Apply(old(State()), Entrypoint(tokens)) ==
        if r.Pass? then Success(State()) else Failure(r.error)
    {
      if tokens.None? {
        entrypoint := None;
      } else {
        if None in tokens.value {
          return Fail(IllegalArgument);
        }
        entrypoint := Some(CopyOf(tokens.value));
      }
      r := Pass;
    }

    /** Never fails; the result holds exactly the builder's current field values. */
    method Build() returns (config: ContainerConfiguration)
      ensures config.creationTime == creationTime
      ensures config.entrypoint == entrypoint
      ensures config.programArguments == programArguments
      ensures config.environmentMap == environmentMap
      ensures config.exposedPorts == exposedPorts
    {
      config := ContainerConfiguration(creationTime, entrypoint, programArguments, environmentMap, exposedPorts);
    }
  }
}
