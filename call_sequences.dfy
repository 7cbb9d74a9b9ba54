/**
 * A builder is driven by any number of setter calls in any order before it is
 * built. This module follows the state through such a sequence and proves the
 * per-field discipline: each accepted call overwrites its own field and no
 * other, a rejected call changes nothing, and the last accepted call on a
 * field decides that field's value.
 *
 * A rejected call throws in the source; a caller that catches the exception
 * may go on using the builder, so here the sequence simply continues from the
 * unchanged state.
 */
module CallSequences {
  import opened Wrappers
  import opened Configuration

  /** Two configurations that agree on every field are equal. */
  lemma {:induction false} FieldsDetermine(c: ContainerConfiguration, d: ContainerConfiguration)
    requires forall f :: Get(c, f) == Get(d, f)
    ensures c == d
  {
    assert Get(c, CreationTimeField) == Get(d, CreationTimeField);
    assert Get(c, EntrypointField) == Get(d, EntrypointField);
    assert Get(c, ProgramArgumentsField) == Get(d, ProgramArgumentsField);
    assert Get(c, EnvironmentMapField) == Get(d, EnvironmentMapField);
    assert Get(c, ExposedPortsField) == Get(d, ExposedPortsField);
  }

  /** True when `call` is accepted and writes field `f`. */
  predicate Writes(call: Setter, f: Field)
  {
    Accepted(call) && Target(call) == f
  }

  /**
   * The builder state after one call. An accepted call writes its own field
   * and leaves every other one alone; a rejected call leaves the whole state
   * as it was, because the check comes before the assignment.
   */
  function After(c: ContainerConfiguration, call: Setter): (r: ContainerConfiguration)
    ensures forall f :: Get(r, f) == (if Writes(call, f) then Written(call) else Get(c, f))
  {
    match Apply(c, call)
    case Success(d) => ApplyOverwrites(c, call); d
    case Failure(_) => c
  }

  /** The builder state after a sequence of calls, made in order. */
  function Run(c: ContainerConfiguration, calls: seq<Setter>): ContainerConfiguration
    decreases |calls|
  {
    if calls == [] then c else Run(After(c, calls[0]), calls[1..])
  }

  /** A field that no accepted call writes keeps its starting value. */
  lemma {:induction false} RunFrame(c: ContainerConfiguration, calls: seq<Setter>, f: Field)
    requires forall j :: 0 <= j < |calls| ==> !Writes(calls[j], f)
    ensures Get(Run(c, calls), f) == Get(c, f)
    decreases |calls|
  {
    if calls != [] {
      assert !Writes(calls[0], f);
      RunFrame(After(c, calls[0]), calls[1..], f);
    }
  }

  /**
   * Last write wins: when calls[i] is the last accepted call on its field,
   * that field ends up holding what calls[i] wrote, whatever came before.
   */
  lemma {:induction false} LastAcceptedWins(c: ContainerConfiguration, calls: seq<Setter>, i: nat)
    requires i < |calls| && Accepted(calls[i])
    requires forall j :: i < j < |calls| ==> !Writes(calls[j], Target(calls[i]))
    ensures Get(Run(c, calls), Target(calls[i])) == Written(calls[i])
    decreases |calls|
  {
    if i == 0 {
      RunFrame(After(c, calls[0]), calls[1..], Target(calls[0]));
    } else {
      LastAcceptedWins(After(c, calls[0]), calls[1..], i - 1);
    }
  }

  /** A sequence of calls none of which is accepted leaves the builder as it was. */
  lemma {:induction false} RejectedCallsChangeNothing(c: ContainerConfiguration, calls: seq<Setter>)
    requires forall j :: 0 <= j < |calls| ==> !Accepted(calls[j])
    ensures Run(c, calls) == c
  {
    forall f ensures Get(Run(c, calls), f) == Get(c, f) {
      RunFrame(c, calls, f);
    }
    FieldsDetermine(Run(c, calls), c);
  }

  /** Calling the same setter twice: an accepted second call replaces the first one's value. */
  lemma {:induction false} SecondCallWins(c: ContainerConfiguration, first: Setter, second: Setter)
    requires Target(first) == Target(second) && Accepted(second)
    ensures After(After(c, first), second) == After(c, second)
  {
  }

  /** Setters of different fields can be called in either order with the same result. */
  lemma {:induction false} DifferentFieldsCommute(c: ContainerConfiguration, a: Setter, b: Setter)
    requires Target(a) != Target(b)
    ensures After(After(c, a), b) == After(After(c, b), a)
  {
  }
}
