# Container configuration builder (jib-core)

A Dafny model of `ContainerConfiguration` in jib-core. This is the immutable
description of a container's runtime settings: creation time, entrypoint,
program arguments, environment variables and exposed ports. The model also
covers its `Builder`, which checks each argument before storing a copy of it.

- `wrappers.dfy`, module `Wrappers`: `Option` (a Java reference that may be
  null), `Result` and `Outcome`.
- `configuration.dfy`, module `Configuration`:
  - the value type `ContainerConfiguration`; its destructors are the five getters;
  - the value-level copies `CopyOf` and `CopyOfEnvironment`
    (`ImmutableList.copyOf`, `ImmutableMap.copyOf`);
  - `Setter`, one call of a setter with its argument as passed;
  - `Apply`, the effect of one such call on the builder state;
  - the `Builder` class, whose fields the setters overwrite in place.
    Each setter method is proved against `Apply`.
  - `builder()` is the `Builder` constructor.
- `call_sequences.dfy`, module `CallSequences`: the builder state after any
  sequence of setter calls (`Run`), with last-write-wins, framing and
  commutation lemmas.
- `scenarios.dfy`, module `Scenarios`: client methods. They show what a caller
  can conclude from the contracts alone: the defaults, a shell entrypoint with
  an environment, a refused port list, and an entrypoint that is set, refused,
  cleared and then set to empty.

Modelling choices:
- `Instant` is an `int` and `EPOCH` is `0`.
- `Port` is an abstract type with equality. Its definition is not part of
  this model.
- A Java `null` argument or field is `None`, and an element that may be null
  is an `Option`. An unset field (`None`) is therefore distinct from an empty
  one (`Some([])`, `Some(map[])`).
- `IllegalArgumentException` from `Preconditions.checkArgument` is the
  returned `Fail(IllegalArgument)`. The check comes before the assignment, so
  a refused call leaves the builder as it was.

Exposed ports are a `List<Port>` in the code, so the model keeps them as a
sequence in the caller's order, with duplicates. It does not treat them as a set.

## Model

| member | source | states |
|---|---|---|
| Configuration.CopyOf | jib-core/src/main/java/com/google/cloud/tools/jib/configuration/ContainerConfiguration.java:63 | the copy of a null-free list has the same length, and input element i is exactly copy element i (order and duplicates kept) |
| Configuration.CopyOfEnvironment | jib-core/src/main/java/com/google/cloud/tools/jib/configuration/ContainerConfiguration.java:80 | key k maps to v in the copy exactly when the input maps Some(k) to Some(v): the same key-to-value pairs, no more |
| Configuration.Apply | jib-core/src/main/java/com/google/cloud/tools/jib/configuration/ContainerConfiguration.java:47-115 | a setter call fails with IllegalArgument exactly when its list has a null element or its map a null key or value; an accepted call leaves every field but its own unchanged |
| Configuration.ApplyOverwrites | jib-core/src/main/java/com/google/cloud/tools/jib/configuration/ContainerConfiguration.java:47-115 | what an accepted call leaves in its field does not depend on the field's previous value |
| Configuration.NullUnsetsEmptySets | jib-core/src/main/java/com/google/cloud/tools/jib/configuration/ContainerConfiguration.java:58-115 | a null argument makes the field unset (None); an empty list or map makes it Some(empty), a different state |
| Configuration.AcceptedContentsStored | jib-core/src/main/java/com/google/cloud/tools/jib/configuration/ContainerConfiguration.java:58-115 | an accepted list is stored element by element in order; an accepted map is stored with exactly its key-to-value pairs |
| Configuration.Builder.constructor | jib-core/src/main/java/com/google/cloud/tools/jib/configuration/ContainerConfiguration.java:35-39 | a new builder holds creation time EPOCH and all four collections unset |
| Configuration.Builder.SetCreationTime | jib-core/src/main/java/com/google/cloud/tools/jib/configuration/ContainerConfiguration.java:47-50 | stores the given time and leaves the other four fields unchanged; agrees with Apply |
| Configuration.Builder.SetProgramArguments | jib-core/src/main/java/com/google/cloud/tools/jib/configuration/ContainerConfiguration.java:58-66 | fails exactly when the list holds a null, and then the field is unchanged; null unsets; otherwise the arguments are stored element-wise; other fields unchanged; agrees with Apply |
| Configuration.Builder.SetEnvironment | jib-core/src/main/java/com/google/cloud/tools/jib/configuration/ContainerConfiguration.java:74-83 | fails exactly when the map has a null key or a null value, and then the field is unchanged; null unsets; otherwise exactly the input's pairs are stored; other fields unchanged; agrees with Apply |
| Configuration.Builder.SetExposedPorts | jib-core/src/main/java/com/google/cloud/tools/jib/configuration/ContainerConfiguration.java:91-99 | fails exactly when the list holds a null, and then the field is unchanged; null unsets; otherwise the ports are stored element-wise, in order; other fields unchanged; agrees with Apply |
| Configuration.Builder.SetEntrypoint | jib-core/src/main/java/com/google/cloud/tools/jib/configuration/ContainerConfiguration.java:107-115 | fails exactly when the list holds a null, and then the field is unchanged; null unsets; otherwise the tokens are stored element-wise; other fields unchanged; agrees with Apply |
| Configuration.Builder.Build | jib-core/src/main/java/com/google/cloud/tools/jib/configuration/ContainerConfiguration.java:122-125 | never fails; each getter of the result returns exactly the builder's field value at build time |
| CallSequences.After | jib-core/src/main/java/com/google/cloud/tools/jib/configuration/ContainerConfiguration.java:47-115 | after one call, a field holds what the call wrote if the call was accepted and targets that field, and its old value otherwise |
| CallSequences.RunFrame | jib-core/src/main/java/com/google/cloud/tools/jib/configuration/ContainerConfiguration.java:47-115 | across any sequence of calls, a field that no accepted call targets keeps its starting value |
| CallSequences.LastAcceptedWins | jib-core/src/main/java/com/google/cloud/tools/jib/configuration/ContainerConfiguration.java:47-115 | across any sequence of calls, a field ends up holding what the last accepted call on it wrote |
| CallSequences.RejectedCallsChangeNothing | jib-core/src/main/java/com/google/cloud/tools/jib/configuration/ContainerConfiguration.java:58-115 | a sequence of refused calls leaves the whole builder state as it was |
| CallSequences.SecondCallWins | jib-core/src/main/java/com/google/cloud/tools/jib/configuration/ContainerConfiguration.java:47-115 | calling a setter twice, the accepted second call gives the same state as if the first had not been made |
| CallSequences.DifferentFieldsCommute | jib-core/src/main/java/com/google/cloud/tools/jib/configuration/ContainerConfiguration.java:47-115 | calls to setters of different fields give the same state in either order |

## Left out

- Configuration.Builder.SetCreationTime: Java accepts a null `Instant` and stores it, so `getCreationTime` could then return null. `Instant` here is an `int`, which cannot be null.
- Nanosecond precision and arithmetic of `Instant`: only an opaque timestamp with an epoch value is modelled.
- The definition of `Port` (number and protocol): not part of this model; only its equality is used.
- Fluent chaining (`return this`): the setters return only their outcome; the state change is what is modelled.
- Defensive copying and aliasing: Dafny sequences and maps are values, so a caller cannot mutate a stored copy afterwards. Only the value-level effect of `ImmutableList.copyOf` and `ImmutableMap.copyOf` is modelled.
- Iteration order of `ImmutableMap`: environments are compared as key-to-value maps only.
- Exceptions are returned outcomes. The model does not capture a Java exception propagating through the caller's stack. A caller that catches it and goes on with the builder is modelled by `CallSequences.Run`.
- Thread safety of the builder and of the built value: no concurrency is modelled.
