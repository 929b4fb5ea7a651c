# Runtime keys and backend capabilities

This project is a Dafny model of the `RuntimeKey` enum of the Cromwell workflow engine. The enum is a fixed table of the runtime attributes a task may carry (`continueOnReturnCode`, `cpu`, `disks`, `zones`, `docker`, `failOnStderr`, `memory`, `preemptible`, `bootDiskSizeGb`). Each entry has a canonical name, the backend types on which it is mandatory and the backend types on which it is optional. The enum also provides four queries:

- `isMandatory`: is the key mandatory on a backend?
- `isOptional`: is the key optional on a backend?
- `supports`: is it either of the two?
- `from`: a case-insensitive lookup by name, which fails when no name matches.

Files:

- `backend_type.dfy` (module `BackendTypes`): the four backend tags `Local`, `Sge`, `Jes` and `Lsf`, as a closed datatype.
- `runtime_key.dfy` (module `RuntimeKeys`) holds the following:
  - the enum constants as a datatype `RuntimeKey`;
  - their final fields as a `KeyInfo` record with `key`, `mandatory` and `optional`. The Java arrays become sequences, so order and repetitions are kept;
  - the two Java constructors, as `OptionalOnly` and `WithMandatory`;
  - `values()`, as `Values()` in declaration order;
  - the three looping queries, as methods whose `for` loops return early, each proved against a pure definition;
  - `supports`, as a method that calls the other two.

A pure recursive `Find` over the table specifies lookup, and `Lookup(str)` is `Find(Values(), str)`. The method `From` is proved to return exactly `Lookup(str)`. The lemmas about lookup and about the table are stated on these functions.

The failure of `from` becomes the error value `NotValid(str)`, which carries the input string. It is the only failure: the other operations have no precondition and always answer.

## Model

| member | source | states |
|---|---|---|
| `RuntimeKeys.Info` | engine/src/main/scala/cromwell/engine/backend/runtimeattributes/RuntimeKey.java:12-20 | definition, no contract: the constructor call each constant is declared with (name, mandatory array, optional array) |
| `RuntimeKeys.OptionalOnly` | engine/src/main/scala/cromwell/engine/backend/runtimeattributes/RuntimeKey.java:35-37 | definition, no contract: the one-array constructor delegates to the two-array one with an empty mandatory array |
| `RuntimeKeys.WithMandatory` | engine/src/main/scala/cromwell/engine/backend/runtimeattributes/RuntimeKey.java:39-43 | definition, no contract: the two-array constructor stores name and both arrays as given |
| `RuntimeKeys.Values` | engine/src/main/scala/cromwell/engine/backend/runtimeattributes/RuntimeKey.java:64 | definition, no contract: `values()`, the constants in declaration order |
| `RuntimeKeys.ToLower` | engine/src/main/scala/cromwell/engine/backend/runtimeattributes/RuntimeKey.java:65 | definition, no contract: ASCII case folding of one character |
| `RuntimeKeys.EqualsIgnoreCase` | engine/src/main/scala/cromwell/engine/backend/runtimeattributes/RuntimeKey.java:65 | definition, no contract: equal length and equal characters after ASCII case folding |
| `RuntimeKeys.Lookup` | engine/src/main/scala/cromwell/engine/backend/runtimeattributes/RuntimeKey.java:63-68 | definition, no contract: the first-match search over `values()`; its meaning is fixed by `Find` and the lookup lemmas |
| `RuntimeKeys.Supported` | engine/src/main/scala/cromwell/engine/backend/runtimeattributes/RuntimeKey.java:72-74 | definition, no contract: optional or mandatory membership, the specification of `Supports` |
| `RuntimeKeys.IsMandatory` | engine/src/main/scala/cromwell/engine/backend/runtimeattributes/RuntimeKey.java:45-52 | the scan returns true iff the backend occurs in the key's mandatory array, otherwise false |
| `RuntimeKeys.IsOptional` | engine/src/main/scala/cromwell/engine/backend/runtimeattributes/RuntimeKey.java:54-61 | the scan returns true iff the backend occurs in the key's optional array, otherwise false |
| `RuntimeKeys.Supports` | engine/src/main/scala/cromwell/engine/backend/runtimeattributes/RuntimeKey.java:69-74 | total: for every key and backend, true iff the backend is in the optional or the mandatory array |
| `RuntimeKeys.Find` | engine/src/main/scala/cromwell/engine/backend/runtimeattributes/RuntimeKey.java:63-68 | a success is a key of the scanned sequence whose name equals the input ignoring case; failure happens iff no key matches, and it carries the input |
| `RuntimeKeys.From` | engine/src/main/scala/cromwell/engine/backend/runtimeattributes/RuntimeKey.java:63-68 | the loop over `values()` with early return gives the same result as the first-match lookup over the table |
| `RuntimeKeys.ValuesEnumerates` | engine/src/main/scala/cromwell/engine/backend/runtimeattributes/RuntimeKey.java:11-20 | every enum constant is in `values()`, so scanning `values()` scans the whole enum |
| `RuntimeKeys.EqualsIgnoreCaseIsEquivalence` | engine/src/main/scala/cromwell/engine/backend/runtimeattributes/RuntimeKey.java:65 | the case-insensitive comparison used by the lookup is reflexive, symmetric and transitive |
| `RuntimeKeys.KeysDistinct` | engine/src/main/scala/cromwell/engine/backend/runtimeattributes/RuntimeKey.java:12-20 | no two constants have names that are equal ignoring case |
| `RuntimeKeys.LookupFindsUnique` | engine/src/main/scala/cromwell/engine/backend/runtimeattributes/RuntimeKey.java:63-68 | any string equal to a key's name ignoring case looks up exactly that key, so the match is unique |
| `RuntimeKeys.LookupRoundTrip` | engine/src/main/scala/cromwell/engine/backend/runtimeattributes/RuntimeKey.java:12-20 | looking up a constant's own name returns that constant, for every constant |
| `RuntimeKeys.LookupFailsOnlyWhenUnmatched` | engine/src/main/scala/cromwell/engine/backend/runtimeattributes/RuntimeKey.java:63-68 | lookup fails iff no constant's name matches ignoring case, and the failure carries the input string |
| `RuntimeKeys.LookupIgnoresCase` | engine/src/main/scala/cromwell/engine/backend/runtimeattributes/RuntimeKey.java:65 | two names that are equal ignoring case either both fail or both find the same key |
| `RuntimeKeys.DockerInAnyCase` | engine/src/main/scala/cromwell/engine/backend/runtimeattributes/RuntimeKey.java:16 | "docker", "DOCKER" and "Docker" all look up `DOCKER` |
| `RuntimeKeys.SpelledAsDocker` | engine/src/main/scala/cromwell/engine/backend/runtimeattributes/RuntimeKey.java:16 | any six-letter name that lowers to "docker" looks up `DOCKER` |
| `RuntimeKeys.UnknownNameRejected` | engine/src/main/scala/cromwell/engine/backend/runtimeattributes/RuntimeKey.java:63-68 | "bogusAttr" is rejected with an error carrying "bogusAttr" |
| `RuntimeKeys.MandatoryOptionalDisjoint` | engine/src/main/scala/cromwell/engine/backend/runtimeattributes/RuntimeKey.java:29-33 | for every key, no backend is in both its mandatory and its optional array; the source states this as a convention, and the table keeps it |
| `RuntimeKeys.OnlyDockerIsMandatory` | engine/src/main/scala/cromwell/engine/backend/runtimeattributes/RuntimeKey.java:12-20 | a backend is in a key's mandatory array iff the key is `DOCKER` and the backend is JES; all other entries use the one-array constructor, which gives an empty mandatory array (lines 35-37) |
| `RuntimeKeys.DockerCapabilities` | engine/src/main/scala/cromwell/engine/backend/runtimeattributes/RuntimeKey.java:16 | `DOCKER` is mandatory and not optional on JES, optional and not mandatory on LOCAL, and not supported on SGE or LSF |
| `RuntimeKeys.SupportedEverywhere` | engine/src/main/scala/cromwell/engine/backend/runtimeattributes/RuntimeKey.java:12-17 | `CONTINUE_ON_RETURN_CODE` and `FAIL_ON_STDERR` are supported on all four backends and mandatory on none |
| `RuntimeKeys.SupportedOnlyOnJes` | engine/src/main/scala/cromwell/engine/backend/runtimeattributes/RuntimeKey.java:13-20 | `CPU`, `DISKS`, `ZONES`, `MEMORY`, `PREEMPTIBLE` and `BOOT_DISK` are supported on a backend iff it is JES, and mandatory on none |

## Left out

- The backend type class is not part of this model. Only its four constants, imported at lines 4-7, are modelled, as a closed datatype compared by identity.
- `String.equalsIgnoreCase` is a library call. It is modelled as ASCII case folding (`ToLower`, `EqualsIgnoreCase`). Java also folds non-ASCII letters, comparing `toLowerCase(toUpperCase(c))` per character, so some non-ASCII names match an ASCII key there. For example, Java's `from("doc\u212Aer")` (with the Kelvin sign) returns `DOCKER`, and `from("di\u017Fks")` (with the long s) returns `DISKS`. For both inputs the model's `Lookup` returns `Err`.
- Passing `null` to `from`: Java would throw a `NullPointerException`. Dafny strings cannot be null, so this case does not arise.
- Passing `null` to `isMandatory`, `isOptional` or `supports`: Java returns false without throwing, because the comparisons at lines 47 and 56 use `==`. The model's `BackendType` has no null value, so these calls are not modelled.
- The `mandatory` and `optional` fields are `public final` arrays (lines 27 and 33). `final` fixes only the array reference, so any caller can overwrite elements, for example `CPU.optional[0] = LOCAL`, which changes later `isMandatory`, `isOptional` and `supports` answers. The model assumes no caller writes into them. The table lemmas (`MandatoryOptionalDisjoint`, `OnlyDockerIsMandatory`, `DockerCapabilities`, `SupportedEverywhere`, `SupportedOnlyOnJes`) therefore hold for the table as declared, not after such a write.
- The exception class and its message text (line 67) are left out. The failure is the error value `NotValid(str)`.
- Java enum machinery other than `values()` (`ordinal`, `valueOf`, reflection) is left out. `values()` is the sequence `Values()` in declaration order.
- Repeated calls to `from` return the same answer. The model gets this for free because `Lookup` is a function of its input over a constant table, so no separate lemma states it.
- Concurrent access is not modelled. The source never writes the arrays after construction, but it does not stop callers from writing them, and no synchronization is involved.
