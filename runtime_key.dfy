/**
 * Backend runtime keys and the backends which are known to support them.
 *
 * A runtime key is one of a fixed set of attribute names a workflow task may
 * carry (cpu, memory, docker, ...). Each key has a canonical name, the backend
 * types on which it is mandatory and the backend types on which it is optional.
 * The queries below only read the table. The model takes the table as
 * declared: the source's arrays are public and writable, and nothing here
 * accounts for a caller writing into them.
 */
module RuntimeKeys {
  import opened BackendTypes

  // ---------------------------------------------------------------------------
  // The table
  // ---------------------------------------------------------------------------

  /** The enum constants, in declaration order (see `Values`). */
  datatype RuntimeKey =
    | ContinueOnReturnCode
    | Cpu
    | Disks
    | Zones
    | Docker
    | FailOnStderr
    | Memory
    | Preemptible
    | BootDisk

  /**
   * The final fields every constant carries. `mandatory` and `optional` are
   * arrays in the source, so they are kept as sequences (order and repetitions
   * preserved), not as sets.
   */
  datatype KeyInfo = KeyInfo(key: string, mandatory: seq<BackendType>, optional: seq<BackendType>)

  /** The one-array constructor: no backend on which the key is mandatory. */
  function OptionalOnly(key: string, optional: seq<BackendType>): KeyInfo {
    WithMandatory(key, [], optional)
  }

  /** The two-array constructor, which stores its arguments as they are. */
  function WithMandatory(key: string, mandatory: seq<BackendType>, optional: seq<BackendType>): KeyInfo {
    KeyInfo(key, mandatory, optional)
  }

  /** The constructor call each constant is declared with. */
  function Info(k: RuntimeKey): KeyInfo {
    match k
    case ContinueOnReturnCode => OptionalOnly("continueOnReturnCode", [Local, Sge, Jes, Lsf])
    case Cpu => OptionalOnly("cpu", [Jes])
    case Disks => OptionalOnly("disks", [Jes])
    case Zones => OptionalOnly("zones", [Jes])
    case Docker => WithMandatory("docker", [Jes], [Local])
    case FailOnStderr => OptionalOnly("failOnStderr", [Jes, Local, Sge, Lsf])
    case Memory => OptionalOnly("memory", [Jes])
    case Preemptible => OptionalOnly("preemptible", [Jes])
    case BootDisk => OptionalOnly("bootDiskSizeGb", [Jes])
  }

  /** The enum's `values()`: every constant once, in declaration order. */
  function Values(): seq<RuntimeKey> {
    [ContinueOnReturnCode, Cpu, Disks, Zones, Docker, FailOnStderr, Memory, Preemptible, BootDisk]
  }

  lemma ValuesEnumerates(k: RuntimeKey)
    ensures k in Values()
  {
  }

  // ---------------------------------------------------------------------------
  // Capability queries
  // ---------------------------------------------------------------------------

  /** True when `backendType` appears in the key's mandatory array. */
  method IsMandatory(k: RuntimeKey, backendType: BackendType) returns (r: bool)
    ensures r <==> backendType in Info(k).mandatory
  {
    var mandatory := Info(k).mandatory;
    for i := 0 to |mandatory|
      invariant backendType !in mandatory[..i]
    {
      if mandatory[i] == backendType {
        return true;
      }
    }
    return false;
  }

  /** True when `backendType` appears in the key's optional array. */
  method IsOptional(k: RuntimeKey, backendType: BackendType) returns (r: bool)
    ensures r <==> backendType in Info(k).optional
  {
    var optional := Info(k).optional;
    for i := 0 to |optional|
      invariant backendType !in optional[..i]
    {
      if optional[i] == backendType {
        return true;
      }
    }
    return false;
  }

  /** A key is supported on a backend when it is optional or mandatory there. */
  predicate Supported(k: RuntimeKey, backendType: BackendType) {
    backendType in Info(k).optional || backendType in Info(k).mandatory
  }

  /** Total: every (key, backend) pair gets an answer, never a failure. */
  method Supports(k: RuntimeKey, backendType: BackendType) returns (r: bool)
    ensures r <==> Supported(k, backendType)
  {
    var optional := IsOptional(k, backendType);
    var mandatory := IsMandatory(k, backendType);
    r := optional || mandatory;
  }

  // ---------------------------------------------------------------------------
  // Lookup by name
  // ---------------------------------------------------------------------------

  /** ASCII case folding to lower case. */
  function ToLower(c: char): char {
    if 'A' <= c <= 'Z' then (c as int + 32) as char else c
  }

  /** String equality ignoring the case of ASCII letters. */
  predicate EqualsIgnoreCase(s: string, t: string) {
    |s| == |t| && forall i :: 0 <= i < |s| ==> ToLower(s[i]) == ToLower(t[i])
  }

  lemma EqualsIgnoreCaseIsEquivalence(s: string, t: string, u: string)
    ensures EqualsIgnoreCase(s, s)
    ensures EqualsIgnoreCase(s, t) ==> EqualsIgnoreCase(t, s)
    ensures EqualsIgnoreCase(s, t) && EqualsIgnoreCase(t, u) ==> EqualsIgnoreCase(s, u)
  {
  }

  /** The failure of a lookup: the name that matched no key. */
  datatype KeyError = NotValid(str: string)

  datatype Result<T> = Ok(value: T) | Err(error: KeyError)

  /**
   * The first key of `keys` whose name equals `str` ignoring case, or an error
   * carrying `str` when there is none.
   */
  function Find(keys: seq<RuntimeKey>, str: string): (r: Result<RuntimeKey>)
    ensures r.Ok? ==> r.value in keys && EqualsIgnoreCase(str, Info(r.value).key)
    ensures r.Err? ==> r.error == NotValid(str)
    ensures r.Err? <==> forall k :: k in keys ==> !EqualsIgnoreCase(str, Info(k).key)
  {
    if keys == [] then Err(NotValid(str))
    else if EqualsIgnoreCase(str, Info(keys[0]).key) then Ok(keys[0])
    else Find(keys[1..], str)
  }

  /** The result `From(str)` is proved to return. */
  function Lookup(str: string): Result<RuntimeKey> {
    Find(Values(), str)
  }

  /** Scans the constants in declaration order; fails only when none matches. */
  method From(str: string) returns (r: Result<RuntimeKey>)
    ensures r == Lookup(str)
  {
    var values := Values();
    for i := 0 to |values|
      invariant Find(values[i..], str) == Find(values, str)
    {
      assert values[i..][1..] == values[i + 1..];
      if EqualsIgnoreCase(str, Info(values[i]).key) {
        return Ok(values[i]);
      }
    }
    return Err(NotValid(str));
  }

  // ---------------------------------------------------------------------------
  // Properties of lookup
  // ---------------------------------------------------------------------------

  /** Lowered length and first letter of a key name. */
  function Signature(k: RuntimeKey): (int, char) {
    var key := Info(k).key;
    (|key|, if |key| == 0 then ' ' else ToLower(key[0]))
  }

  /** No two constants have names that are equal ignoring case. */
  lemma KeysDistinct(k1: RuntimeKey, k2: RuntimeKey)
    requires EqualsIgnoreCase(Info(k1).key, Info(k2).key)
    ensures k1 == k2
  {
    assert Signature(k1) == Signature(k2);
  }

  /** Any spelling of a key's name, in any case, finds exactly that key. */
  lemma LookupFindsUnique(str: string, k: RuntimeKey)
    requires EqualsIgnoreCase(str, Info(k).key)
    ensures Lookup(str) == Ok(k)
  {
    ValuesEnumerates(k);
    var r := Lookup(str);
    assert r.Ok?;
    EqualsIgnoreCaseIsEquivalence(Info(k).key, str, Info(r.value).key);
    KeysDistinct(k, r.value);
  }

  /** Round trip: looking up a constant's own name gives back that constant. */
  lemma LookupRoundTrip(k: RuntimeKey)
    ensures Lookup(Info(k).key) == Ok(k)
  {
    EqualsIgnoreCaseIsEquivalence(Info(k).key, Info(k).key, Info(k).key);
    LookupFindsUnique(Info(k).key, k);
  }

  /** Lookup fails exactly when no constant's name matches, and then carries the input. */
  lemma LookupFailsOnlyWhenUnmatched(str: string)
    ensures Lookup(str).Err? <==> forall k :: !EqualsIgnoreCase(str, Info(k).key)
    ensures Lookup(str).Err? ==> Lookup(str).error == NotValid(str)
  {
    if Lookup(str).Err? {
      forall k ensures !EqualsIgnoreCase(str, Info(k).key) {
        ValuesEnumerates(k);
      }
    }
  }

  /** Two names equal ignoring case look up the same key, or both fail. */
  lemma LookupIgnoresCase(s: string, t: string)
    requires EqualsIgnoreCase(s, t)
    ensures Lookup(s).Ok? <==> Lookup(t).Ok?
    ensures Lookup(s).Ok? ==> Lookup(s) == Lookup(t)
  {
    EqualsIgnoreCaseIsEquivalence(s, t, s);
    if Lookup(s).Ok? {
      var k := Lookup(s).value;
      EqualsIgnoreCaseIsEquivalence(t, s, Info(k).key);
      LookupFindsUnique(t, k);
    } else if Lookup(t).Ok? {
      var k := Lookup(t).value;
      EqualsIgnoreCaseIsEquivalence(s, t, Info(k).key);
      LookupFindsUnique(s, k);
    }
  }

  lemma DockerInAnyCase()
    ensures Lookup("docker") == Ok(Docker)
    ensures Lookup("DOCKER") == Ok(Docker)
    ensures Lookup("Docker") == Ok(Docker)
  {
    LookupRoundTrip(Docker);
    SpelledAsDocker("DOCKER");
    SpelledAsDocker("Docker");
  }

  /** Helper: a six-letter name that lowers to d, o, c, k, e, r finds Docker. */
  lemma SpelledAsDocker(str: string)
    requires |str| == 6
    requires ToLower(str[0]) == 'd' && ToLower(str[1]) == 'o' && ToLower(str[2]) == 'c'
    requires ToLower(str[3]) == 'k' && ToLower(str[4]) == 'e' && ToLower(str[5]) == 'r'
    ensures Lookup(str) == Ok(Docker)
  {
    var key := Info(Docker).key;
    assert key == "docker";
    assert EqualsIgnoreCase(str, key);
    LookupFindsUnique(str, Docker);
  }

  lemma UnknownNameRejected()
    ensures Lookup("bogusAttr") == Err(NotValid("bogusAttr"))
  {
    forall k ensures !EqualsIgnoreCase("bogusAttr", Info(k).key) {
      assert |Info(k).key| != 9;
    }
    LookupFailsOnlyWhenUnmatched("bogusAttr");
  }

  // ---------------------------------------------------------------------------
  // Properties of the table
  // ---------------------------------------------------------------------------

  /** No backend is listed as both mandatory and optional for the same key. */
  lemma MandatoryOptionalDisjoint(k: RuntimeKey, b: BackendType)
    ensures !(b in Info(k).mandatory && b in Info(k).optional)
  {
  }

  /** Docker on JES is the only mandatory (key, backend) pair. */
  lemma OnlyDockerIsMandatory(k: RuntimeKey, b: BackendType)
    ensures b in Info(k).mandatory <==> k == Docker && b == Jes
  {
  }

  /** Docker: mandatory on JES, optional on local, unknown to SGE and LSF. */
  lemma DockerCapabilities()
    ensures Jes in Info(Docker).mandatory && Jes !in Info(Docker).optional
    ensures Local in Info(Docker).optional && Local !in Info(Docker).mandatory
    ensures !Supported(Docker, Sge) && !Supported(Docker, Lsf)
  {
  }

  /** continueOnReturnCode and failOnStderr: optional on every backend. */
  lemma SupportedEverywhere(k: RuntimeKey, b: BackendType)
    requires k == ContinueOnReturnCode || k == FailOnStderr
    ensures Supported(k, b) && b !in Info(k).mandatory
  {
  }

  /** cpu, disks, zones, memory, preemptible and bootDiskSizeGb: JES only. */
  lemma SupportedOnlyOnJes(k: RuntimeKey, b: BackendType)
    requires k in {Cpu, Disks, Zones, Memory, Preemptible, BootDisk}
    ensures Supported(k, b) <==> b == Jes
    ensures b !in Info(k).mandatory
  {
  }
}
