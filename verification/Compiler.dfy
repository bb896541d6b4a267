/** The policy compiler: a generation-checked cache in front of the CEL engine. */
module Compiler {
  import opened Wrappers
  import opened Cel
  import opened Api
  import opened Lru

  datatype CompiledPolicy = CompiledPolicy(
    observedGeneration: int,
    matchCondition: Program,
    target: Program,
    downloaderParams: Option<Program>,
    forEach: Option<Program>,
    profileParams: Option<Program>)

  datatype Stage = MatchStage | TargetStage | DownloaderStage | ForEachStage | ProfileStage

  datatype CompileError = CompileError(stage: Stage, cause: string)

  type Outcome = Result<CompiledPolicy, CompileError>

  /** What each (UID, generation) pair holds; the API server never reuses a pair for another spec. */
  type Registry = (string, int) -> Expressions

  // ----- Compiling afresh -----

  function Required(cel: Engine, source: string, stage: Stage): Result<Program, CompileError> {
    match cel.compile(source)
    case Ok(p) => Ok(p)
    case Err(e) => Err(CompileError(stage, e))
  }

  function Optional(cel: Engine, source: Option<string>, stage: Stage): Result<Option<Program>, CompileError> {
    match source
    case None => Ok(None)
    case Some(s) =>
      match cel.compile(s)
      case Ok(p) => Ok(Some(p))
      case Err(e) => Err(CompileError(stage, e))
  }

  /** The value `compile` must return. */
  function Compiled(cel: Engine, e: Expressions, generation: int): Outcome {
    match Required(cel, e.matchCondition, MatchStage)
    case Err(x) => Err(x)
    case Ok(m) =>
      match Required(cel, e.target, TargetStage)
      case Err(x) => Err(x)
      case Ok(t) =>
        match Optional(cel, e.downloaderParams, DownloaderStage)
        case Err(x) => Err(x)
        case Ok(d) =>
          match Optional(cel, e.forEach, ForEachStage)
          case Err(x) => Err(x)
          case Ok(f) =>
            match Optional(cel, e.profileParams, ProfileStage)
            case Err(x) => Err(x)
            case Ok(p) => Ok(CompiledPolicy(generation, m, t, d, f, p))
  }

  /** The program of each expression, in the order in which they are compiled. */
  function Sources(e: Expressions): seq<Option<string>> {
    [Some(e.matchCondition), Some(e.target), e.downloaderParams, e.forEach, e.profileParams]
  }

  /** The programs of a compiled policy, in the same order. */
  function Programs(c: CompiledPolicy): seq<Option<Program>> {
    [Some(c.matchCondition), Some(c.target), c.downloaderParams, c.forEach, c.profileParams]
  }

  /** The program belongs to the source: both are absent, or one is compiled from the other. */
  predicate Belongs(cel: Engine, source: Option<string>, program: Option<Program>) {
    if source.None? then program.None? else program.Some? && cel.compile(source.value) == Ok(program.value)
  }

  predicate Acceptable(cel: Engine, source: Option<string>) {
    source.Some? ==> cel.compile(source.value).Ok?
  }

  predicate Compiles(cel: Engine, e: Expressions) {
    forall i :: 0 <= i < 5 ==> Acceptable(cel, Sources(e)[i])
  }

  function StageIndex(s: Stage): (i: nat)
    ensures i < 5
  {
    match s
    case MatchStage => 0
    case TargetStage => 1
    case DownloaderStage => 2
    case ForEachStage => 3
    case ProfileStage => 4
  }

  /** Compilation succeeds exactly when every expression the policy has compiles, and then each program
      is that of its own expression; a failure names the first bad one; the generation only stamps. */
  lemma CompilationIsExact(cel: Engine, e: Expressions, g: int, h: int)
    ensures Compiled(cel, e, g).Ok? <==> Compiles(cel, e)
    ensures Compiled(cel, e, g).Ok? ==>
              && Compiled(cel, e, g).value.observedGeneration == g
              && (forall i :: 0 <= i < 5 ==> Belongs(cel, Sources(e)[i], Programs(Compiled(cel, e, g).value)[i]))
              && Compiled(cel, e, h) == Ok(Compiled(cel, e, g).value.(observedGeneration := h))
    ensures Compiled(cel, e, g).Err? ==>
              var at := StageIndex(Compiled(cel, e, g).error.stage);
              && Sources(e)[at].Some?
              && cel.compile(Sources(e)[at].value) == Err(Compiled(cel, e, g).error.cause)
              && (forall i :: 0 <= i < at ==> Acceptable(cel, Sources(e)[i]))
              && Compiled(cel, e, h) == Compiled(cel, e, g)
  {
    var s := Sources(e);
    assert s[0] == Some(e.matchCondition) && s[1] == Some(e.target);
    assert s[2] == e.downloaderParams && s[3] == e.forEach && s[4] == e.profileParams;
    if Compiled(cel, e, g).Ok? {
      assert forall i :: 0 <= i < 5 ==> Acceptable(cel, s[i]);
    } else {
      assert !Acceptable(cel, s[StageIndex(Compiled(cel, e, g).error.stage)]);
    }
  }

  // ----- The cache as a value -----

  type Cached = Table<CompiledPolicy>

  /** Every entry is what compiling the spec of its own (UID, generation) gives. */
  ghost predicate Transparent(cel: Engine, specs: Registry, t: Cached) {
    forall uid :: uid in t.entries ==>
      var c := t.entries[uid];
      Compiled(cel, specs(uid, c.observedGeneration), c.observedGeneration) == Ok(c)
  }

  ghost predicate Registered(specs: Registry, p: Policy) {
    specs(p.uid, p.generation) == p.exprs
  }

  predicate IsHit(t: Cached, p: Policy) {
    p.uid in t.entries && t.entries[p.uid].observedGeneration == p.generation
  }

  function Answer(cel: Engine, t: Cached, p: Policy): Outcome {
    if IsHit(t, p) then Ok(t.entries[p.uid]) else Compiled(cel, p.exprs, p.generation)
  }

  /** The cache after a lookup; `cleared` says whether a Clear slipped in before the insertion. */
  function AfterGet(cel: Engine, capacity: int, t: Cached, p: Policy, cleared: bool): Cached {
    var seen := Touched(t, p.uid);
    if IsHit(t, p) then seen
    else
      var base := if cleared then Empty() else seen;
      match Compiled(cel, p.exprs, p.generation)
      case Err(_) => base
      case Ok(c) => Added(base, p.uid, c, capacity)
  }

  datatype CacheOp = GetOp(policy: Policy, cleared: bool) | RemoveOp(policy: Policy) | ClearOp

  function Apply(cel: Engine, capacity: int, t: Cached, op: CacheOp): Cached {
    match op
    case GetOp(p, cleared) => AfterGet(cel, capacity, t, p, cleared)
    case RemoveOp(p) => Removed(t, p.uid)
    case ClearOp => Empty()
  }

  function Run(cel: Engine, capacity: int, t: Cached, ops: seq<CacheOp>): Cached {
    if ops == [] then t else Apply(cel, capacity, Run(cel, capacity, t, ops[..|ops| - 1]), ops[|ops| - 1])
  }

  ghost predicate OpsRegistered(specs: Registry, ops: seq<CacheOp>) {
    forall i :: 0 <= i < |ops| && ops[i].GetOp? ==> Registered(specs, ops[i].policy)
  }

  /** A lookup that compiles leaves the policy cached, so that the next one hits; one that fails, and a removal,
      change no other entry. (A lookup touches no entry but its own and the evicted one.) */
  lemma LookupCaches(cel: Engine, capacity: int, t: Cached, p: Policy, cleared: bool)
    requires WellFormed(t, capacity) && capacity >= 0
    ensures Compiled(cel, p.exprs, p.generation).Ok? ==> IsHit(AfterGet(cel, capacity, t, p, cleared), p)
    ensures Compiled(cel, p.exprs, p.generation).Err? && !IsHit(t, p) && !cleared ==>
              AfterGet(cel, capacity, t, p, cleared).entries == t.entries
  {
    var base := if cleared then Empty() else Touched(t, p.uid);
    TouchedWellFormed(t, p.uid, capacity);
    var c := Compiled(cel, p.exprs, p.generation);
    if c.Ok? { AddedIsInFront(base, p.uid, c.value, capacity); }
  }

  lemma ApplyKeepsTransparency(cel: Engine, specs: Registry, capacity: int, t: Cached, op: CacheOp)
    requires WellFormed(t, capacity) && Transparent(cel, specs, t)
    requires op.GetOp? ==> Registered(specs, op.policy)
    ensures WellFormed(Apply(cel, capacity, t, op), capacity)
    ensures Transparent(cel, specs, Apply(cel, capacity, t, op))
    ensures op.GetOp? ==> Answer(cel, t, op.policy) == Compiled(cel, op.policy.exprs, op.policy.generation)
  {
    match op
    case ClearOp =>
    case RemoveOp(p) => RemovedWellFormed(t, p.uid, capacity);
    case GetOp(p, cleared) =>
      TouchedWellFormed(t, p.uid, capacity);
      var base: Cached := if cleared then Empty() else Touched(t, p.uid);
      var anew := Compiled(cel, p.exprs, p.generation);
      CompilationIsExact(cel, p.exprs, p.generation, p.generation);
      if anew.Ok? && !IsHit(t, p) {
        var t' := Added(base, p.uid, anew.value, capacity);
        AddedWellFormed(base, p.uid, anew.value, capacity);
        forall uid | uid in t'.entries
          ensures var c := t'.entries[uid];
                  Compiled(cel, specs(uid, c.observedGeneration), c.observedGeneration) == Ok(c)
        {
          if uid != p.uid { AddedEvictsOnlyTheOldest(base, p.uid, anew.value, capacity, uid); }
        }
      }
  }

  /** Cache transparency over every run: whatever was looked up, removed, cleared or evicted before,
      in whatever order the generations came, a lookup answers what compiling afresh answers. */
  lemma {:induction false} CacheIsTransparent(cel: Engine, specs: Registry, capacity: int, ops: seq<CacheOp>, p: Policy)
    requires OpsRegistered(specs, ops) && Registered(specs, p)
    ensures WellFormed(Run(cel, capacity, Empty(), ops), capacity)
    ensures Transparent(cel, specs, Run(cel, capacity, Empty(), ops))
    ensures Answer(cel, Run(cel, capacity, Empty(), ops), p) == Compiled(cel, p.exprs, p.generation)
  {
    if ops != [] {
      var before := ops[..|ops| - 1];
      CacheIsTransparent(cel, specs, capacity, before, p);
      ApplyKeepsTransparency(cel, specs, capacity, Run(cel, capacity, Empty(), before), ops[|ops| - 1]);
    }
    ApplyKeepsTransparency(cel, specs, capacity, Run(cel, capacity, Empty(), ops), GetOp(p, false));
  }

  // ----- The compiler object -----

  class Compiler {
    const cel: Engine
    const cache: Cache<CompiledPolicy>
    ghost const specs: Registry

    ghost predicate Valid()
      reads this, cache
    {
      cache.Valid() && Transparent(cel, specs, cache.Contents())
    }

    constructor (cel: Engine, cacheSize: int, ghost specs: Registry)
      ensures Valid() && fresh(cache) && cache.capacity == cacheSize && cache.Contents() == Empty()
      ensures this.cel == cel && this.specs == specs
    {
      this.cel, this.specs := cel, specs;
      this.cache := new Cache(cacheSize);
    }

    /** Returns the compiled policy, compiling and caching it on first access. Clear does not wait
        for the lock: `cleared` says whether one falls between the lookup and the insertion. */
    method Get(policy: Policy, cleared: bool) returns (r: Outcome)
      requires Valid() && Registered(specs, policy)
      modifies cache
      ensures Valid()
      ensures r == Compiled(cel, policy.exprs, policy.generation)
      ensures cache.Contents() == AfterGet(cel, cache.capacity, old(cache.Contents()), policy, cleared)
    {
      ApplyKeepsTransparency(cel, specs, cache.capacity, cache.Contents(), GetOp(policy, cleared));
      var hit := cache.Get(policy.uid);
      if hit.Some? && hit.value.observedGeneration == policy.generation {
        return Ok(hit.value);
      }
      r := Compile(policy);
      if cleared { cache.Clear(); }
      if r.Err? { return; }
      cache.Add(policy.uid, r.value);
    }

    method Remove(policy: Policy)
      requires Valid()
      modifies cache
      ensures Valid() && cache.Contents() == Removed(old(cache.Contents()), policy.uid)
    {
      ApplyKeepsTransparency(cel, specs, cache.capacity, cache.Contents(), RemoveOp(policy));
      cache.Remove(policy.uid);
    }

    method Clear()
      requires Valid()
      modifies cache
      ensures Valid() && cache.Contents() == Empty()
    {
      cache.Clear();
    }

    /** What other goroutines do with the compiler while nobody holds the lock. */
    method OthersUse(ops: seq<CacheOp>)
      requires Valid() && OpsRegistered(specs, ops)
      modifies cache
      ensures Valid() && cache.Contents() == Run(cel, cache.capacity, old(cache.Contents()), ops)
    {
      for i := 0 to |ops|
        invariant Valid() && cache.Contents() == Run(cel, cache.capacity, old(cache.Contents()), ops[..i])
      {
        assert ops[..i + 1][..i] == ops[..i];
        match ops[i] {
          case GetOp(policy, cleared) => var _ := Get(policy, cleared);
          case RemoveOp(policy) => Remove(policy);
          case ClearOp => Clear();
        }
      }
      assert ops[..|ops|] == ops;
    }

    method Compile(policy: Policy) returns (r: Outcome)
      ensures r == Compiled(cel, policy.exprs, policy.generation)
    {
      var e := policy.exprs;
      var m := cel.compile(e.matchCondition);
      if m.Err? { return Err(CompileError(MatchStage, m.error)); }
      var t := cel.compile(e.target);
      if t.Err? { return Err(CompileError(TargetStage, t.error)); }
      var compiled := CompiledPolicy(policy.generation, m.value, t.value, None, None, None);
      if e.downloaderParams.Some? {
        var d := cel.compile(e.downloaderParams.value);
        if d.Err? { return Err(CompileError(DownloaderStage, d.error)); }
        compiled := compiled.(downloaderParams := Some(d.value));
      }
      if e.forEach.Some? {
        var f := cel.compile(e.forEach.value);
        if f.Err? { return Err(CompileError(ForEachStage, f.error)); }
        compiled := compiled.(forEach := Some(f.value));
      }
      if e.profileParams.Some? {
        var p := cel.compile(e.profileParams.value);
        if p.Err? { return Err(CompileError(ProfileStage, p.error)); }
        compiled := compiled.(profileParams := Some(p.value));
      }
      return Ok(compiled);
    }
  }
}
