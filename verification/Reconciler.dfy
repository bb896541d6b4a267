/** The policy reconciler: one pass over the object it fetched. */
module Reconciler {
  import opened Wrappers
  import opened Cel
  import opened Api
  import opened Lru
  import opened Compiler

  const CACHE_FINALIZER := "chalk.ocular.crashoverride.run/cel-cache"

  /** What the pass asks of the API server: an update of the metadata, or of the status, or nothing. */
  datatype Request = NoWrite | UpdateFinalizers(finalizers: seq<string>) | UpdateConditions(conditions: seq<Condition>)

  function StageText(s: Stage): string {
    match s
    case MatchStage => "matchCondition: "
    case TargetStage => "extraction.target: "
    case DownloaderStage => "extraction.downloaderParams: "
    case ForEachStage => "extraction.forEach: "
    case ProfileStage => "extraction.scannerParams: "
  }

  /** The Ready condition that compiling this generation calls for. */
  function ReadyCondition(cel: Engine, p: Policy): Condition {
    match Compiled(cel, p.exprs, p.generation)
    case Ok(_) => Condition(READY, ConditionTrue, "CELCompiled", "", p.generation)
    case Err(e) => Condition(READY, ConditionFalse, "CELCompileFailed", StageText(e.stage) + e.cause, p.generation)
  }

  function WithoutFinalizer(fs: seq<string>): (r: seq<string>)
    ensures CACHE_FINALIZER !in r
    ensures forall f :: f != CACHE_FINALIZER ==> (f in r <==> f in fs)
  {
    if fs == [] then []
    else if fs[0] == CACHE_FINALIZER then WithoutFinalizer(fs[1..])
    else [fs[0]] + WithoutFinalizer(fs[1..])
  }

  function Decision(cel: Engine, p: Policy): Request {
    if p.deleting then UpdateFinalizers(WithoutFinalizer(p.finalizers))
    else if CACHE_FINALIZER !in p.finalizers then UpdateFinalizers(p.finalizers + [CACHE_FINALIZER])
    else
      var conditions := SetCondition(p.conditions, ReadyCondition(cel, p));
      if conditions == p.conditions then NoWrite else UpdateConditions(conditions)
  }

  function AfterPass(cel: Engine, capacity: int, t: Cached, p: Policy, cleared: bool): Cached {
    if p.deleting then Removed(t, p.uid)
    else if CACHE_FINALIZER !in p.finalizers then t
    else AfterGet(cel, capacity, t, p, cleared)
  }

  function Granted(p: Policy, r: Request): Policy {
    match r
    case NoWrite => p
    case UpdateFinalizers(fs) => p.(finalizers := fs)
    case UpdateConditions(cs) => p.(conditions := cs)
  }

  // ----- What a pass asks for, without its code -----

  /** What a message starts with when the expression at that place of `Sources` does not compile. */
  const STAGE_TEXTS: seq<string> := [
    "matchCondition: ", "extraction.target: ", "extraction.downloaderParams: ",
    "extraction.forEach: ", "extraction.scannerParams: "]

  /** The condition reports on the compilation of this generation: success, or the first expression that does
      not compile and why. */
  ghost predicate Reports(cel: Engine, p: Policy, k: Condition) {
    && k.kind == READY && k.observedGeneration == p.generation
    && if Compiles(cel, p.exprs) then k.status == ConditionTrue && k.reason == "CELCompiled" && k.message == ""
       else
         && k.status == ConditionFalse && k.reason == "CELCompileFailed"
         && exists at: nat, cause ::
              && at < 5 && Sources(p.exprs)[at].Some? && cel.compile(Sources(p.exprs)[at].value) == Err(cause)
              && k.message == STAGE_TEXTS[at] + cause
              && forall i :: 0 <= i < at ==> Acceptable(cel, Sources(p.exprs)[i])
  }

  lemma ReadyConditionReports(cel: Engine, p: Policy)
    ensures Reports(cel, p, ReadyCondition(cel, p))
  {
    CompilationIsExact(cel, p.exprs, p.generation, p.generation);
    var outcome := Compiled(cel, p.exprs, p.generation);
    if outcome.Err? {
      var at := StageIndex(outcome.error.stage);
      assert !Acceptable(cel, Sources(p.exprs)[at]);
      assert StageText(outcome.error.stage) == STAGE_TEXTS[at];
      assert cel.compile(Sources(p.exprs)[at].value) == Err(outcome.error.cause);
    }
  }

  /** One pass asks for the removal of the cache finalizer of an object being deleted, for its addition to
      one without it, and otherwise for a Ready condition that reports the compilation; it asks for nothing
      else, and in particular it leaves the finalizers and the conditions of others alone. */
  lemma PassAsksForOneThing(cel: Engine, p: Policy)
    ensures var p' := Granted(p, Decision(cel, p));
            && p' == p.(finalizers := p'.finalizers, conditions := p'.conditions)
            && (forall f :: f != CACHE_FINALIZER ==> (f in p'.finalizers <==> f in p.finalizers))
            && (forall kind :: kind != READY ==>
                  FindCondition(p'.conditions, kind) == FindCondition(p.conditions, kind))
            && (p.deleting ==> CACHE_FINALIZER !in p'.finalizers && p'.conditions == p.conditions)
            && (!p.deleting && CACHE_FINALIZER !in p.finalizers ==>
                  CACHE_FINALIZER in p'.finalizers && p'.conditions == p.conditions)
            && (!p.deleting && CACHE_FINALIZER in p.finalizers ==>
                  && p'.finalizers == p.finalizers
                  && FindCondition(p'.conditions, READY).Some?
                  && Reports(cel, p, FindCondition(p'.conditions, READY).value))
  {
    var k := ReadyCondition(cel, p);
    ReadyConditionReports(cel, p);
    forall kind ensures FindCondition(SetCondition(p.conditions, k), kind) ==
                        if kind == READY then Some(k) else FindCondition(p.conditions, kind)
    {
      SetThenFind(p.conditions, k, kind);
    }
  }

  /** And in the cache: the policy is dropped when it is being deleted, left alone when only the finalizer is
      added, and otherwise there for the next lookup if it compiles at all. */
  lemma PassLeavesInTheCache(cel: Engine, capacity: int, t: Cached, p: Policy, cleared: bool)
    requires WellFormed(t, capacity) && capacity >= 0
    ensures var t' := AfterPass(cel, capacity, t, p, cleared);
            && (p.deleting ==> t'.entries == t.entries - {p.uid})
            && (!p.deleting && CACHE_FINALIZER !in p.finalizers ==> t' == t)
            && (!p.deleting && CACHE_FINALIZER in p.finalizers && Compiles(cel, p.exprs) ==> IsHit(t', p))
  {
    CompilationIsExact(cel, p.exprs, p.generation, p.generation);
    LookupCaches(cel, capacity, t, p, cleared);
  }

  // ----- How far an object is from settled -----

  predicate IsReadyCurrent(cel: Engine, p: Policy) {
    FindCondition(p.conditions, READY) == Some(ReadyCondition(cel, p))
  }

  function Distance(cel: Engine, p: Policy): nat {
    (if CACHE_FINALIZER in p.finalizers then 0 else 1) + (if IsReadyCurrent(cel, p) then 0 else 1)
  }

  /** A pass writes exactly while something is missing, and each granted write brings the object one
      step nearer; so at most two are needed, and then the pass is silent. */
  lemma EachWriteCountsDown(cel: Engine, p: Policy)
    requires !p.deleting
    ensures Distance(cel, p) <= 2
    ensures Decision(cel, p).NoWrite? <==> Distance(cel, p) == 0
    ensures Distance(cel, p) > 0 ==> Distance(cel, Granted(p, Decision(cel, p))) == Distance(cel, p) - 1
  {
    SetThenFind(p.conditions, ReadyCondition(cel, p), READY);
  }

  class PolicyReconciler {
    const compiler: Compiler

    constructor (compiler: Compiler)
      ensures this.compiler == compiler
    {
      this.compiler := compiler;
    }

    /** `fetched` is None when the object is gone; `cleared` as in Compiler.Get. The result is the one
        write the pass ends with. */
    method Reconcile(fetched: Option<Policy>, cleared: bool) returns (r: Request)
      requires compiler.Valid() && (fetched.Some? ==> Registered(compiler.specs, fetched.value))
      modifies compiler.cache
      ensures compiler.Valid()
      ensures r == if fetched.None? then NoWrite else Decision(compiler.cel, fetched.value)
      ensures compiler.cache.Contents() ==
              var before := old(compiler.cache.Contents());
              if fetched.None? then before
              else AfterPass(compiler.cel, compiler.cache.capacity, before, fetched.value, cleared)
    {
      if fetched.None? { return NoWrite; }
      var policy := fetched.value;
      if policy.deleting {
        compiler.Remove(policy);
        return UpdateFinalizers(WithoutFinalizer(policy.finalizers));
      }
      if CACHE_FINALIZER !in policy.finalizers {
        return UpdateFinalizers(policy.finalizers + [CACHE_FINALIZER]);
      }
      var compiled := compiler.Get(policy, cleared);
      var condition :=
        if compiled.Err?
        then Condition(READY, ConditionFalse, "CELCompileFailed",
                       StageText(compiled.error.stage) + compiled.error.cause, policy.generation)
        else Condition(READY, ConditionTrue, "CELCompiled", "", policy.generation);
      var conditions := SetCondition(policy.conditions, condition);
      if conditions != policy.conditions { return UpdateConditions(conditions); }
      return NoWrite;
    }
  }
}
