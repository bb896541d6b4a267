/** One policy object over time: the API server, users and other controllers, the reconciler and the
    scheduler's lookups, interleaved arbitrarily. */
module PolicyLifecycle {
  import opened Wrappers
  import opened Cel
  import opened Api
  import opened Lru
  import opened Compiler
  import opened Reconciler

  /** A pass between its read and its write; `base` is the version it read, which may be stale. */
  datatype Worker = Resting | Writing(base: nat, request: Request)

  /** `history` holds every version of the object, the newest last. */
  datatype World = World(history: seq<Policy>, live: bool, worker: Worker, cache: Cached, writes: nat)

  datatype Setting = Setting(cel: Engine, capacity: int, specs: Registry)

  datatype Step =
    | Pass(base: nat, cleared: bool)
    | Write(ok: bool)
    | EditSpec(exprs: Expressions)
    | EditOthers(finalizers: seq<string>, conditions: seq<Condition>)
    | Delete(bump: bool)
    | Lookup(base: nat, cleared: bool)
    | ClearCache

  function Current(w: World): Policy
    requires w.history != []
  {
    w.history[|w.history| - 1]
  }

  /** A version is stored unless nothing changed; a deleted object without finalizers disappears. */
  function Stored(w: World, p: Policy): World
    requires w.history != []
  {
    if p.deleting && p.finalizers == [] then w.(live := false)
    else if p == Current(w) then w
    else w.(history := w.history + [p])
  }

  /** The reconciler reads some version and decides; its compiler call happens here. */
  ghost predicate Passes(c: Setting, w: World, w': World, base: nat, cleared: bool) {
    && w.worker.Resting? && base < |w.history|
    && w' == w.(worker := Writing(base, Decision(c.cel, w.history[base])),
                cache := AfterPass(c.cel, c.capacity, w.cache, w.history[base], cleared))
  }

  /** The write is refused unless the object still is the version that was read. */
  ghost predicate Writes(w: World, w': World, ok: bool) {
    && w.worker.Writing? && w.history != []
    && w' == (if w.worker.request.NoWrite? || !ok || !w.live || w.worker.base != |w.history| - 1
              then w.(worker := Resting)
              else Stored(w, Granted(Current(w), w.worker.request)).(worker := Resting, writes := w.writes + 1))
  }

  /** Every spec edit gets the next generation. */
  ghost predicate EditsSpec(c: Setting, w: World, w': World, exprs: Expressions) {
    && w.live && w.history != []
    && var p := Current(w).(generation := Current(w).generation + 1, exprs := exprs);
       Registered(c.specs, p) && w' == Stored(w, p)
  }

  /** Other controllers leave the cache finalizer and the Ready condition alone; nobody may add a
      finalizer to an object that is being deleted. */
  ghost predicate EditsOthers(w: World, w': World, finalizers: seq<string>, conditions: seq<Condition>) {
    && w.live && w.history != []
    && (CACHE_FINALIZER in finalizers <==> CACHE_FINALIZER in Current(w).finalizers)
    && (Current(w).deleting ==> forall f :: f in finalizers ==> f in Current(w).finalizers)
    && FindCondition(conditions, READY) == FindCondition(Current(w).conditions, READY)
    && w' == Stored(w, Current(w).(finalizers := finalizers, conditions := conditions))
  }

  /** Deletion may count as a new generation, of the same spec. */
  ghost predicate Deletes(c: Setting, w: World, w': World, bump: bool) {
    && w.live && w.history != [] && !Current(w).deleting
    && var p := Current(w).(deleting := true, generation := Current(w).generation + (if bump then 1 else 0));
       Registered(c.specs, p) && w' == Stored(w, p)
  }

  ghost predicate LooksUp(c: Setting, w: World, w': World, base: nat, cleared: bool) {
    && base < |w.history|
    && w' == w.(cache := AfterGet(c.cel, c.capacity, w.cache, w.history[base], cleared))
  }

  ghost predicate Takes(c: Setting, w: World, w': World, step: Step) {
    match step
    case Pass(base, cleared) => Passes(c, w, w', base, cleared)
    case Write(ok) => Writes(w, w', ok)
    case EditSpec(exprs) => EditsSpec(c, w, w', exprs)
    case EditOthers(finalizers, conditions) => EditsOthers(w, w', finalizers, conditions)
    case Delete(bump) => Deletes(c, w, w', bump)
    case Lookup(base, cleared) => LooksUp(c, w, w', base, cleared)
    case ClearCache => w' == w.(cache := Empty())
  }

  /** A new object carries no Ready condition. */
  ghost predicate Init(c: Setting, w: World) {
    && |w.history| == 1 && w.live && w.worker == Resting && w.cache == Empty() && w.writes == 0
    && !w.history[0].deleting && Registered(c.specs, w.history[0])
    && FindCondition(w.history[0].conditions, READY) == None
  }

  ghost predicate IsRun(c: Setting, worlds: seq<World>, steps: seq<Step>) {
    && |worlds| == |steps| + 1
    && Init(c, worlds[0])
    && forall i :: 0 <= i < |steps| ==> Takes(c, worlds[i], worlds[i + 1], steps[i])
  }

  // ----- The invariant -----

  /** True at the generation it observes exactly if the spec of that generation compiles. */
  ghost predicate Truthful(c: Setting, p: Policy) {
    var r := FindCondition(p.conditions, READY);
    r.Some? ==> (r.value.status == ConditionTrue <==> Compiles(c.cel, c.specs(p.uid, r.value.observedGeneration)))
  }

  ghost predicate VersionOk(c: Setting, p: Policy, uid: string) {
    p.uid == uid && Registered(c.specs, p) && Truthful(c, p)
  }

  ghost predicate Inv(c: Setting, w: World) {
    && w.history != []
    && (forall v :: 0 <= v < |w.history| ==> VersionOk(c, w.history[v], w.history[0].uid))
    && (w.worker.Writing? ==>
          w.worker.base < |w.history| && w.worker.request == Decision(c.cel, w.history[w.worker.base]))
    && WellFormed(w.cache, c.capacity) && Transparent(c.cel, c.specs, w.cache)
  }

  lemma StoredKeeps(c: Setting, w: World, p: Policy)
    requires Inv(c, w) && VersionOk(c, p, w.history[0].uid)
    ensures Inv(c, Stored(w, p))
  {
  }

  lemma GrantedIsOk(c: Setting, p: Policy, uid: string)
    requires VersionOk(c, p, uid)
    ensures VersionOk(c, Granted(p, Decision(c.cel, p)), uid)
  {
    SetThenFind(p.conditions, ReadyCondition(c.cel, p), READY);
    CompilationIsExact(c.cel, p.exprs, p.generation, p.generation);
  }

  lemma CacheStepKeeps(c: Setting, t: Cached, p: Policy, cleared: bool)
    requires WellFormed(t, c.capacity) && Transparent(c.cel, c.specs, t) && Registered(c.specs, p)
    ensures WellFormed(AfterGet(c.cel, c.capacity, t, p, cleared), c.capacity)
    ensures Transparent(c.cel, c.specs, AfterGet(c.cel, c.capacity, t, p, cleared))
    ensures WellFormed(AfterPass(c.cel, c.capacity, t, p, cleared), c.capacity)
    ensures Transparent(c.cel, c.specs, AfterPass(c.cel, c.capacity, t, p, cleared))
  {
    ApplyKeepsTransparency(c.cel, c.specs, c.capacity, t, GetOp(p, cleared));
    ApplyKeepsTransparency(c.cel, c.specs, c.capacity, t, RemoveOp(p));
  }

  lemma WriteKeeps(c: Setting, w: World, w': World, ok: bool)
    requires Inv(c, w) && Writes(w, w', ok)
    ensures Inv(c, w')
  {
    GrantedIsOk(c, Current(w), w.history[0].uid);
    if w.worker.base == |w.history| - 1 {
      StoredKeeps(c, w, Granted(Current(w), w.worker.request));
    }
  }

  lemma StepKeeps(c: Setting, w: World, w': World, step: Step)
    requires Inv(c, w) && Takes(c, w, w', step)
    ensures Inv(c, w')
  {
    match step
    case Pass(base, cleared) => CacheStepKeeps(c, w.cache, w.history[base], cleared);
    case Lookup(base, cleared) => CacheStepKeeps(c, w.cache, w.history[base], cleared);
    case Write(ok) => WriteKeeps(c, w, w', ok);
    case EditSpec(exprs) =>
      StoredKeeps(c, w, Current(w).(generation := Current(w).generation + 1, exprs := exprs));
    case EditOthers(finalizers, conditions) =>
      StoredKeeps(c, w, Current(w).(finalizers := finalizers, conditions := conditions));
    case Delete(bump) =>
      StoredKeeps(c, w, Current(w).(deleting := true, generation := Current(w).generation + (if bump then 1 else 0)));
    case ClearCache =>
  }

  lemma {:induction false} Reachable(c: Setting, worlds: seq<World>, steps: seq<Step>, i: nat)
    requires IsRun(c, worlds, steps) && i < |worlds|
    ensures Inv(c, worlds[i])
  {
    if i > 0 {
      Reachable(c, worlds, steps, i - 1);
      StepKeeps(c, worlds[i - 1], worlds[i], steps[i - 1]);
    }
  }

  // ----- What follows -----

  /** Ready is truthful in every version of every reachable state; so a scheduler that lists a version
      whose True condition observes that version's own generation cannot fail to get it compiled,
      whatever the cache holds then. */
  lemma ReadyIsTruthful(c: Setting, worlds: seq<World>, steps: seq<Step>, i: nat, v: nat)
    requires IsRun(c, worlds, steps) && i < |worlds| && v < |worlds[i].history|
    ensures Truthful(c, worlds[i].history[v])
    ensures var p := worlds[i].history[v];
            var r := FindCondition(p.conditions, READY);
            && (r.Some? && r.value.status == ConditionTrue && r.value.observedGeneration == p.generation ==>
                  Answer(c.cel, worlds[i].cache, p).Ok?)
            && Answer(c.cel, worlds[i].cache, p) == Compiled(c.cel, p.exprs, p.generation)
  {
    Reachable(c, worlds, steps, i);
    var p := worlds[i].history[v];
    assert VersionOk(c, p, worlds[i].history[0].uid);
    ApplyKeepsTransparency(c.cel, c.specs, c.capacity, worlds[i].cache, GetOp(p, false));
    CompilationIsExact(c.cel, p.exprs, p.generation, p.generation);
  }

  predicate Quiet(step: Step) {
    !step.EditSpec? && !step.Delete?
  }

  lemma WriteCounts(c: Setting, w: World, w': World, ok: bool)
    requires Inv(c, w) && Writes(w, w', ok) && !Current(w).deleting
    ensures w'.history != [] && !Current(w').deleting && (w.live ==> w'.live)
    ensures w'.writes + Distance(c.cel, Current(w')) == w.writes + Distance(c.cel, Current(w))
  {
    if w'.writes == w.writes {
      assert w'.history == w.history;
    } else {
      EachWriteCountsDown(c.cel, Current(w));
      StoredIsCurrent(w, Granted(Current(w), w.worker.request));
    }
  }

  lemma StoredIsCurrent(w: World, p: Policy)
    requires w.history != [] && !p.deleting
    ensures Stored(w, p).history != [] && Current(Stored(w, p)) == p && Stored(w, p).live == w.live
  {
  }

  lemma OthersChangeNoDistance(c: Setting, w: World, w': World, step: Step)
    requires Inv(c, w) && Takes(c, w, w', step) && Quiet(step) && !step.Write? && !Current(w).deleting
    ensures w'.history != [] && !Current(w').deleting && (w.live ==> w'.live)
    ensures w'.writes == w.writes && Distance(c.cel, Current(w')) == Distance(c.cel, Current(w))
  {
  }

  lemma QuietStepCounts(c: Setting, w: World, w': World, step: Step)
    requires Inv(c, w) && Takes(c, w, w', step) && Quiet(step) && !Current(w).deleting
    ensures Inv(c, w') && !Current(w').deleting && (w.live ==> w'.live)
    ensures w'.writes + Distance(c.cel, Current(w')) == w.writes + Distance(c.cel, Current(w))
  {
    StepKeeps(c, w, w', step);
    if step.Write? { WriteCounts(c, w, w', step.ok); } else { OthersChangeNoDistance(c, w, w', step); }
  }

  /** Convergence: while the spec is not edited and the object not deleted, every successful write
      brings it one step nearer to settled, in every interleaving; so at most two ever succeed. */
  lemma {:induction false} WritesAreBounded(c: Setting, worlds: seq<World>, steps: seq<Step>, i: nat, j: nat)
    requires IsRun(c, worlds, steps) && i <= j < |worlds|
    requires worlds[i].history != [] && !Current(worlds[i]).deleting
    requires forall k :: i <= k < j ==> Quiet(steps[k])
    ensures worlds[j].history != [] && !Current(worlds[j]).deleting
    ensures worlds[j].writes - worlds[i].writes ==
            Distance(c.cel, Current(worlds[i])) - Distance(c.cel, Current(worlds[j]))
    ensures worlds[j].writes - worlds[i].writes <= 2
  {
    Reachable(c, worlds, steps, j);
    EachWriteCountsDown(c.cel, Current(worlds[i]));
    if i < j {
      WritesAreBounded(c, worlds, steps, i, j - 1);
      Reachable(c, worlds, steps, j - 1);
      assert Takes(c, worlds[j - 1], worlds[j], steps[j - 1]);
      QuietStepCounts(c, worlds[j - 1], worlds[j], steps[j - 1]);
    }
  }

  /** And while it is not settled, a pass over the newest version followed by its write does succeed. */
  lemma FreshPassMakesProgress(c: Setting, w: World, w1: World, w2: World, cleared: bool)
    requires Inv(c, w) && w.live && !Current(w).deleting
    requires Takes(c, w, w1, Pass(|w.history| - 1, cleared)) && Takes(c, w1, w2, Write(true))
    ensures Distance(c.cel, Current(w)) > 0 ==>
              w2.writes == w.writes + 1 && Distance(c.cel, Current(w2)) == Distance(c.cel, Current(w)) - 1
    ensures Distance(c.cel, Current(w)) == 0 ==> w2.writes == w.writes && w2.history == w.history
  {
    EachWriteCountsDown(c.cel, Current(w));
    StepKeeps(c, w, w1, Pass(|w.history| - 1, cleared));
    WriteCounts(c, w1, w2, true);
    FreshWriteIsGranted(c, w1, w2);
  }

  /** The write of a pass over the newest version is granted, unless there is none. */
  lemma FreshWriteIsGranted(c: Setting, w: World, w': World)
    requires Inv(c, w) && w.live && Writes(w, w', true) && w.worker.base == |w.history| - 1
    ensures w.worker.request.NoWrite? ==> w'.writes == w.writes && w'.history == w.history
    ensures !w.worker.request.NoWrite? ==> w'.writes == w.writes + 1
  {
  }

  /** Nobody's work is undone: a step of the run that is not an edit by others keeps every other finalizer and
      every other condition, and with such a finalizer the object stays; and only a spec edit or the deletion
      changes what else there is. */
  lemma OthersAreLeftAlone(c: Setting, worlds: seq<World>, steps: seq<Step>, i: nat)
    requires IsRun(c, worlds, steps) && i < |steps| && !steps[i].EditOthers?
    requires worlds[i].history != []
    ensures worlds[i + 1].history != []
    ensures var p, p' := Current(worlds[i]), Current(worlds[i + 1]);
            && (forall f :: f != CACHE_FINALIZER && f in p.finalizers ==>
                  f in p'.finalizers && (worlds[i].live ==> worlds[i + 1].live))
            && (forall f :: f != CACHE_FINALIZER && f in p'.finalizers ==> f in p.finalizers)
            && (forall kind :: kind != READY ==>
                  FindCondition(p'.conditions, kind) == FindCondition(p.conditions, kind))
            && (steps[i].EditSpec? || steps[i].Delete? ||
                p' == p.(finalizers := p'.finalizers, conditions := p'.conditions))
  {
    Reachable(c, worlds, steps, i);
    StepLeavesOthersAlone(c, worlds[i], worlds[i + 1], steps[i]);
  }

  lemma StepLeavesOthersAlone(c: Setting, w: World, w': World, step: Step)
    requires Inv(c, w) && Takes(c, w, w', step) && !step.EditOthers?
    ensures w'.history != [] && SparesOthers(w, w')
    ensures step.EditSpec? || step.Delete? ||
            Current(w') == Current(w).(finalizers := Current(w').finalizers, conditions := Current(w').conditions)
  {
    if step.Write? { WriteSparesOthers(c, w, w', step.ok); }
  }

  ghost predicate SparesOthers(w: World, w': World)
    requires w.history != [] && w'.history != []
  {
    var p, p' := Current(w), Current(w');
    && (forall f :: f != CACHE_FINALIZER ==> (f in p'.finalizers <==> f in p.finalizers))
    && (forall kind :: kind != READY ==> FindCondition(p'.conditions, kind) == FindCondition(p.conditions, kind))
    && (forall f :: f != CACHE_FINALIZER && f in p.finalizers && w.live ==> w'.live)
  }

  lemma WriteSparesOthers(c: Setting, w: World, w': World, ok: bool)
    requires Inv(c, w) && Writes(w, w', ok)
    ensures w'.history != [] && SparesOthers(w, w')
    ensures Current(w') == Current(w).(finalizers := Current(w').finalizers, conditions := Current(w').conditions)
  {
    PassAsksForOneThing(c.cel, Current(w));
  }

  ghost predicate HasFinalizer(w: World) {
    w.live && w.history != [] && CACHE_FINALIZER in Current(w).finalizers
  }

  lemma WriteKeepsDeletion(c: Setting, w: World, w': World, ok: bool)
    requires Inv(c, w) && Writes(w, w', ok) && Current(w).deleting
    ensures w'.history != [] && Current(w').deleting
    ensures !HasFinalizer(w) ==> !HasFinalizer(w')
  {
    if w.worker.base == |w.history| - 1 {
      assert w.worker.request == UpdateFinalizers(WithoutFinalizer(Current(w).finalizers));
    }
  }

  lemma DeletionStays(c: Setting, w: World, w': World, step: Step)
    requires Inv(c, w) && Takes(c, w, w', step) && Current(w).deleting
    ensures w'.history != [] && Current(w').deleting
    ensures !HasFinalizer(w) ==> !HasFinalizer(w')
  {
    if step.Write? { WriteKeepsDeletion(c, w, w', step.ok); }
  }

  lemma DeletionStaysInARun(c: Setting, worlds: seq<World>, steps: seq<Step>, k: nat)
    requires IsRun(c, worlds, steps) && k < |steps|
    requires worlds[k].history != [] && Current(worlds[k]).deleting
    ensures worlds[k + 1].history != [] && Current(worlds[k + 1]).deleting
    ensures !HasFinalizer(worlds[k]) ==> !HasFinalizer(worlds[k + 1])
  {
    Reachable(c, worlds, steps, k);
    DeletionStays(c, worlds[k], worlds[k + 1], steps[k]);
  }

  /** Once deletion has begun the cache finalizer is never added again. */
  lemma {:induction false} NeverAddedAgain(c: Setting, worlds: seq<World>, steps: seq<Step>, i: nat, j: nat)
    requires IsRun(c, worlds, steps) && i <= j < |worlds|
    requires worlds[i].history != [] && Current(worlds[i]).deleting
    ensures worlds[j].history != [] && Current(worlds[j]).deleting
    ensures !HasFinalizer(worlds[i]) ==> !HasFinalizer(worlds[j])
  {
    if i < j {
      NeverAddedAgain(c, worlds, steps, i, j - 1);
      DeletionStaysInARun(c, worlds, steps, j - 1);
    }
  }

  /** The cache finalizer goes only with the write of a pass that saw the object being deleted, and that
      pass had already dropped the policy from the compiler's cache. */
  lemma RemovedOnlyAfterPurge(c: Setting, worlds: seq<World>, steps: seq<Step>, i: nat) returns (j: nat)
    requires IsRun(c, worlds, steps) && i < |steps| && HasFinalizer(worlds[i]) && !HasFinalizer(worlds[i + 1])
    ensures steps[i].Write? && Current(worlds[i]).deleting
    ensures j < i && steps[j].Pass? && worlds[j + 1].worker == worlds[i].worker
    ensures steps[j].base < |worlds[j].history| && worlds[j].history[steps[j].base].deleting
    ensures Current(worlds[i]).uid !in worlds[j + 1].cache.entries
  {
    Reachable(c, worlds, steps, i);
    assert Takes(c, worlds[i], worlds[i + 1], steps[i]);
    j := PassBehind(c, worlds, steps, i);
    Reachable(c, worlds, steps, j);
    HistoryGrows(c, worlds, steps, j, i);
  }

  lemma {:induction false} PassBehind(c: Setting, worlds: seq<World>, steps: seq<Step>, i: nat) returns (j: nat)
    requires IsRun(c, worlds, steps) && i < |worlds| && worlds[i].worker.Writing?
    ensures j < i && steps[j].Pass? && worlds[j + 1].worker == worlds[i].worker
    ensures Passes(c, worlds[j], worlds[j + 1], steps[j].base, steps[j].cleared)
  {
    assert i > 0;
    assert Takes(c, worlds[i - 1], worlds[i], steps[i - 1]);
    if steps[i - 1].Pass? {
      j := i - 1;
    } else {
      j := PassBehind(c, worlds, steps, i - 1);
    }
  }

  lemma {:induction false} HistoryGrows(c: Setting, worlds: seq<World>, steps: seq<Step>, i: nat, j: nat)
    requires IsRun(c, worlds, steps) && i <= j < |worlds|
    ensures worlds[i].history <= worlds[j].history
  {
    if i < j {
      HistoryGrows(c, worlds, steps, i, j - 1);
      assert Takes(c, worlds[j - 1], worlds[j], steps[j - 1]);
    }
  }
}
