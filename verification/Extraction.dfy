/** Matching a report against a compiled policy and extracting pipeline values from it. */
module Extraction {
  import opened Wrappers
  import opened Cel
  import opened Compiler

  datatype Target = Target(identifier: string, version: string)

  datatype Param = Param(name: string, value: string)

  datatype PipelineValues = PipelineValues(target: Target, downloaderParams: seq<Param>, profileParams: seq<Param>)

  datatype ExtractError = ForEachFailed | NotAList | TargetFailed | NoIdentifier | ProfileFailed | DownloaderFailed

  // ----- What one extraction means -----

  /** The values one item asks for. Parameters are still a map: their order is not determined. */
  datatype Planned = Planned(target: Target, downloaderParams: map<string, string>, profileParams: map<string, string>)

  function Matched(cel: Engine, c: CompiledPolicy, report: Report): Option<bool> {
    match cel.eval(c.matchCondition, Activation(report, None))
    case Ok(BoolVal(b)) => Some(b)
    case _ => None
  }

  function Unwrapped(refs: seq<Ref>): (r: seq<Value>)
    ensures |r| == |refs| && forall i :: 0 <= i < |r| ==> r[i] == refs[i].inner
  {
    if refs == [] then [] else Unwrapped(refs[..|refs| - 1]) + [refs[|refs| - 1].inner]
  }

  function Items(cel: Engine, p: Program, report: Report): Result<seq<Value>, ExtractError> {
    match cel.eval(p, Activation(report, None))
    case Err(_) => Err(ForEachFailed)
    case Ok(ListVal(items)) => Ok(items)
    case Ok(RefListVal(refs)) => Ok(Unwrapped(refs))
    case Ok(_) => Err(NotAList)
  }

  function Activations(cel: Engine, c: CompiledPolicy, report: Report): Result<seq<Activation>, ExtractError> {
    match c.forEach
    case None => Ok([Activation(report, None)])
    case Some(p) =>
      match Items(cel, p, report)
      case Err(e) => Err(e)
      case Ok(items) => Ok(seq(|items|, i requires 0 <= i < |items| => Activation(report, Some(items[i]))))
  }

  function ParamMap(cel: Engine, p: Option<Program>, a: Activation): Option<map<string, string>> {
    if p.None? then Some(map[])
    else match cel.eval(p.value, a)
      case Ok(StringMapVal(m)) => Some(m)
      case _ => None
  }

  function TargetOf(cel: Engine, p: Program, a: Activation): Result<Target, ExtractError> {
    match cel.eval(p, a)
    case Ok(StringMapVal(m)) =>
      if "identifier" !in m then Err(NoIdentifier)
      else Ok(Target(m["identifier"], if "version" in m then m["version"] else ""))
    case _ => Err(TargetFailed)
  }

  function PlanItem(cel: Engine, c: CompiledPolicy, a: Activation): Result<Planned, ExtractError> {
    match TargetOf(cel, c.target, a)
    case Err(e) => Err(e)
    case Ok(t) =>
      var profile := ParamMap(cel, c.profileParams, a);
      var downloader := ParamMap(cel, c.downloaderParams, a);
      if profile.None? then Err(ProfileFailed)
      else if downloader.None? then Err(DownloaderFailed)
      else Ok(Planned(t, downloader.value, profile.value))
  }

  function PlanItems(cel: Engine, c: CompiledPolicy, acts: seq<Activation>): Result<seq<Planned>, ExtractError> {
    if acts == [] then Ok([])
    else
      match PlanItems(cel, c, acts[..|acts| - 1])
      case Err(e) => Err(e)
      case Ok(init) =>
        match PlanItem(cel, c, acts[|acts| - 1])
        case Err(e) => Err(e)
        case Ok(last) => Ok(init + [last])
  }

  function Plan(cel: Engine, c: CompiledPolicy, report: Report): Result<seq<Planned>, ExtractError> {
    match Activations(cel, c, report)
    case Err(e) => Err(e)
    case Ok(acts) => PlanItems(cel, c, acts)
  }

  lemma {:induction false} ItemsAllOrNothing(cel: Engine, c: CompiledPolicy, acts: seq<Activation>)
    ensures PlanItems(cel, c, acts).Ok? <==> forall i :: 0 <= i < |acts| ==> PlanItem(cel, c, acts[i]).Ok?
    ensures PlanItems(cel, c, acts).Ok? ==>
              && |PlanItems(cel, c, acts).value| == |acts|
              && forall i :: 0 <= i < |acts| ==> PlanItem(cel, c, acts[i]) == Ok(PlanItems(cel, c, acts).value[i])
    ensures PlanItems(cel, c, acts).Err? ==>
              exists i :: 0 <= i < |acts| && PlanItem(cel, c, acts[i]) == Err(PlanItems(cel, c, acts).error)
  {
    if acts != [] {
      var n := |acts| - 1;
      ItemsAllOrNothing(cel, c, acts[..n]);
      assert acts == acts[..n] + [acts[n]];
      assert forall i :: 0 <= i < n ==> acts[..n][i] == acts[i];
      if PlanItems(cel, c, acts[..n]).Err? {
        var i :| 0 <= i < n && PlanItem(cel, c, acts[..n][i]) == Err(PlanItems(cel, c, acts[..n]).error);
        assert PlanItem(cel, c, acts[i]).Err?;
      } else {
        assert PlanItem(cel, c, acts[n]).Ok? ==> PlanItems(cel, c, acts).Ok?;
      }
    }
  }

  /** Extraction fails as a whole or gives exactly one value per `forEach` item, and one in total
      without `forEach`; the value at a position is decided by the report and that item alone. */
  lemma ExtractionIsAllOrNothingAndPositional(cel: Engine, c: CompiledPolicy, report: Report)
    ensures c.forEach.None? ==>
              Plan(cel, c, report) ==
                (match PlanItem(cel, c, Activation(report, None)) case Ok(v) => Ok([v]) case Err(e) => Err(e))
    ensures c.forEach.Some? && Items(cel, c.forEach.value, report).Err? ==> Plan(cel, c, report).Err?
    ensures c.forEach.Some? && Items(cel, c.forEach.value, report).Ok? ==>
              var items := Items(cel, c.forEach.value, report).value;
              && (Plan(cel, c, report).Ok? <==>
                  forall i :: 0 <= i < |items| ==> PlanItem(cel, c, Activation(report, Some(items[i]))).Ok?)
              && (Plan(cel, c, report).Ok? ==>
                    && |Plan(cel, c, report).value| == |items|
                    && forall i :: 0 <= i < |items| ==>
                         PlanItem(cel, c, Activation(report, Some(items[i]))) == Ok(Plan(cel, c, report).value[i]))
  {
    if c.forEach.None? {
      var a := Activation(report, None);
      assert [a][..0] == [];
      assert PlanItems(cel, c, [a][..0]) == Ok([]);
      var p := PlanItem(cel, c, a);
      assert p.Ok? ==> [] + [p.value] == [p.value];
    } else if Items(cel, c.forEach.value, report).Ok? {
      var acts := Activations(cel, c, report).value;
      var items := Items(cel, c.forEach.value, report).value;
      ItemsAllOrNothing(cel, c, acts);
      assert forall i :: 0 <= i < |items| ==> acts[i] == Activation(report, Some(items[i]));
    }
  }

  // ----- The same, said of the engine's answers alone -----

  /** What an optional expression gives for one activation: nothing without one, else its string map. */
  ghost predicate Evaluates(cel: Engine, p: Option<Program>, a: Activation, m: map<string, string>) {
    if p.None? then m == map[] else cel.eval(p.value, a) == Ok(StringMapVal(m))
  }

  ghost predicate HasTarget(cel: Engine, p: Program, a: Activation, t: Target) {
    exists m: map<string, string> ::
      && cel.eval(p, a) == Ok(StringMapVal(m))
      && "identifier" in m && t.identifier == m["identifier"]
      && t.version == (if "version" in m then m["version"] else "")
  }

  /** Each part of a plan comes from the expression of its own name. */
  ghost predicate ItemGives(cel: Engine, c: CompiledPolicy, a: Activation, p: Planned) {
    && HasTarget(cel, c.target, a, p.target)
    && Evaluates(cel, c.downloaderParams, a, p.downloaderParams)
    && Evaluates(cel, c.profileParams, a, p.profileParams)
  }

  /** The items of a list, whichever of its two forms it came in. */
  ghost predicate IsListOf(v: Value, items: seq<Value>) {
    || v == ListVal(items)
    || (v.RefListVal? && |v.refs| == |items| && forall i :: 0 <= i < |items| ==> v.refs[i].inner == items[i])
  }

  /** One activation per item of what forEach evaluates to, in order; a single one without forEach. */
  ghost predicate IteratesOver(cel: Engine, c: CompiledPolicy, report: Report, acts: seq<Activation>) {
    if c.forEach.None? then acts == [Activation(report, None)]
    else exists v, items: seq<Value> ::
      && cel.eval(c.forEach.value, Activation(report, None)) == Ok(v) && IsListOf(v, items)
      && |acts| == |items| && forall i :: 0 <= i < |acts| ==> acts[i] == Activation(report, Some(items[i]))
  }

  ghost predicate ItemsGive(cel: Engine, c: CompiledPolicy, acts: seq<Activation>, values: seq<Planned>) {
    |values| == |acts| && forall i :: 0 <= i < |values| ==> ItemGives(cel, c, acts[i], values[i])
  }

  /** The report extracts to these values. */
  ghost predicate Extracts(cel: Engine, c: CompiledPolicy, report: Report, values: seq<Planned>) {
    exists acts :: IteratesOver(cel, c, report, acts) && ItemsGive(cel, c, acts, values)
  }

  lemma ItemPlanIsEvaluated(cel: Engine, c: CompiledPolicy, a: Activation, p: Planned)
    ensures PlanItem(cel, c, a) == Ok(p) <==> ItemGives(cel, c, a, p)
  {
    if ItemGives(cel, c, a, p) {
      var m: map<string, string> :| cel.eval(c.target, a) == Ok(StringMapVal(m));
      assert TargetOf(cel, c.target, a) == Ok(p.target);
    }
    if PlanItem(cel, c, a) == Ok(p) {
      assert HasTarget(cel, c.target, a, p.target) by { assert cel.eval(c.target, a).value.StringMapVal?; }
    }
  }

  lemma ActivationsAreEvaluated(cel: Engine, c: CompiledPolicy, report: Report, acts: seq<Activation>)
    ensures Activations(cel, c, report) == Ok(acts) <==> IteratesOver(cel, c, report, acts)
  {
    if c.forEach.Some? {
      var answer := cel.eval(c.forEach.value, Activation(report, None));
      var items := Items(cel, c.forEach.value, report);
      if items.Ok? { assert IsListOf(answer.value, items.value); }
      if IteratesOver(cel, c, report, acts) {
        var v, its: seq<Value> :|
          && answer == Ok(v) && IsListOf(v, its)
          && |acts| == |its| && forall i :: 0 <= i < |acts| ==> acts[i] == Activation(report, Some(its[i]));
        assert items.Ok? && items.value == its;
        assert Activations(cel, c, report).value == acts;
      }
    }
  }

  /** Extract's plan is what the engine answers, item by item and part by part: it exists exactly when every
      expression that is given can be evaluated to the right kind of value. */
  lemma PlanIsEvaluated(cel: Engine, c: CompiledPolicy, report: Report, values: seq<Planned>)
    ensures Plan(cel, c, report) == Ok(values) <==> Extracts(cel, c, report, values)
  {
    if Plan(cel, c, report) == Ok(values) {
      var acts := Activations(cel, c, report).value;
      ActivationsAreEvaluated(cel, c, report, acts);
      ItemsAllOrNothing(cel, c, acts);
      forall i | 0 <= i < |values| ensures ItemGives(cel, c, acts[i], values[i]) {
        ItemPlanIsEvaluated(cel, c, acts[i], values[i]);
      }
      assert ItemsGive(cel, c, acts, values);
    }
    if Extracts(cel, c, report, values) {
      var acts :| IteratesOver(cel, c, report, acts) && ItemsGive(cel, c, acts, values);
      ActivationsAreEvaluated(cel, c, report, acts);
      ItemsAllOrNothing(cel, c, acts);
      forall i | 0 <= i < |values| ensures PlanItem(cel, c, acts[i]) == Ok(values[i]) {
        assert ItemGives(cel, c, acts[i], values[i]);
        ItemPlanIsEvaluated(cel, c, acts[i], values[i]);
      }
      assert PlanItems(cel, c, acts).value == values;
    }
  }

  // ----- Parameter lists: some ordering of a map -----

  ghost predicate DistinctNames(s: seq<Param>) {
    forall i, j :: 0 <= i < j < |s| ==> s[i].name != s[j].name
  }

  /** `s` lists every binding of m exactly once, in some order. */
  ghost predicate Lists(s: seq<Param>, m: map<string, string>) {
    && DistinctNames(s)
    && (forall i :: 0 <= i < |s| ==> s[i].name in m && m[s[i].name] == s[i].value)
    && (forall k :: k in m ==> Param(k, m[k]) in s)
  }

  ghost predicate Realizes(v: PipelineValues, p: Planned) {
    v.target == p.target && Lists(v.downloaderParams, p.downloaderParams) && Lists(v.profileParams, p.profileParams)
  }

  /** The orderings of one map are permutations of each other. */
  lemma {:induction false} ListsArePermutations(s: seq<Param>, t: seq<Param>, m: map<string, string>)
    requires Lists(s, m) && Lists(t, m)
    ensures multiset(s) == multiset(t)
  {
    forall x: Param ensures multiset(s)[x] == multiset(t)[x] {
      AtMostOnce(s, x);
      AtMostOnce(t, x);
      if x in s {
        var i :| 0 <= i < |s| && s[i] == x;
        assert x == Param(x.name, m[x.name]);
      }
      if x in t {
        var j :| 0 <= j < |t| && t[j] == x;
        assert x == Param(x.name, m[x.name]);
      }
    }
  }

  lemma {:induction false} AtMostOnce(s: seq<Param>, x: Param)
    requires DistinctNames(s)
    ensures multiset(s)[x] == if x in s then 1 else 0
  {
    if s != [] {
      var init := s[..|s| - 1];
      assert s == init + [s[|s| - 1]];
      AtMostOnce(init, x);
    }
  }

  // ----- The code -----

  method Matches(cel: Engine, c: CompiledPolicy, report: Report) returns (r: Result<bool, string>)
    ensures r.Ok? <==> Matched(cel, c, report).Some?
    ensures r.Ok? ==> Matched(cel, c, report) == Some(r.value)
  {
    var out := cel.eval(c.matchCondition, Activation(report, None));
    if out.Err? { return Err(out.error); }
    if !out.value.BoolVal? { return Err("expected match condition to result in boolean"); }
    return Ok(out.value.b);
  }

  method EvalForEach(cel: Engine, p: Program, report: Report) returns (r: Result<seq<Value>, ExtractError>)
    ensures r == Items(cel, p, report)
  {
    var out := cel.eval(p, Activation(report, None));
    if out.Err? { return Err(ForEachFailed); }
    match out.value {
      case ListVal(items) => return Ok(items);
      case RefListVal(refs) =>
        var result := [];
        for i := 0 to |refs|
          invariant result == Unwrapped(refs[..i])
        {
          assert refs[..i + 1][..i] == refs[..i];
          result := result + [refs[i].inner];
        }
        assert refs[..|refs|] == refs;
        return Ok(result);
      case _ => return Err(NotAList);
    }
  }

  /** Ranging over a Go map visits the keys in an arbitrary order. */
  method EvalParameters(cel: Engine, p: Program, a: Activation) returns (r: Option<seq<Param>>)
    ensures r.Some? <==> ParamMap(cel, Some(p), a).Some?
    ensures r.Some? ==> Lists(r.value, ParamMap(cel, Some(p), a).value)
  {
    var out := cel.eval(p, a);
    if out.Err? || !out.value.StringMapVal? { return None; }
    var m := out.value.m;
    var settings: seq<Param> := [];
    var rest := m.Keys;
    while rest != {}
      invariant rest <= m.Keys
      invariant DistinctNames(settings)
      invariant forall i :: 0 <= i < |settings| ==>
                  settings[i].name in m && settings[i].name !in rest && m[settings[i].name] == settings[i].value
      invariant forall k :: k in m && k !in rest ==> Param(k, m[k]) in settings
      decreases rest
    {
      var k :| k in rest;
      rest := rest - {k};
      settings := settings + [Param(k, m[k])];
    }
    return Some(settings);
  }

  method EvalTarget(cel: Engine, p: Program, a: Activation) returns (r: Result<Target, ExtractError>)
    ensures r == TargetOf(cel, p, a)
  {
    var out := cel.eval(p, a);
    if out.Err? || !out.value.StringMapVal? { return Err(TargetFailed); }
    var m := out.value.m;
    if "identifier" !in m { return Err(NoIdentifier); }
    var target := Target(m["identifier"], "");
    if "version" in m { target := target.(version := m["version"]); }
    return Ok(target);
  }

  /** The first loop: one activation per item, or a single one without forEach. */
  method ActivationsFor(cel: Engine, c: CompiledPolicy, report: Report)
    returns (r: Result<seq<Activation>, ExtractError>)
    ensures r == Activations(cel, c, report)
  {
    if c.forEach.None? { return Ok([Activation(report, None)]); }
    var each := EvalForEach(cel, c.forEach.value, report);
    if each.Err? { return Err(each.error); }
    var activations: seq<Activation> := [];
    for i := 0 to |each.value|
      invariant activations == seq(i, j requires 0 <= j < i => Activation(report, Some(each.value[j])))
    {
      activations := activations + [Activation(report, Some(each.value[i]))];
    }
    return Ok(activations);
  }

  /** One turn of the second loop. */
  method ValuesOf(cel: Engine, c: CompiledPolicy, a: Activation) returns (r: Result<PipelineValues, ExtractError>)
    ensures r.Ok? <==> PlanItem(cel, c, a).Ok?
    ensures r.Err? ==> r.error == PlanItem(cel, c, a).error
    ensures r.Ok? ==> Realizes(r.value, PlanItem(cel, c, a).value)
  {
    var target := EvalTarget(cel, c.target, a);
    if target.Err? { return Err(target.error); }
    var vals := PipelineValues(target.value, [], []);
    if c.profileParams.Some? {
      var ps := EvalParameters(cel, c.profileParams.value, a);
      if ps.None? { return Err(ProfileFailed); }
      vals := vals.(profileParams := ps.value);
    }
    if c.downloaderParams.Some? {
      var ds := EvalParameters(cel, c.downloaderParams.value, a);
      if ds.None? { return Err(DownloaderFailed); }
      vals := vals.(downloaderParams := ds.value);
    }
    return Ok(vals);
  }

  ghost predicate AllRealize(values: seq<PipelineValues>, plan: seq<Planned>) {
    |values| == |plan| && forall i :: 0 <= i < |values| ==> Realizes(values[i], plan[i])
  }

  method Extract(cel: Engine, c: CompiledPolicy, report: Report) returns (r: Result<seq<PipelineValues>, ExtractError>)
    ensures r.Ok? <==> Plan(cel, c, report).Ok?
    ensures r.Err? ==> r.error == Plan(cel, c, report).error
    ensures r.Ok? ==> AllRealize(r.value, Plan(cel, c, report).value)
    ensures r.Ok? <==> exists values :: Extracts(cel, c, report, values)
    ensures r.Ok? ==> exists values :: Extracts(cel, c, report, values) && AllRealize(r.value, values)
  {
    ghost var plan := Plan(cel, c, report);
    if plan.Ok? { PlanIsEvaluated(cel, c, report, plan.value); }
    assert (exists values :: Extracts(cel, c, report, values)) ==> plan.Ok? by {
      if values :| Extracts(cel, c, report, values) { PlanIsEvaluated(cel, c, report, values); }
    }
    var activations := ActivationsFor(cel, c, report);
    if activations.Err? { return Err(activations.error); }
    var acts := activations.value;
    var values: seq<PipelineValues> := [];
    for i := 0 to |acts|
      invariant PlanItems(cel, c, acts[..i]).Ok? && AllRealize(values, PlanItems(cel, c, acts[..i]).value)
    {
      assert acts[..i + 1][..i] == acts[..i];
      FirstFailureWins(cel, c, acts, i);
      var vals := ValuesOf(cel, c, acts[i]);
      if vals.Err? { return Err(vals.error); }
      values := values + [vals.value];
    }
    assert acts[..|acts|] == acts;
    return Ok(values);
  }

  lemma {:induction false} FirstFailureWins(cel: Engine, c: CompiledPolicy, acts: seq<Activation>, i: nat)
    requires i < |acts| && PlanItems(cel, c, acts[..i]).Ok?
    ensures PlanItem(cel, c, acts[i]).Err? ==> PlanItems(cel, c, acts) == Err(PlanItem(cel, c, acts[i]).error)
    decreases |acts|
  {
    var n := |acts| - 1;
    if i < n {
      assert acts[..n][..i] == acts[..i];
      FirstFailureWins(cel, c, acts[..n], i);
    }
  }
}
