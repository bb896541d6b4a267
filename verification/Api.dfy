/** The ChalkReportPolicy resource, without its pipeline template. */
module Api {
  import opened Wrappers
  import opened Cel

  datatype Status = ConditionTrue | ConditionFalse | ConditionUnknown

  datatype Condition = Condition(kind: string, status: Status, reason: string, message: string, observedGeneration: int)

  datatype Policy = Policy(
    name: string,
    namespace: string,
    uid: string,
    generation: int,
    deleting: bool,
    finalizers: seq<string>,
    conditions: seq<Condition>,
    exprs: Expressions)

  const READY := "Ready"

  function FindCondition(cs: seq<Condition>, kind: string): (r: Option<Condition>)
    ensures r.Some? ==> r.value in cs && r.value.kind == kind
    ensures r.None? ==> forall c :: c in cs ==> c.kind != kind
  {
    if cs == [] then None else if cs[0].kind == kind then Some(cs[0]) else FindCondition(cs[1..], kind)
  }

  predicate IsConditionTrue(cs: seq<Condition>, kind: string) {
    var c := FindCondition(cs, kind);
    c.Some? && c.value.status == ConditionTrue
  }

  /** Overwrites the condition of the same kind where it stands, or appends the new one. */
  function SetCondition(cs: seq<Condition>, c: Condition): seq<Condition> {
    if cs == [] then [c] else if cs[0].kind == c.kind then [c] + cs[1..] else [cs[0]] + SetCondition(cs[1..], c)
  }

  /** Setting a condition is what a later lookup sees; it disturbs no other kind, and it is
      a change exactly when the same condition was not already there. */
  lemma {:induction false} SetThenFind(cs: seq<Condition>, c: Condition, kind: string)
    ensures FindCondition(SetCondition(cs, c), kind) == if kind == c.kind then Some(c) else FindCondition(cs, kind)
    ensures SetCondition(cs, c) == cs <==> FindCondition(cs, c.kind) == Some(c)
  {
    if cs != [] {
      if cs[0].kind == c.kind {
        assert cs == [cs[0]] + cs[1..];
        assert ([c] + cs[1..])[1..] == cs[1..];
        assert ([c] + cs[1..])[0] == c;
      } else {
        var r := [cs[0]] + SetCondition(cs[1..], c);
        assert r[1..] == SetCondition(cs[1..], c);
        assert r == cs <==> r[1..] == cs[1..] by { assert cs == [cs[0]] + cs[1..]; }
        SetThenFind(cs[1..], c, kind);
      }
    }
  }
}
