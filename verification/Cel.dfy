/** The CEL engine as an abstract, deterministic library: expressions are compiled to programs,
    programs are evaluated against an activation, and either may fail. */
module Cel {
  import opened Wrappers

  /** A dynamically typed value: what a report holds and what a program returns.
      An evaluated list arrives either as plain values or as CEL's own references. */
  datatype Value =
    | BoolVal(b: bool)
    | StringVal(s: string)
    | StringMapVal(m: map<string, string>)
    | ListVal(items: seq<Value>)
    | RefListVal(refs: seq<Ref>)
    | OtherVal

  datatype Ref = Ref(inner: Value)

  type Report = map<string, Value>

  /** What an expression can see: the report, and `each` when the policy iterates. */
  datatype Activation = Activation(report: Report, each: Option<Value>)

  datatype Program = Program(code: string)

  datatype Engine = Engine(
    compile: string -> Result<Program, string>,
    eval: (Program, Activation) -> Result<Value, string>)

  /** The expressions of one policy; the last three are optional. */
  datatype Expressions = Expressions(
    matchCondition: string,
    target: string,
    downloaderParams: Option<string>,
    forEach: Option<string>,
    profileParams: Option<string>)
}
