/** From a queue message to the reports in it. */
module Parsers {
  import opened Wrappers
  import opened Cel
  import opened Sequences

  datatype ParserKind = RawParser | S3Parser

  /** A message body as the two parsers see it: None where JSON decoding fails. */
  datatype Body = Body(report: Option<Report>, records: Option<seq<string>>)

  /** What S3 and the decoder give for one record. */
  datatype Fetched = GetFailed | DecodeFailed | Reports(reports: seq<Report>)

  datatype ParseError = BadBody | SomeRecordFailed

  type Parsed = Result<seq<Report>, ParseError>

  /** The reports of the records that could be read, in order. */
  function Readable(fetched: seq<Fetched>): seq<Report> {
    FlatMap(fetched, ReportsIn)
  }

  function ReportsIn(f: Fetched): seq<Report> {
    match f case Reports(rs) => rs case _ => []
  }

  predicate AnyFailed(fetched: seq<Fetched>) {
    exists i :: 0 <= i < |fetched| && !fetched[i].Reports?
  }

  /** S3 is asked once for every record of the body. */
  predicate AnswersFor(body: Body, fetched: seq<Fetched>) {
    body.records.Some? ==> |fetched| == |body.records.value|
  }

  /** What a parser hands to the listener; `fetched` lists what S3 answers, record by record. */
  function ParserOutcome(kind: ParserKind, body: Body, fetched: seq<Fetched>): Parsed {
    match kind
    case RawParser => if body.report.None? then Err(BadBody) else Ok([body.report.value])
    case S3Parser =>
      if body.records.None? then Err(BadBody)
      else if AnyFailed(fetched) then Err(SomeRecordFailed)
      else Ok(Readable(fetched))
  }

  /** The listener never sees part of a message: once the body can be read, parsing succeeds exactly when
      every record can be read, and then the reports of each stand in their place. */
  lemma {:induction false} ParsingIsAllOrNothing(body: Body, fetched: seq<Fetched>, k: nat)
    requires body.records.Some? && k < |fetched|
    ensures ParserOutcome(S3Parser, body, fetched).Ok? <==> forall i :: 0 <= i < |fetched| ==> fetched[i].Reports?
    ensures ParserOutcome(S3Parser, body, fetched).Ok? ==>
              ParserOutcome(S3Parser, body, fetched) ==
              Ok(Readable(fetched[..k]) + fetched[k].reports + Readable(fetched[k + 1..]))
  {
    if ParserOutcome(S3Parser, body, fetched).Ok? {
      assert fetched == fetched[..k] + [fetched[k]] + fetched[k + 1..];
      FlatMapOfBoth(fetched[..k] + [fetched[k]], fetched[k + 1..], ReportsIn);
      FlatMapOneMore(fetched, ReportsIn, k);
      assert fetched[..k + 1] == fetched[..k] + [fetched[k]];
    }
  }

  /** The one report of a raw message is the decoded body, and a body that cannot be read is an error. */
  lemma BodyDecides(body: Body, fetched: seq<Fetched>)
    ensures body.report.Some? ==> ParserOutcome(RawParser, body, fetched) == Ok([body.report.value])
    ensures body.report.None? ==> ParserOutcome(RawParser, body, fetched) == Err(BadBody)
    ensures body.records.None? ==> ParserOutcome(S3Parser, body, fetched) == Err(BadBody)
  {
  }

  method RawReportParser(body: Body) returns (reports: seq<Report>, err: Option<ParseError>)
    ensures body.report.Some? ==> reports == [body.report.value] && err == None
    ensures body.report.None? ==> |reports| == 1 && err == Some(BadBody)
    ensures err.None? ==> ParserOutcome(RawParser, body, []) == Ok(reports)
    ensures err.Some? ==> ParserOutcome(RawParser, body, []) == Err(err.value)
  {
    var report: Report := map[];
    if body.report.Some? { report := body.report.value; }
    return [report], if body.report.None? then Some(BadBody) else None;
  }

  /** The loop goes on after a failed record: the readable reports come back next to the error. */
  method S3EventReportParser(body: Body, fetched: seq<Fetched>) returns (reports: seq<Report>, err: Option<ParseError>)
    requires AnswersFor(body, fetched)
    ensures body.records.Some? ==> reports == Readable(fetched)
    ensures body.records.None? ==> reports == [] && err == Some(BadBody)
    ensures err.None? <==> body.records.Some? && forall i :: 0 <= i < |fetched| ==> fetched[i].Reports?
    ensures err.None? ==> ParserOutcome(S3Parser, body, fetched) == Ok(reports)
    ensures err.Some? ==> ParserOutcome(S3Parser, body, fetched) == Err(err.value)
  {
    if body.records.None? { return [], Some(BadBody); }
    reports, err := [], None;
    for i := 0 to |body.records.value|
      invariant reports == Readable(fetched[..i])
      invariant err == if AnyFailed(fetched[..i]) then Some(SomeRecordFailed) else None
    {
      FlatMapOneMore(fetched, ReportsIn, i);
      assert AnyFailed(fetched[..i + 1]) <==> AnyFailed(fetched[..i]) || !fetched[i].Reports? by {
        if AnyFailed(fetched[..i]) {
          var j :| 0 <= j < i && !fetched[..i][j].Reports?;
          assert !fetched[..i + 1][j].Reports?;
        }
        if !fetched[i].Reports? { assert !fetched[..i + 1][i].Reports?; }
        if AnyFailed(fetched[..i + 1]) && fetched[i].Reports? {
          var j :| 0 <= j < i + 1 && !fetched[..i + 1][j].Reports?;
          assert !fetched[..i][j].Reports?;
        }
      }
      match fetched[i] {
        case Reports(rs) => reports := reports + rs;
        case _ => err := Some(SomeRecordFailed);
      }
    }
    assert fetched[..|fetched|] == fetched;
  }
}
