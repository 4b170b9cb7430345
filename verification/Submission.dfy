/** What every version of the server-side submission action shares: the
    external schema parser it calls, the one business rule it applies after a
    successful parse, and the three outcomes a submission can have. */
module Submission {

  /** A validation problem reported by the schema parser: the path of the
      offending value (its first segment is the form field) and a message. */
  datatype Issue = Issue(path: seq<string>, message: string)

  /** The record the schema produces when every field is valid. */
  datatype Profile = Profile(first: string, last: string, email: string)

  /** What `schema.safeParse` returns: the typed record, or an error carrying
      its summary message and its issues in the parser's order. */
  datatype ParseResult =
    | Success(data: Profile)
    | Failure(message: string, issues: seq<Issue>)

  /** The schema parser is an external collaborator: any total, deterministic
      function from the decoded form object to a parse result. */
  type Parser = map<string, string> -> ParseResult

  /** The three ways a submission can end. */
  datatype Outcome = SchemaRejected | RuleRejected | Accepted

  const SuccessMessage: string := "Form submitted successfully"

  /** The post-parse business rule: `email.includes("a")` rejects. */
  predicate EmailRejected(record: Profile)
  {
    'a' in record.email
  }

  /** Which outcome a parse result leads to. The rule is consulted only when
      the parse succeeded, and exactly one outcome applies to every input. */
  function Decide(parsed: ParseResult): (outcome: Outcome)
    ensures outcome == SchemaRejected <==> parsed.Failure?
    ensures outcome == RuleRejected <==> parsed.Success? && 'a' in parsed.data.email
    ensures outcome == Accepted <==> parsed.Success? && 'a' !in parsed.data.email
  {
    if parsed.Failure? then SchemaRejected
    else if EmailRejected(parsed.data) then RuleRejected
    else Accepted
  }

  /** The parsed record as the string object the action sends back for
      re-population: one property per schema field. */
  function ProfileFields(record: Profile): (fields: map<string, string>)
    ensures fields.Keys == {"first", "last", "email"}
    ensures Profile(fields["first"], fields["last"], fields["email"]) == record
  {
    map["first" := record.first, "last" := record.last, "email" := record.email]
  }
}
