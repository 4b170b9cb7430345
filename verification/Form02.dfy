/** form02: the action answers with a message only. */
module Form02 {
  import opened Submission
  import opened FormEntries

  datatype FormState = FormState(message: string)

  const RuleMessage: string := "Email address is not valid"

  /** `onSubmitAction(data)`: decode the form, parse it, then apply the
      email rule to a successful parse. A schema failure passes the parser's
      own summary message through. */
  function OnSubmitAction(data: seq<Entry>, parse: Parser): (state: FormState)
    ensures var parsed := parse(FromEntries(data));
            && (Decide(parsed) == SchemaRejected ==> state.message == parsed.message)
            && (Decide(parsed) == RuleRejected ==> state.message == RuleMessage)
            && (Decide(parsed) == Accepted ==> state.message == SuccessMessage)
  {
    var parsed := parse(FromEntries(data));
    if !parsed.Success? then
      FormState(parsed.message)
    else if EmailRejected(parsed.data) then
      FormState(RuleMessage)
    else
      FormState(SuccessMessage)
  }

  /** What a caller can conclude from the message alone. */
  function ReadOutcome(state: FormState): Outcome
  {
    if state.message == SuccessMessage then Accepted
    else if state.message == RuleMessage then RuleRejected
    else SchemaRejected
  }

  /** As long as the parser never summarises a failure with one of the two
      fixed messages, the message tells the three outcomes apart. */
  lemma OutcomeReadable(data: seq<Entry>, parse: Parser)
    requires var parsed := parse(FromEntries(data));
             parsed.Failure? ==> parsed.message != SuccessMessage && parsed.message != RuleMessage
    ensures ReadOutcome(OnSubmitAction(data, parse)) == Decide(parse(FromEntries(data)))
  {
  }

  /** Because the failure message is the parser's own text, a schema failure
      can produce exactly the state of a successful submission. */
  lemma SchemaFailureCanLookAccepted(data: seq<Entry>)
    ensures var failing: Parser := _ => Failure(SuccessMessage, []);
            var passing: Parser := _ => Success(Profile("Jon", "Lee", "jon@lee.io"));
            && Decide(failing(FromEntries(data))) == SchemaRejected
            && Decide(passing(FromEntries(data))) == Accepted
            && OnSubmitAction(data, failing) == OnSubmitAction(data, passing)
  {
  }
}
