/** form03: on a schema failure the action also returns the submitted
    fields for re-population and the list of issue messages. */
module Form03 {
  import opened Wrappers
  import opened Submission
  import opened FormEntries

  datatype FormState = FormState(
    message: string,
    fields: Option<map<string, string>>,
    issues: Option<seq<string>>)

  const SchemaMessage: string := "parsed.error.message"
  const RuleMessage: string := "Email address is not valid"

  /** `issues.map((issue) => issue.message)`: one message per issue, in order,
      duplicates kept. */
  function IssueMessages(issues: seq<Issue>): (messages: seq<string>)
    ensures |messages| == |issues|
    ensures forall i :: 0 <= i < |issues| ==> messages[i] == issues[i].message
    decreases |issues|
  {
    if |issues| == 0 then []
    else IssueMessages(issues[..|issues| - 1]) + [issues[|issues| - 1].message]
  }

  /** `onSubmitAction(prevState, data)`. */
  function OnSubmitAction(prevState: FormState, data: seq<Entry>, parse: Parser): (state: FormState)
    ensures var parsed := parse(FromEntries(data));
            Decide(parsed) == SchemaRejected ==>
              && state.message == SchemaMessage
              && state.fields == Some(FromEntries(data))
              && state.issues.Some?
              && |state.issues.value| == |parsed.issues|
              && forall i :: 0 <= i < |parsed.issues| ==> state.issues.value[i] == parsed.issues[i].message
    ensures var parsed := parse(FromEntries(data));
            Decide(parsed) == RuleRejected ==>
              state == FormState(RuleMessage, Some(ProfileFields(parsed.data)), None)
    ensures var parsed := parse(FromEntries(data));
            Decide(parsed) == Accepted ==> state == FormState(SuccessMessage, None, None)
  {
    var formData := FromEntries(data);
    var parsed := parse(formData);
    if !parsed.Success? then
      CopyOfFormDataIsTotal(data);
      var fields := CopyFields(formData, ObjectKeys(data));
      FormState(SchemaMessage, Some(fields), Some(IssueMessages(parsed.issues)))
    else if EmailRejected(parsed.data) then
      FormState(RuleMessage, Some(ProfileFields(parsed.data)), None)
    else
      FormState(SuccessMessage, None, None)
  }

  /** What the page can conclude from the returned state: issues only come
      with a schema failure, fields without issues only with the rule. */
  function ReadOutcome(state: FormState): Outcome
  {
    if state.issues.Some? then SchemaRejected
    else if state.fields.Some? then RuleRejected
    else Accepted
  }

  /** The returned state always reveals the outcome of the submission. */
  lemma OutcomeReadable(prevState: FormState, data: seq<Entry>, parse: Parser)
    ensures ReadOutcome(OnSubmitAction(prevState, data, parse)) == Decide(parse(FromEntries(data)))
  {
  }

  /** The previous state is never consulted. */
  lemma PrevStateIgnored(before: FormState, other: FormState, data: seq<Entry>, parse: Parser)
    ensures OnSubmitAction(before, data, parse) == OnSubmitAction(other, data, parse)
  {
  }
}
