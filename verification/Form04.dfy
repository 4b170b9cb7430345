/** form04: on a schema failure the issues are reshaped into an object from
    field name to message, which the page shows next to each field; the email
    rule also reports its problem as a field error. */
module Form04 {
  import opened Wrappers
  import opened Submission
  import opened FormEntries
  import LastWins

  datatype FormState = FormState(
    message: string,
    fields: Option<map<string, string>>,
    issues: Option<map<string, string>>)

  const SchemaMessage: string := "parsed.error.message"
  const RuleMessage: string := "Email address is not valid a from server message"
  const RuleIssue: string := "Email address is not valid a from server issue"

  /** The field an issue is reported against: the first segment of its path,
      if it has one. */
  function IssueField(issue: Issue): Option<string>
  {
    if |issue.path| > 0 then Some(issue.path[0]) else None
  }

  function IssueMessage(issue: Issue): string
  {
    issue.message
  }

  /** Issue `i` is the last issue reported against field `field`. */
  ghost predicate LastIssueFor(issues: seq<Issue>, i: int, field: string)
  {
    && 0 <= i < |issues|
    && |issues[i].path| > 0
    && issues[i].path[0] == field
    && forall j :: i < j < |issues| ==> |issues[j].path| == 0 || issues[j].path[0] != field
  }

  /** The `forEach` that fills `fieldsErrors`: for each issue in order with a
      non-empty path, `fieldsErrors[issue.path[0]] = issue.message`. Its keys
      are exactly the first path segments of the issues that have a path. */
  function Reshape(issues: seq<Issue>): (errors: map<string, string>)
    ensures errors.Keys == set i | 0 <= i < |issues| && |issues[i].path| > 0 :: issues[i].path[0]
  {
    var errors := LastWins.Assign(issues, IssueField, IssueMessage);
    assert forall i :: 0 <= i < |issues| && |issues[i].path| > 0 ==> IssueField(issues[i]) == Some(issues[i].path[0]);
    errors
  }

  /** Reshaping no issues gives the empty object. */
  lemma ReshapeEmpty()
    ensures Reshape([]) == map[]
  {
  }

  /** When several issues name the same field, the field keeps the message of
      the last one: a later assignment overwrites an earlier one. */
  lemma ReshapeLastWins(issues: seq<Issue>, i: int, field: string)
    requires LastIssueFor(issues, i, field)
    ensures field in Reshape(issues)
    ensures Reshape(issues)[field] == issues[i].message
  {
    assert LastWins.LastNaming(issues, IssueField, i, field);
    LastWins.AssignLastWins(issues, IssueField, IssueMessage, i, field);
  }

  /** The index of the last issue reported against `field`. */
  ghost function LastIssueIndex(issues: seq<Issue>, field: string): (i: int)
    requires exists j :: 0 <= j < |issues| && |issues[j].path| > 0 && issues[j].path[0] == field
    ensures LastIssueFor(issues, i, field)
    decreases |issues|
  {
    var n := |issues|;
    if |issues[n - 1].path| > 0 && issues[n - 1].path[0] == field then n - 1
    else
      var prefix := issues[..n - 1];
      var j :| 0 <= j < n && |issues[j].path| > 0 && issues[j].path[0] == field;
      assert prefix[j] == issues[j];
      LastIssueIndex(prefix, field)
  }

  /** Every message in the reshaped object is the message of the last issue
      reported against its field. */
  lemma ReshapeMessageIsLast(issues: seq<Issue>, field: string)
    requires field in Reshape(issues)
    ensures exists i :: LastIssueFor(issues, i, field) && Reshape(issues)[field] == issues[i].message
  {
    var i := LastIssueIndex(issues, field);
    ReshapeLastWins(issues, i, field);
  }

  /** An issue with an empty path cannot be attributed to a field and leaves
      the reshaped object as if it had not been reported. */
  lemma ReshapeSkipsUnattributed(front: seq<Issue>, issue: Issue, back: seq<Issue>)
    requires |issue.path| == 0
    ensures Reshape(front + [issue] + back) == Reshape(front + back)
  {
    LastWins.AssignSkipsUnnamed(front, issue, back, IssueField, IssueMessage);
  }

  /** Two issues on `email` ("required", then "invalid format"): the second
      message is the one reported. */
  lemma ReshapeKeepsLaterMessage()
    ensures Reshape([Issue(["email"], "required"), Issue(["email"], "invalid format")])
            == map["email" := "invalid format"]
  {
    var issues := [Issue(["email"], "required"), Issue(["email"], "invalid format")];
    assert LastIssueFor(issues, 1, "email");
    ReshapeLastWins(issues, 1, "email");
    assert Reshape(issues).Keys == {"email"};
  }

  /** `onSubmitAction(prevState, data)`. */
  function OnSubmitAction(prevState: FormState, data: seq<Entry>, parse: Parser): (state: FormState)
    ensures var parsed := parse(FromEntries(data));
            Decide(parsed) == SchemaRejected ==>
              && state.message == SchemaMessage
              && state.fields == Some(FromEntries(data))
              && state.issues.Some?
              && state.issues.value.Keys
                 == (set i | 0 <= i < |parsed.issues| && |parsed.issues[i].path| > 0 :: parsed.issues[i].path[0])
              && forall i, field :: LastIssueFor(parsed.issues, i, field) ==>
                   state.issues.value[field] == parsed.issues[i].message
    ensures var parsed := parse(FromEntries(data));
            Decide(parsed) == RuleRejected ==>
              state == FormState(RuleMessage, Some(ProfileFields(parsed.data)), Some(map["email" := RuleIssue]))
    ensures var parsed := parse(FromEntries(data));
            Decide(parsed) == Accepted ==> state == FormState(SuccessMessage, None, None)
  {
    var formData := FromEntries(data);
    var parsed := parse(formData);
    if !parsed.Success? then
      CopyOfFormDataIsTotal(data);
      var fields := CopyFields(formData, ObjectKeys(data));
      var fieldsErrors := Reshape(parsed.issues);
      assert forall i, field :: LastIssueFor(parsed.issues, i, field) ==>
               field in fieldsErrors && fieldsErrors[field] == parsed.issues[i].message by {
        forall i, field | LastIssueFor(parsed.issues, i, field)
          ensures field in fieldsErrors && fieldsErrors[field] == parsed.issues[i].message
        {
          ReshapeLastWins(parsed.issues, i, field);
        }
      }
      FormState(SchemaMessage, Some(fields), Some(fieldsErrors))
    else if EmailRejected(parsed.data) then
      FormState(RuleMessage, Some(ProfileFields(parsed.data)), Some(map["email" := RuleIssue]))
    else
      FormState(SuccessMessage, None, None)
  }

  /** What the page can conclude from the returned state: no fields means
      success, and the two rejections carry different messages. */
  function ReadOutcome(state: FormState): Outcome
  {
    if state.fields.None? then Accepted
    else if state.message == SchemaMessage then SchemaRejected
    else RuleRejected
  }

  /** The returned state always reveals the outcome of the submission. */
  lemma OutcomeReadable(prevState: FormState, data: seq<Entry>, parse: Parser)
    ensures ReadOutcome(OnSubmitAction(prevState, data, parse)) == Decide(parse(FromEntries(data)))
  {
  }

  /** The previous state is never consulted. */
  lemma PrevStateIgnored(before: FormState, other: FormState, data: seq<Entry>, parse: Parser)
    ensures OnSubmitAction(before, data, parse) == OnSubmitAction(other, data, parse)
  {
  }
}
