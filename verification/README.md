# nextjs-form submission action, modelled in Dafny

The repository demonstrates web forms that are validated on the server. Its
only logic with a contract is the server action `onSubmitAction`. The action
exists in three successive versions: form02, form03 and form04. Each version
does the following:

1. It decodes the submitted `FormData` into a flat object with
   `Object.fromEntries`.
2. It runs the external zod schema over that object with `safeParse`.
3. On a successful parse, it applies one business rule: an email containing
   the letter `a` is rejected.
4. It answers with a `FormState` record.

The three outcomes are schema rejection, rule rejection and acceptance. The
versions differ in what the record carries:

- form02 returns a message only.
- form03 adds the submitted fields and a list of issue messages.
- form04 adds the submitted fields and an object from field name to message.

The model is purely functional. The schema parser is a function-typed
parameter (`Submission.Parser`). Form data is a sequence of `Entry` pairs, and
JavaScript objects are `map<string, string>`. Optional members are `Option`
values.

Modules:

- `Wrappers`: `Option`.
- `LastWins`: assigning a sequence of items into an object in order, with a
  later assignment overwriting an earlier one. `Object.fromEntries` and the
  form04 issue reshape are both instances of this.
- `FormEntries`: `Object.fromEntries`, `Object.keys`, and the copy loop that
  builds `fields`.
- `Submission`: issues, the parsed record, parse results, the email rule and
  the three outcomes.
- `Form02`, `Form03`, `Form04`: each version's `FormState` and
  `OnSubmitAction`. Each module also has a `ReadOutcome` function: it says
  what a caller can tell about the outcome from the returned state alone.

Three points of the code are worth knowing before reading the model:

- **Duplicate issues on a field.** The form04 reshape assigns
  `fieldsErrors[issue.path[0]] = issue.message` for every issue with a path,
  so when several issues name the same field the last one's message is kept
  (`Form04.ReshapeLastWins`, `Form04.ReshapeKeepsLaterMessage`).
- **Rule rejection in form03.** form03 answers a rule rejection with the
  message and the parsed record as `fields`, and no `issues`.
- **Rule rejection in form04.** form04 answers a rule rejection with both the
  parsed record as `fields` and an `issues` object holding an `email` error.

## Model

| member | source | states |
|---|---|---|
| FormEntries.FromEntries | src/app/form04/formServerSubmit.ts:15 | the decoded object has exactly one property for each name that some entry carries |
| FormEntries.FromEntriesLastWins | src/app/form04/formServerSubmit.ts:15 | when a name repeats, its property holds the value of the last entry with that name |
| FormEntries.ObjectKeys | src/app/form04/formServerSubmit.ts:32 | the key list names every submitted field exactly once and nothing else |
| FormEntries.CopyFields | src/app/form04/formServerSubmit.ts:30-34 | the corrected copy loop (see Findings) yields exactly the listed keys, each with the object's value |
| FormEntries.CopyFieldsAsWritten | src/app/form04/formServerSubmit.ts:32-34 | the loop as written copies every listed key except `__proto__`, each with the object's value |
| FormEntries.CopyOfFormDataIsTotal | src/app/form03/formServerSubmit.ts:22-25 | copying over `Object.keys` of the decoded form gives back the whole decoded form, not just the failing fields |
| FormEntries.CopyFieldsAsWrittenDropsProto | src/app/form04/formServerSubmit.ts:32-34 | with JavaScript's property assignment, the copy equals the intended copy minus the key `__proto__` |
| FormEntries.ProtoFieldNotRepopulated | src/app/form04/formServerSubmit.ts:33 | a form whose only field is named `__proto__` decodes to an object with that field, but its copy is empty |
| Submission.Decide | src/app/form02/formServerSubmit.ts:17-31 | exactly one of three outcomes for every parse result: schema rejection iff the parse failed, rule rejection iff it succeeded with an `a` in the email, acceptance otherwise |
| Submission.ProfileFields | src/app/form03/formServerSubmit.ts:34-37 | the parsed record returned as `fields` has exactly the properties first, last and email, and reading them back gives the parsed record |
| Form02.OnSubmitAction | src/app/form02/formServerSubmit.ts:9-31 | the state carries only a message: the parser's own message on a schema failure, "Email address is not valid" on a rule rejection, "Form submitted successfully" otherwise |
| Form02.OutcomeReadable | src/app/form02/formServerSubmit.ts:17-31 | if the parser never uses one of the two fixed texts as its failure message, the message identifies the outcome |
| Form02.SchemaFailureCanLookAccepted | src/app/form02/formServerSubmit.ts:17-21 | the hypothesis of `Form02.OutcomeReadable` cannot be dropped: since the failure message is passed through unchanged, a parser failing with the success text would give the state of an accepted submission |
| Form03.IssueMessages | src/app/form03/formServerSubmit.ts:29 | one message per issue, same length and order as the parser's issues, duplicates kept |
| Form03.OnSubmitAction | src/app/form03/formServerSubmit.ts:11-43 | schema failure: constant "parsed.error.message", the corrected total copy of the decoded form as fields, and the issue messages in order. Rule rejection: "Email address is not valid" with the parsed record and no issues. Acceptance: the success message alone |
| Form03.OutcomeReadable | src/app/form03/formServerSubmit.ts:21-42 | the returned state always identifies the outcome: issues only on a schema failure, fields without issues only on a rule rejection |
| Form03.PrevStateIgnored | src/app/form03/formServerSubmit.ts:11-16 | the result does not depend on the previous state |
| Form04.Reshape | src/app/form04/formServerSubmit.ts:37-42 | the error object's keys are exactly the first path segments of the issues that have a non-empty path |
| Form04.ReshapeEmpty | src/app/form04/formServerSubmit.ts:37-42 | reshaping no issues gives the empty object |
| Form04.ReshapeLastWins | src/app/form04/formServerSubmit.ts:38-41 | a field's message is that of the last issue reported against the field |
| Form04.ReshapeMessageIsLast | src/app/form04/formServerSubmit.ts:38-41 | every entry of the error object comes from the last issue on its field |
| Form04.ReshapeSkipsUnattributed | src/app/form04/formServerSubmit.ts:39 | inserting an issue with an empty path anywhere leaves the error object unchanged |
| Form04.ReshapeKeepsLaterMessage | src/app/form04/formServerSubmit.ts:38-41 | with "required" then "invalid format" on email, the error object is exactly `{email: "invalid format"}` |
| Form04.OnSubmitAction | src/app/form04/formServerSubmit.ts:11-64 | schema failure: constant "parsed.error.message", the corrected total copy of the decoded form as fields, and an error object keyed by the issues' first path segments, holding the last message per field. Rule rejection: the parsed record as fields and exactly `{email: "Email address is not valid a from server issue"}`. Acceptance: the success message with neither fields nor issues |
| Form04.OutcomeReadable | src/app/form04/formServerSubmit.ts:21-63 | the returned state always identifies the outcome |
| Form04.PrevStateIgnored | src/app/form04/formServerSubmit.ts:11-16 | the result does not depend on the previous state |

## Findings

| source | as written | input that shows it | evidently intended | confidence | as-written member | corrected member |
|---|---|---|---|---|---|---|
| src/app/form04/formServerSubmit.ts:33 | `fields[key] = formData[key].toString()` on an object created as `{}`. For the key `__proto__`, this calls the accessor inherited from `Object.prototype`, which ignores a string value | a form posting one field named `__proto__` with value `x`: `formData` has that property, `fields` is `{}` | `fields` is a total copy of the decoded form | medium, not executed | FormEntries.CopyFieldsAsWritten, FormEntries.ProtoFieldNotRepopulated | FormEntries.CopyFields, FormEntries.CopyOfFormDataIsTotal |
| src/app/form03/formServerSubmit.ts:24 | the same copy loop as form04 | the same `__proto__` form | `fields` is a total copy of the decoded form | medium, not executed | FormEntries.CopyFieldsAsWritten, FormEntries.ProtoFieldNotRepopulated | FormEntries.CopyFields, FormEntries.CopyOfFormDataIsTotal |

## Left out

- The React pages (form01, form03 and form04 `.tsx`) are not modelled. This covers `react-hook-form`, `useActionState`, and form04's `useEffect`, which pushes `issues` into `form.setError`. All of it is rendering and hook lifecycle.
- The zod schema in `formSchema.ts` is not part of this model. `safeParse` is an arbitrary parser parameter, so nothing is assumed about its constraints or about the order of its issues. Properties that depend on the schema are not stated, such as "error keys are declared field names" or "a missing field yields an issue". The parsed record is `Profile(first, last, email)`.
- zod issue paths may contain numbers. The model's paths are sequences of strings.
- `console.log` and `JSON.stringify` logging have no bearing on the result.
- `async`/`Promise`, `"use server"` and transport are not modelled. The action is a pure function.
- `FormData` entries holding `File` objects are not modelled. Every value is a string, so `toString()` is the identity.
- FormEntries.ObjectKeys: lists keys in first-entry order. JavaScript lists integer-like keys first, in ascending order. The copy sets each key once, so its result does not depend on this order.
- Form03.OnSubmitAction: on a schema failure `fields` is the corrected total copy (`FormEntries.CopyFields`), so a field named `__proto__` is kept, whereas the code as written drops it (see Findings, modelled by `FormEntries.CopyFieldsAsWritten`).
- Form04.OnSubmitAction: on a schema failure `fields` is the corrected total copy, as for form03; the code as written drops a field named `__proto__`.
- Form04.Reshape: uses a plain map update, so an issue whose path starts with `__proto__` gets an entry; the code's `fieldsErrors[...] = ...` on `{}` would swallow it through the same inherited accessor. The schema file is not part of this model; its fields are inferred from the page, which declares only first, last and email (src/app/form04/form04.tsx:57,73,90), so no such path is expected.
