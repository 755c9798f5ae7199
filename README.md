# Test-case list of the RAG evaluation dashboard

This project models the one piece of logic in the `EvaluationDashboard` React
component: the list of evaluation test cases it holds in its `testCases`
state. A test case has an `id`, three texts (`input`, `expectedOutput`,
`actualOutput`) and four metric scores (`relevance`, `coherence`,
`groundedness`, `context_recall`). The list starts as one blank case with id 1.
Three handlers replace it:

- `addTestCase` appends a blank case whose id is the current length plus one;
- `removeTestCase(id)` keeps the cases whose id differs from `id`;
- `updateTestCase(id, field, value)` replaces one text field on every case with that id.

The modules are:

- `TestCaseList` (`test_case_list.dfy`): the record, the initial list and the
  three transformations as pure functions, with lemmas. Filtering is also
  described independently, as an order-preserving selection that keeps every
  other record with its multiplicity. `RemoveCharacterized` proves that this
  description holds exactly for the filter's result.
- `Sessions` (`sessions.dfy`): sequences of handler calls, folded over the
  list. It shows three things. Sessions made only of the view's edits keep
  every `actualOutput` empty and every metric at 0. The length-plus-one id rule
  produces repeated ids. A corrected rule keeps ids distinct.
- `Dashboard` (`dashboard.dfy`): a class with the `testCases` field. Each
  handler method assigns the new list, as `setTestCases` does. A ghost flag
  records whether every update so far was one the view can make. The class
  invariant says that while the flag holds, no record has an `actualOutput`
  or a non-zero metric.

Metrics are `real`, because they are JavaScript numbers, but every value the
code stores is the literal 0. The computed key `[field]` becomes the closed
type `Field = Input | ExpectedOutput | ActualOutput`. Ids are `int`, and JavaScript's
`!==` and `===` on them become `!=` and `==`.

Two behaviours of the code are easy to misread, and the model follows the
code in both. Removing an id deletes every case that carries it, not at most
one (`RemoveTestCase`, `DuplicateIdsScenario`). `updateTestCase` accepts
`actualOutput` as a field. Only the view limits edits to `input` and
`expectedOutput` (`ActualOutputEditableThroughUpdate`).

## Model

| member | source | states |
|---|---|---|
| `TestCaseList.InitialTestCases` | dashboard/src/EvaluationDashboard.jsx:6-19 | the initial list has exactly one case: id 1, all three texts empty, all four metrics 0 |
| `TestCaseList.Blank` | dashboard/src/EvaluationDashboard.jsx:26-36 | a new case has the given id, every text field empty and each of the four metrics equal to 0 |
| `TestCaseList.AddTestCase` | dashboard/src/EvaluationDashboard.jsx:24-38 | the result is one longer, its prefix is the old list unchanged, and its last element is a blank case with id old length + 1 |
| `TestCaseList.SetField` | dashboard/src/EvaluationDashboard.jsx:46 | the spread copy holds `value` under `field`; the other text fields, the id and the metrics are kept |
| `TestCaseList.SameFieldsSameRecord` | dashboard/src/EvaluationDashboard.jsx:46 | a case is determined by its id, its metrics and its three texts, so SetField's contract fixes its result |
| `TestCaseList.RemoveTestCase` | dashboard/src/EvaluationDashboard.jsx:40-42 | the length drops by the number of cases that carry the id, so every one of them is removed |
| `TestCaseList.RemoveMembership` | dashboard/src/EvaluationDashboard.jsx:41 | a case is in the result if and only if it is in the input and has another id |
| `TestCaseList.RemoveConsKeep` | dashboard/src/EvaluationDashboard.jsx:41 | a first case with another id stays first, followed by the filtered rest |
| `TestCaseList.RemoveConsDrop` | dashboard/src/EvaluationDashboard.jsx:41 | a first case with the id is dropped, and the rest is filtered |
| `TestCaseList.RemoveAbsentIsIdentity` | dashboard/src/EvaluationDashboard.jsx:41 | removing an id that no case carries returns the list unchanged |
| `TestCaseList.RemoveAppend` | dashboard/src/EvaluationDashboard.jsx:41 | filtering distributes over concatenation, so the relative order of kept cases is preserved |
| `TestCaseList.RemoveMultiplicity` | dashboard/src/EvaluationDashboard.jsx:41 | every case with another id keeps its multiplicity, and every case with the id is gone, however many there were |
| `TestCaseList.RemoveIdempotent` | dashboard/src/EvaluationDashboard.jsx:41 | removing the same id a second time changes nothing |
| `TestCaseList.RemoveKeepsExactlyOthers` | dashboard/src/EvaluationDashboard.jsx:41 | the filter's result is an order-preserving selection with no case carrying the id and every other case at full multiplicity |
| `TestCaseList.OnlyTheFilterKeepsExactlyOthers` | dashboard/src/EvaluationDashboard.jsx:41 | any list that satisfies that selection description equals the filter's result |
| `TestCaseList.RemoveCharacterized` | dashboard/src/EvaluationDashboard.jsx:41 | a list satisfies the independent selection description if and only if it is the filter's result |
| `TestCaseList.UpdateTestCase` | dashboard/src/EvaluationDashboard.jsx:44-48 | length, order, ids and metrics are kept; cases with other ids are identical; matching cases hold `value` under `field` and keep their other texts |
| `TestCaseList.UpdateAbsentIsIdentity` | dashboard/src/EvaluationDashboard.jsx:45-46 | updating an id that no case carries returns the list unchanged |
| `TestCaseList.UpdateLastWriteWins` | dashboard/src/EvaluationDashboard.jsx:45-46 | two updates of the same id and field equal the second one alone |
| `TestCaseList.RemoveAfterUpdate` | dashboard/src/EvaluationDashboard.jsx:40-47 | editing the cases with an id and then removing that id equals removing it directly |
| `TestCaseList.CountIdZero` | dashboard/src/EvaluationDashboard.jsx:41 | no case carries the id exactly when the count of cases with that id is 0 |
| `Sessions.ApplyKeepsUntouched` | dashboard/src/EvaluationDashboard.jsx:24-47 | add, remove and an update of `input` or `expectedOutput` keep every case's `actualOutput` empty and its metrics at 0 |
| `Sessions.ViewSessionKeepsUntouched` | dashboard/src/EvaluationDashboard.jsx:98-145 | any sequence of the view's actions keeps those defaults, under either id rule |
| `Sessions.ViewSessionFromInitial` | dashboard/src/EvaluationDashboard.jsx:6-19 | from the initial list, after any sequence of the view's actions, every `actualOutput` is empty and every metric is 0 |
| `Sessions.ActualOutputEditableThroughUpdate` | dashboard/src/EvaluationDashboard.jsx:44-47 | the handler itself accepts `actualOutput`: one such update from the initial list changes it |
| `Sessions.ScenarioRemove` | dashboard/src/EvaluationDashboard.jsx:41 | removing id 2 from cases 1..4 leaves cases 1, 3, 4 in order |
| `Sessions.ScenarioRemoveFour` | dashboard/src/EvaluationDashboard.jsx:41 | removing id 4 from cases with ids 1, 3, 4, 4 deletes both cases with id 4 |
| `Sessions.ScenarioList` | dashboard/src/EvaluationDashboard.jsx:24-42 | three adds, removing id 2 and one more add give the blank cases 1, 3, 4, 4 |
| `Sessions.DuplicateIdsScenario` | dashboard/src/EvaluationDashboard.jsx:25 | ids are not unique: that session gives ids [1, 3, 4, 4], and removing id 4 then leaves two cases |
| `Sessions.RunCons` | dashboard/src/EvaluationDashboard.jsx:24-48 | a session that starts with one handler call continues from that call's result |
| `Sessions.RunSnoc` | dashboard/src/EvaluationDashboard.jsx:24-48 | the last handler call of a session applies to the list the earlier calls left |
| `Sessions.MaxId` | dashboard/src/EvaluationDashboard.jsx:25 | the value is at least 0 and at least every id in the list (the basis of the corrected rule) |
| `Sessions.AddTestCaseFreshId` | dashboard/src/EvaluationDashboard.jsx:24-37 | corrected add: appends a blank case, keeps the old prefix, and gives it an id larger than every existing id |
| `Sessions.RemoveKeepsUniqueIds` | dashboard/src/EvaluationDashboard.jsx:40-42 | removing an id keeps ids distinct if they were distinct before |
| `Sessions.ApplyCorrectedKeepsUniqueIds` | dashboard/src/EvaluationDashboard.jsx:24-48 | under the corrected rule, every handler call keeps ids distinct |
| `Sessions.CorrectedSessionKeepsUniqueIds` | dashboard/src/EvaluationDashboard.jsx:24-48 | under the corrected rule, every session from a list with distinct ids keeps them distinct |
| `Sessions.CorrectedScenario` | dashboard/src/EvaluationDashboard.jsx:24-42 | the session that repeats an id as written keeps ids distinct under the corrected rule |
| `Dashboard.EvaluationDashboard.constructor` | dashboard/src/EvaluationDashboard.jsx:6-19 | the mounted state is the initial list, which satisfies the invariant with the view-edit flag set |
| `Dashboard.EvaluationDashboard.AddTestCase` | dashboard/src/EvaluationDashboard.jsx:24-38 | the state becomes the appended list; the invariant and the flag are kept |
| `Dashboard.EvaluationDashboard.RemoveTestCase` | dashboard/src/EvaluationDashboard.jsx:40-42 | the state becomes the filtered list; the invariant and the flag are kept |
| `Dashboard.EvaluationDashboard.UpdateTestCase` | dashboard/src/EvaluationDashboard.jsx:44-48 | the state becomes the mapped list; the invariant is kept, and the flag is cleared by an `actualOutput` update |
| `Dashboard.DuplicateIdSession` | dashboard/src/EvaluationDashboard.jsx:24-42 | driving the handlers through the duplicate-id session gives ids [1, 3, 4, 4] and then two cases left |

## Left out

- `exportTestCases` is not modelled (`JSON.stringify`, `encodeURIComponent` and an anchor click). It consists only of browser and library calls.
- JSX rendering is not modelled, including the `toFixed(2)` display of metrics. It is presentation and floating-point formatting.
- `selectedTestCase` and `evaluationResults` are not modelled. Nothing in the component ever sets them, and `evaluationResults` is only read for display.
- React `useState` semantics are not modelled (batching, stale closures, re-rendering). Each handler replaces the state with the list it computes.
- Metric arithmetic is not modelled. The component never computes a metric; it only stores the literal 0.
- JavaScript values other than numbers as ids are not modelled. The component passes only the numeric `testCase.id` to the handlers.
- The id rule in the class is the one as written (length plus one), because the class models the component. The corrected rule is used by the session model (`IdPolicy.MaxPlusOne`), where uniqueness is proved.

## Findings

| source | as written | input that shows it | evidently intended | confidence | as-written member | corrected member |
|---|---|---|---|---|---|---|
| dashboard/src/EvaluationDashboard.jsx:25 | the new id is `testCases.length + 1`, so after a removal it can equal an id still in the list, and a later removal of that id deletes several cases | from the initial list: add, add, add, remove id 2, add gives ids [1, 3, 4, 4] | a new case gets an id that no case in the list carries | not executed | `Sessions.DuplicateIdsScenario` | `Sessions.CorrectedSessionKeepsUniqueIds` |
