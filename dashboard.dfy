/**
  The `EvaluationDashboard` component's list state. Each handler replaces the
  whole `testCases` value with the list its transformation computes, as the
  call to `setTestCases` does. The ghost flag `viewEditsOnly` records whether
  every update so far was one the view can make (of `input` or
  `expectedOutput`); while it holds, the evaluation-side fields keep their
  defaults.
 */
module Dashboard {
  import opened TestCaseList
  import opened Sessions

  class EvaluationDashboard {
    var testCases: seq<TestCase>
    ghost var viewEditsOnly: bool

    ghost predicate Valid()
      reads this
    {
      viewEditsOnly ==> forall tc :: tc in testCases ==> Untouched(tc)
    }

    /** The state right after mounting: the initial list. */
    constructor ()
      ensures Valid() && viewEditsOnly
      ensures testCases == InitialTestCases()
    {
      testCases := InitialTestCases();
      viewEditsOnly := true;
    }

    method AddTestCase()
      requires Valid()
      modifies this
      ensures Valid() && viewEditsOnly == old(viewEditsOnly)
      ensures testCases == TestCaseList.AddTestCase(old(testCases))
    {
      if viewEditsOnly {
        ApplyKeepsUntouched(testCases, Add, LengthPlusOne);
      }
      testCases := TestCaseList.AddTestCase(testCases);
    }

    method RemoveTestCase(id: int)
      requires Valid()
      modifies this
      ensures Valid() && viewEditsOnly == old(viewEditsOnly)
      ensures testCases == TestCaseList.RemoveTestCase(old(testCases), id)
    {
      RemoveMembership(testCases, id);
      testCases := TestCaseList.RemoveTestCase(testCases, id);
    }

    method UpdateTestCase(id: int, field: Field, value: string)
      requires Valid()
      modifies this
      ensures Valid() && viewEditsOnly == (old(viewEditsOnly) && field != ActualOutput)
      ensures testCases == TestCaseList.UpdateTestCase(old(testCases), id, field, value)
    {
      if viewEditsOnly && field != ActualOutput {
        ApplyKeepsUntouched(testCases, Update(id, field, value), LengthPlusOne);
      }
      testCases := TestCaseList.UpdateTestCase(testCases, id, field, value);
      viewEditsOnly := viewEditsOnly && field != ActualOutput;
    }
  }

  /** The view's sequence from the duplicate-id scenario, driven through the
      component's handlers. */
  method DuplicateIdSession() returns (ids: seq<int>, left: nat)
    ensures ids == [1, 3, 4, 4]
    ensures left == 2
  {
    var d := new EvaluationDashboard();
    d.AddTestCase();
    assert d.testCases == [Blank(1), Blank(2)];
    d.AddTestCase();
    assert d.testCases == [Blank(1), Blank(2), Blank(3)];
    d.AddTestCase();
    assert d.testCases == [Blank(1), Blank(2), Blank(3), Blank(4)];
    ScenarioRemove(Blank(1), Blank(2), Blank(3), Blank(4));
    d.RemoveTestCase(2);
    assert d.testCases == [Blank(1), Blank(3), Blank(4)];
    d.AddTestCase();
    var s := [Blank(1), Blank(3), Blank(4), Blank(4)];
    assert d.testCases == s;
    ids := Ids(d.testCases);
    assert ids == [1, 3, 4, 4];
    ScenarioRemoveFour(Blank(1), Blank(3), Blank(4), Blank(4));
    d.RemoveTestCase(4);
    assert d.testCases == [Blank(1), Blank(3)];
    left := |d.testCases|;
  }
}
