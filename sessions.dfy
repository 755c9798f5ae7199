/**
  Sessions of the dashboard: the list that results from the initial list after
  any sequence of the handlers' actions. This is where the id-assignment rule
  of `addTestCase` shows its defect (ids can repeat), and where the fields the
  view never edits are shown to stay at their defaults.
 */
module Sessions {
  import opened TestCaseList

  /** One user-triggered handler call. */
  datatype Action =
    | Add
    | Remove(id: int)
    | Update(id: int, field: Field, value: string)

  /** How `Add` picks the new id: as the component does (length plus one), or
      one more than the largest id in the list. */
  datatype IdPolicy = LengthPlusOne | MaxPlusOne

  /** The largest id in the list, or 0 for the empty list. */
  function MaxId(s: seq<TestCase>): (m: int)
    ensures m >= 0
    ensures forall tc :: tc in s ==> tc.id <= m
  {
    if s == [] then 0
    else var rest := MaxId(s[1..]); if s[0].id > rest then s[0].id else rest
  }

  /** The corrected `addTestCase`: the new record's id is larger than every id
      already in the list. */
  function AddTestCaseFreshId(s: seq<TestCase>): (r: seq<TestCase>)
    ensures |r| == |s| + 1
    ensures r[..|s|] == s
    ensures forall tc :: tc in s ==> tc.id < r[|s|].id
    ensures r[|s|] == Blank(r[|s|].id)
  {
    s + [Blank(MaxId(s) + 1)]
  }

  function Apply(s: seq<TestCase>, a: Action, policy: IdPolicy): seq<TestCase> {
    match a
    case Add => if policy == LengthPlusOne then AddTestCase(s) else AddTestCaseFreshId(s)
    case Remove(id) => RemoveTestCase(s, id)
    case Update(id, field, value) => UpdateTestCase(s, id, field, value)
  }

  /** The list after the actions, applied in order. */
  function Run(s: seq<TestCase>, acts: seq<Action>, policy: IdPolicy): seq<TestCase>
    decreases |acts|
  {
    if acts == [] then s else Run(Apply(s, acts[0], policy), acts[1..], policy)
  }

  lemma {:induction false} RunSnoc(s: seq<TestCase>, acts: seq<Action>, a: Action, policy: IdPolicy)
    ensures Run(s, acts + [a], policy) == Apply(Run(s, acts, policy), a, policy)
    decreases |acts|
  {
    if acts == [] {
      assert acts + [a] == [a];
    } else {
      assert (acts + [a])[0] == acts[0];
      assert (acts + [a])[1..] == acts[1..] + [a];
      RunSnoc(Apply(s, acts[0], policy), acts[1..], a, policy);
    }
  }

  /** The actions the view can trigger: its text areas edit only `input` and
      `expectedOutput`; `actualOutput` is rendered read-only. */
  predicate ViewAction(a: Action) {
    a.Update? ==> a.field != ActualOutput
  }

  /** A record whose evaluation-side fields still hold their defaults. */
  predicate Untouched(tc: TestCase) {
    tc.actualOutput == "" && tc.metrics == ZeroMetrics
  }

  lemma ApplyKeepsUntouched(s: seq<TestCase>, a: Action, policy: IdPolicy)
    requires forall tc :: tc in s ==> Untouched(tc)
    requires ViewAction(a)
    ensures forall tc :: tc in Apply(s, a, policy) ==> Untouched(tc)
  {
    var r := Apply(s, a, policy);
    if a.Remove? {
      RemoveMembership(s, a.id);
    }
    forall tc | tc in r ensures Untouched(tc) {
      var i :| 0 <= i < |r| && r[i] == tc;
      if a.Add? {
        if i < |s| {
          assert r[..|s|][i] == tc;
          assert tc in s;
        }
      } else if a.Update? {
        assert s[i] in s;
        if s[i].id == a.id {
          assert GetField(r[i], ActualOutput) == GetField(s[i], ActualOutput);
        }
      }
    }
  }

  /** Whatever the user does through the view, under either id policy, every
      record keeps an empty `actualOutput` and all four metrics at 0. */
  lemma {:induction false} ViewSessionKeepsUntouched(s: seq<TestCase>, acts: seq<Action>, policy: IdPolicy)
    requires forall tc :: tc in s ==> Untouched(tc)
    requires forall a :: a in acts ==> ViewAction(a)
    ensures forall tc :: tc in Run(s, acts, policy) ==> Untouched(tc)
    decreases |acts|
  {
    if acts != [] {
      ApplyKeepsUntouched(s, acts[0], policy);
      assert forall a :: a in acts[1..] ==> a in acts;
      ViewSessionKeepsUntouched(Apply(s, acts[0], policy), acts[1..], policy);
    }
  }

  lemma ViewSessionFromInitial(acts: seq<Action>, policy: IdPolicy)
    requires forall a :: a in acts ==> ViewAction(a)
    ensures forall tc :: tc in Run(InitialTestCases(), acts, policy) ==> tc.actualOutput == ""
    ensures forall tc :: tc in Run(InitialTestCases(), acts, policy) ==> tc.metrics == ZeroMetrics
  {
    ViewSessionKeepsUntouched(InitialTestCases(), acts, policy);
  }

  /** The view's restriction matters: `updateTestCase` itself accepts
      `actualOutput`, and one such call leaves the defaults. */
  lemma ActualOutputEditableThroughUpdate()
    ensures Run(InitialTestCases(), [Update(1, ActualOutput, "x")], LengthPlusOne)[0].actualOutput == "x"
  {
  }

  /** No two records share an id. */
  predicate UniqueIds(s: seq<TestCase>) {
    forall i, j :: 0 <= i < j < |s| ==> s[i].id != s[j].id
  }

  lemma RunCons(s: seq<TestCase>, a: Action, rest: seq<Action>, policy: IdPolicy)
    ensures Run(s, [a] + rest, policy) == Run(Apply(s, a, policy), rest, policy)
  {
  }

  /** Removing id 2 from records with ids 1 to 4 keeps the other three in order. */
  lemma ScenarioRemove(b1: TestCase, b2: TestCase, b3: TestCase, b4: TestCase)
    requires b1.id == 1 && b2.id == 2 && b3.id == 3 && b4.id == 4
    ensures RemoveTestCase([b1, b2, b3, b4], 2) == [b1, b3, b4]
  {
    RemoveAbsentIsIdentity([b3, b4], 2);
    assert [b2, b3, b4] == [b2] + [b3, b4];
    RemoveConsDrop(b2, [b3, b4], 2);
    assert [b1, b2, b3, b4] == [b1] + [b2, b3, b4];
    RemoveConsKeep(b1, [b2, b3, b4], 2);
  }

  /** Removing id 4 from records with ids 1, 3, 4, 4 deletes both of the last two. */
  lemma ScenarioRemoveFour(b1: TestCase, b3: TestCase, b4: TestCase, b4': TestCase)
    requires b1.id == 1 && b3.id == 3 && b4.id == 4 && b4'.id == 4
    ensures RemoveTestCase([b1, b3, b4, b4'], 4) == [b1, b3]
  {
    RemoveAppend([b1, b3], [b4, b4'], 4);
    assert [b1, b3] + [b4, b4'] == [b1, b3, b4, b4'];
    RemoveAbsentIsIdentity([b1, b3], 4);
    assert [b4, b4'] == [b4] + [b4'];
    RemoveConsDrop(b4, [b4'], 4);
    assert [b4'] == [b4'] + [];
    RemoveConsDrop(b4', [], 4);
  }

  /** The as-written list after three adds, removing id 2, and one more add. */
  lemma ScenarioList()
    ensures Run(InitialTestCases(), [Add, Add, Add, Remove(2), Add], LengthPlusOne)
         == [Blank(1), Blank(3), Blank(4), Blank(4)]
  {
    var acts := [Add, Add, Add, Remove(2), Add];
    var s0 := InitialTestCases();
    var s3 := AddTestCase(AddTestCase(AddTestCase(s0)));
    assert s3 == [Blank(1), Blank(2), Blank(3), Blank(4)];
    ScenarioRemove(Blank(1), Blank(2), Blank(3), Blank(4));
    RunCons(s0, Add, acts[1..], LengthPlusOne);
    RunCons(AddTestCase(s0), Add, acts[2..], LengthPlusOne);
    RunCons(AddTestCase(AddTestCase(s0)), Add, acts[3..], LengthPlusOne);
    RunCons(s3, Remove(2), acts[4..], LengthPlusOne);
    RunCons(RemoveTestCase(s3, 2), Add, [], LengthPlusOne);
    assert acts == [Add] + acts[1..];
    assert acts[1..] == [Add] + acts[2..];
    assert acts[2..] == [Add] + acts[3..];
    assert acts[3..] == [Remove(2)] + acts[4..];
    assert acts[4..] == [Add] + [];
  }

  /** As written, three adds, removing id 2, and one more add give ids
      [1, 3, 4, 4]; removing id 4 then deletes two records at once. */
  lemma DuplicateIdsScenario()
    ensures Ids(Run(InitialTestCases(), [Add, Add, Add, Remove(2), Add], LengthPlusOne)) == [1, 3, 4, 4]
    ensures !UniqueIds(Run(InitialTestCases(), [Add, Add, Add, Remove(2), Add], LengthPlusOne))
    ensures |Run(InitialTestCases(), [Add, Add, Add, Remove(2), Add, Remove(4)], LengthPlusOne)| == 2
  {
    var acts := [Add, Add, Add, Remove(2), Add];
    var s5 := [Blank(1), Blank(3), Blank(4), Blank(4)];
    ScenarioList();
    assert s5[2].id == s5[3].id;
    RunSnoc(InitialTestCases(), acts, Remove(4), LengthPlusOne);
    assert acts + [Remove(4)] == [Add, Add, Add, Remove(2), Add, Remove(4)];
    ScenarioRemoveFour(Blank(1), Blank(3), Blank(4), Blank(4));
  }

  lemma {:induction false} RemoveKeepsUniqueIds(s: seq<TestCase>, id: int)
    requires UniqueIds(s)
    ensures UniqueIds(RemoveTestCase(s, id))
  {
    if s != [] {
      var rest := RemoveTestCase(s[1..], id);
      RemoveKeepsUniqueIds(s[1..], id);
      RemoveMembership(s[1..], id);
      if s[0].id != id {
        var r := [s[0]] + rest;
        forall j | 0 < j < |r| ensures r[0].id != r[j].id {
          assert rest[j - 1] in rest;
          var k :| 0 <= k < |s[1..]| && s[1..][k] == rest[j - 1];
          assert s[k + 1] == r[j];
        }
      }
    }
  }

  lemma ApplyCorrectedKeepsUniqueIds(s: seq<TestCase>, a: Action)
    requires UniqueIds(s)
    ensures UniqueIds(Apply(s, a, MaxPlusOne))
  {
    match a
    case Add =>
      var r := AddTestCaseFreshId(s);
      forall i | 0 <= i < |s| ensures r[i].id != r[|s|].id {
        assert r[i] == r[..|s|][i];
        assert s[i] in s;
      }
    case Remove(id) =>
      RemoveKeepsUniqueIds(s, id);
    case Update(id, field, value) =>
  }

  /** With the corrected id policy, no sequence of actions produces a repeated id. */
  lemma {:induction false} CorrectedSessionKeepsUniqueIds(s: seq<TestCase>, acts: seq<Action>)
    requires UniqueIds(s)
    ensures UniqueIds(Run(s, acts, MaxPlusOne))
    decreases |acts|
  {
    if acts != [] {
      ApplyCorrectedKeepsUniqueIds(s, acts[0]);
      CorrectedSessionKeepsUniqueIds(Apply(s, acts[0], MaxPlusOne), acts[1..]);
    }
  }

  /** The same actions as in DuplicateIdsScenario keep ids distinct once the
      corrected policy is used; the final add gets id 5. */
  lemma CorrectedScenario()
    ensures UniqueIds(Run(InitialTestCases(), [Add, Add, Add, Remove(2), Add], MaxPlusOne))
  {
    CorrectedSessionKeepsUniqueIds(InitialTestCases(), [Add, Add, Add, Remove(2), Add]);
  }
}
