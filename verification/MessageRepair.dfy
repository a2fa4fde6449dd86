/**
 * Merging a batch of commit-message repairs into the rejected plans
 * (src/modules/core/commit-message-repair.ts: mergeCommitMessageRepairs).
 *
 * A response that does not have the expected shape is `None`; plan indexes in it are then not negative.
 */
module MessageRepair {
  import opened Base
  import opened Plans
  import Sorting

  datatype Repair = Repair(planIndex: nat, commit: CommitMessage)

  datatype RepairError = Malformed | IndexesDiffer | ProtectedFieldsChanged

  predicate Less(x: int, y: int) {
    x < y
  }

  function Itself(x: int): int {
    x
  }

  function Ordered(s: seq<int>): (r: seq<int>)
    ensures multiset(r) == multiset(s)
  {
    Sorting.Sort(s, Itself, Less)
  }

  /** The plan indexes of the validation errors that have one. */
  function Indexes(errors: seq<Option<int>>): seq<int> {
    if errors == [] then []
    else (if errors[0].Some? then [errors[0].value] else []) + Indexes(errors[1..])
  }

  function Answered(repairs: seq<Repair>): (r: seq<int>)
    ensures |r| == |repairs| && forall i :: 0 <= i < |r| ==> r[i] == repairs[i].planIndex
  {
    seq(|repairs|, i requires 0 <= i < |repairs| => repairs[i].planIndex)
  }

  /** The repair leaves type, scope and breaking mark of an existing plan alone. */
  predicate KeepsMeaning(plans: seq<CommitPlan>, repair: Repair) {
    && repair.planIndex < |plans|
    && var rejected := plans[repair.planIndex].commit;
       repair.commit.kind == rejected.kind && repair.commit.scope == rejected.scope
       && repair.commit.isBreaking == rejected.isBreaking
  }

  /** `new Map(…).get(index)`: the last repair given for the index. */
  function Lookup(repairs: seq<Repair>, index: nat): Option<CommitMessage> {
    if repairs == [] then None
    else
      var last := repairs[|repairs| - 1];
      if last.planIndex == index then Some(last.commit) else Lookup(repairs[..|repairs| - 1], index)
  }

  function Patched(plans: seq<CommitPlan>, repairs: seq<Repair>): (r: seq<CommitPlan>)
    ensures |r| == |plans|
  {
    seq(|plans|, i requires 0 <= i < |plans| =>
      match Lookup(repairs, i)
      case Some(commit) => CommitPlan(commit, plans[i].files)
      case None => plans[i])
  }

  function Merge(plans: seq<CommitPlan>, errors: seq<Option<int>>, response: Option<seq<Repair>>)
    : Result<seq<CommitPlan>, RepairError>
  {
    match response
    case None => Err(Malformed)
    case Some(repairs) =>
      if Ordered(Answered(repairs)) != Ordered(Dedup(Indexes(errors))) then Err(IndexesDiffer)
      else if exists r :: r in repairs && !KeepsMeaning(plans, r) then Err(ProtectedFieldsChanged)
      else Ok(Patched(plans, repairs))
  }

  lemma LessIsTotal()
    ensures Sorting.StrictTotal(Less)
  {
  }

  lemma {:induction false} AtMostOnce(s: seq<int>, x: int)
    requires Distinct(s)
    ensures multiset(s)[x] == if x in s then 1 else 0
  {
    if s != [] {
      assert s == [s[0]] + s[1..];
      assert Distinct(s[1..]);
      AtMostOnce(s[1..], x);
      assert x in s <==> x == s[0] || x in s[1..];
      assert x == s[0] ==> x !in s[1..];
    }
  }

  lemma TwiceMeansTwo(s: seq<int>, i: nat, j: nat)
    requires i < j < |s| && s[i] == s[j]
    ensures multiset(s)[s[i]] >= 2
  {
    assert s == s[..j] + [s[j]] + s[j + 1..];
    assert s[..j][i] == s[i] && s[i] in s[..j];
    assert multiset(s) == multiset(s[..j]) + multiset{s[j]} + multiset(s[j + 1..]);
  }

  /** Sorted lists agree exactly when one list is a permutation of the other. */
  lemma SortsTellPermutations(a: seq<int>, b: seq<int>)
    requires Distinct(b)
    ensures Ordered(a) == Ordered(b) <==> multiset(a) == multiset(b)
  {
    if multiset(a) == multiset(b) {
      forall i, j | 0 <= i < j < |a|
        ensures a[i] != a[j]
      {
        AtMostOnce(b, a[i]);
        if a[i] == a[j] {
          TwiceMeansTwo(a, i, j);
        }
      }
      LessIsTotal();
      Sorting.SortAscends(a, Itself, Less);
      Sorting.SortAscends(b, Itself, Less);
      Sorting.Members(Ordered(a), Ordered(b));
      assert Sorting.Keys(Ordered(a), Itself) == Ordered(a) && Sorting.Keys(Ordered(b), Itself) == Ordered(b);
      Sorting.AscendingUnique(Ordered(a), Ordered(b), Less);
    } else {
      assert multiset(Ordered(a)) != multiset(Ordered(b));
    }
  }

  /** The plans the validation errors ask about. */
  predicate Requested(errors: seq<Option<int>>, index: int) {
    Some(index) in errors
  }

  lemma {:induction false} IndexesAreRequested(errors: seq<Option<int>>, x: int)
    ensures x in Indexes(errors) <==> Requested(errors, x)
  {
    if errors != [] {
      IndexesAreRequested(errors[1..], x);
      assert errors == [errors[0]] + errors[1..];
    }
  }

  /** Every requested index is answered exactly once, and no other index is. */
  ghost predicate AnswersExactly(repairs: seq<Repair>, errors: seq<Option<int>>) {
    && (forall i, j :: 0 <= i < j < |repairs| ==> repairs[i].planIndex != repairs[j].planIndex)
    && (forall r :: r in repairs ==> Requested(errors, r.planIndex))
    && forall x :: Requested(errors, x) ==> exists r :: r in repairs && r.planIndex == x
  }

  lemma PermutationIsExact(repairs: seq<Repair>, errors: seq<Option<int>>)
    ensures multiset(Answered(repairs)) == multiset(Dedup(Indexes(errors))) <==> AnswersExactly(repairs, errors)
  {
    hide Dedup, Indexes, Requested;
    var a, b := Answered(repairs), Dedup(Indexes(errors));
    DedupKeepsAll(Indexes(errors));
    forall x
      ensures x in b <==> Requested(errors, x)
    {
      IndexesAreRequested(errors, x);
    }
    if multiset(a) == multiset(b) {
      PermutationAnswers(repairs, errors, a, b);
    }
    if AnswersExactly(repairs, errors) {
      assert Distinct(a);
      forall x
        ensures multiset(a)[x] == multiset(b)[x]
      {
        AtMostOnce(a, x);
        AtMostOnce(b, x);
        if x in b {
          var r :| r in repairs && r.planIndex == x;
          var i :| 0 <= i < |repairs| && repairs[i] == r;
          assert a[i] == x;
        }
        if x in a {
          var i :| 0 <= i < |a| && a[i] == x;
          assert repairs[i] in repairs;
        }
      }
    }
  }

  lemma PermutationAnswers(repairs: seq<Repair>, errors: seq<Option<int>>, a: seq<int>, b: seq<int>)
    requires a == Answered(repairs) && Distinct(b) && multiset(a) == multiset(b)
    requires forall x :: x in b <==> Requested(errors, x)
    ensures AnswersExactly(repairs, errors)
  {
    hide Requested;
    Sorting.Members(a, b);
    forall i, j | 0 <= i < j < |repairs|
      ensures repairs[i].planIndex != repairs[j].planIndex
    {
      AtMostOnce(b, a[i]);
      if a[i] == a[j] {
        TwiceMeansTwo(a, i, j);
      }
    }
    forall r | r in repairs
      ensures Requested(errors, r.planIndex)
    {
      var i :| 0 <= i < |repairs| && repairs[i] == r;
      assert a[i] in a;
    }
    forall x | Requested(errors, x)
      ensures exists r :: r in repairs && r.planIndex == x
    {
      assert x in a;
      var i :| 0 <= i < |a| && a[i] == x;
      assert repairs[i] in repairs;
    }
  }

  /** Every repair is for a plan that exists, with the same type, scope and breaking mark. */
  predicate KeepsFields(plans: seq<CommitPlan>, repairs: seq<Repair>) {
    forall r :: r in repairs ==>
      && r.planIndex < |plans|
      && r.commit.kind == plans[r.planIndex].commit.kind
      && r.commit.scope == plans[r.planIndex].commit.scope
      && r.commit.isBreaking == plans[r.planIndex].commit.isBreaking
  }

  /**
   * The merge succeeds if and only if every requested plan is answered once and keeps its protected fields; the
   * indexes are complained of before the fields.
   */
  lemma MergeSucceedsIff(plans: seq<CommitPlan>, errors: seq<Option<int>>, repairs: seq<Repair>)
    ensures Merge(plans, errors, Some(repairs)).Ok? <==> AnswersExactly(repairs, errors) && KeepsFields(plans, repairs)
    ensures Merge(plans, errors, Some(repairs)) == Err(IndexesDiffer) <==> !AnswersExactly(repairs, errors)
    ensures Merge(plans, errors, None) == Err(Malformed)
  {
    hide Ordered, Dedup, Indexes, AnswersExactly;
    DedupKeepsAll(Indexes(errors));
    SortsTellPermutations(Answered(repairs), Dedup(Indexes(errors)));
    PermutationIsExact(repairs, errors);
  }

  lemma {:induction false} LookupFinds(repairs: seq<Repair>, index: nat)
    ensures Lookup(repairs, index).Some? ==> Repair(index, Lookup(repairs, index).value) in repairs
    ensures Lookup(repairs, index).None? ==> forall r :: r in repairs ==> r.planIndex != index
  {
    if repairs != [] {
      var front, last := repairs[..|repairs| - 1], repairs[|repairs| - 1];
      LookupFinds(front, index);
      assert repairs == front + [last];
    }
  }

  /** The merged plans against the rejected ones, plan by plan. */
  ghost predicate RepairedFrom(merged: seq<CommitPlan>, plans: seq<CommitPlan>, errors: seq<Option<int>>,
                               repairs: seq<Repair>) {
    && |merged| == |plans|
    && (forall i :: 0 <= i < |plans| ==>
          && merged[i].files == plans[i].files
          && merged[i].commit.kind == plans[i].commit.kind
          && merged[i].commit.scope == plans[i].commit.scope
          && merged[i].commit.isBreaking == plans[i].commit.isBreaking)
    && (forall r :: r in repairs ==> r.planIndex < |plans| && merged[r.planIndex].commit == r.commit)
    && (forall i :: 0 <= i < |plans| && !Requested(errors, i) ==> merged[i] == plans[i])
  }

  /**
   * A successful merge keeps the plan count, every file list, type, scope and breaking mark; each requested
   * plan takes its own repair, and every other plan is untouched.
   */
  lemma MergeRepairsOnlyMessages(plans: seq<CommitPlan>, errors: seq<Option<int>>, repairs: seq<Repair>)
    requires Merge(plans, errors, Some(repairs)).Ok?
    ensures RepairedFrom(Merge(plans, errors, Some(repairs)).value, plans, errors, repairs)
  {
    MergeSucceedsIff(plans, errors, repairs);
    hide Ordered, Dedup, Indexes, Lookup, Requested;
    var merged := Patched(plans, repairs);
    forall i | 0 <= i < |plans|
      ensures merged[i].files == plans[i].files && merged[i].commit.kind == plans[i].commit.kind
      ensures merged[i].commit.scope == plans[i].commit.scope
              && merged[i].commit.isBreaking == plans[i].commit.isBreaking
      ensures !Requested(errors, i) ==> merged[i] == plans[i]
    {
      LookupFinds(repairs, i);
      if Lookup(repairs, i).Some? {
        assert KeepsMeaning(plans, Repair(i, Lookup(repairs, i).value));
      }
    }
    forall r | r in repairs
      ensures r.planIndex < |plans| && merged[r.planIndex].commit == r.commit
    {
      LookupFinds(repairs, r.planIndex);
      assert KeepsMeaning(plans, r);
      var found := Repair(r.planIndex, Lookup(repairs, r.planIndex).value);
      var i :| 0 <= i < |repairs| && repairs[i] == r;
      var j :| 0 <= j < |repairs| && repairs[j] == found;
    }
  }
}
