/** The stored records and the list operations every handler uses:
    `Array.prototype.filter` over transactions and the
    `reduce((sum, t) => sum + t.amount, 0)` sum of amounts. */
module Ledger {
  import opened Http
  import opened Calendar

  const INCOME := "income"
  const EXPENSE := "expense"

  type TransactionId = nat

  /** A stored transaction. `kind` is the stored `type` string; the handlers
      compare it with "income" and "expense" only. `notes` is None for a
      record without the field. */
  datatype Transaction = Transaction(
    id: TransactionId,
    userId: UserId,
    kind: string,
    amount: real,
    category: string,
    date: Date,
    notes: Option<string>)

  /** The user record: the savings goal the core reads and writes, and
      `email` and `name` standing for the fields a goal update must leave
      alone. */
  datatype User = User(id: UserId, email: string, name: string, savingsGoalPercentage: real)

  /** Schema range of `savingsGoalPercentage`. */
  predicate ValidGoal(p: real) {
    0.0 <= p <= 100.0
  }

  predicate IsIncome(t: Transaction) {
    t.kind == INCOME
  }

  predicate IsExpense(t: Transaction) {
    t.kind == EXPENSE
  }

  predicate OwnedBy(uid: UserId, t: Transaction) {
    t.userId == uid
  }

  /** `s.filter(p)`: the elements satisfying `p`, in their original order. */
  function Filter(s: seq<Transaction>, p: Transaction -> bool): (r: seq<Transaction>)
    ensures |r| <= |s|
  {
    if s == [] then []
    else Filter(s[..|s| - 1], p) + (if p(s[|s| - 1]) then [s[|s| - 1]] else [])
  }

  /** An element is kept exactly when it occurs in `s` and satisfies `p`. */
  lemma {:induction false} FilterMembers(s: seq<Transaction>, p: Transaction -> bool)
    ensures forall t :: t in Filter(s, p) <==> t in s && p(t)
  {
    if s != [] {
      FilterMembers(s[..|s| - 1], p);
      assert s == s[..|s| - 1] + [s[|s| - 1]];
    }
  }

  /** `s.reduce((sum, t) => sum + t.amount, 0)` */
  function Total(s: seq<Transaction>): (r: real)
    ensures (forall t :: t in s ==> t.amount >= 0.0) ==> r >= 0.0
  {
    if s == [] then 0.0 else Total(s[..|s| - 1]) + s[|s| - 1].amount
  }

  /** Filtering one more element adds its amount exactly when it is kept. */
  lemma FilterSnocTotal(s: seq<Transaction>, t: Transaction, p: Transaction -> bool)
    ensures Filter(s + [t], p) == Filter(s, p) + (if p(t) then [t] else [])
    ensures Total(Filter(s + [t], p)) == Total(Filter(s, p)) + (if p(t) then t.amount else 0.0)
  {
    var st := s + [t];
    assert st[..|s|] == s && st[|s|] == t;
    var f := Filter(s, p);
    if p(t) {
      var ft := f + [t];
      assert Filter(st, p) == ft;
      assert ft[..|f|] == f && ft[|f|] == t;
      assert Total(ft) == Total(f) + t.amount;
    } else {
      assert Filter(st, p) == f + [];
      assert f + [] == f;
    }
  }

  /** `r` can be obtained from `s` by deleting elements: it keeps their order. */
  ghost predicate Subsequence(r: seq<Transaction>, s: seq<Transaction>) {
    if r == [] then true
    else if s == [] then false
    else
      || (r[|r| - 1] == s[|s| - 1] && Subsequence(r[..|r| - 1], s[..|s| - 1]))
      || Subsequence(r, s[..|s| - 1])
  }

  lemma {:induction false} FilterIsSubsequence(s: seq<Transaction>, p: Transaction -> bool)
    ensures Subsequence(Filter(s, p), s)
  {
    if s != [] {
      var init := s[..|s| - 1];
      FilterIsSubsequence(init, p);
      var f := Filter(init, p);
      if p(s[|s| - 1]) {
        assert Filter(s, p) == f + [s[|s| - 1]];
        assert (f + [s[|s| - 1]])[..|f|] == f;
      } else {
        assert Filter(s, p) == f;
        if f != [] {
          assert Subsequence(f, init);
        }
      }
    }
  }

  /** Two successive filters are one filter by the conjunction. */
  lemma {:induction false} FilterFilter(s: seq<Transaction>, p: Transaction -> bool, q: Transaction -> bool, both: Transaction -> bool)
    requires forall t :: both(t) == (p(t) && q(t))
    ensures Filter(Filter(s, p), q) == Filter(s, both)
  {
    if s != [] {
      var init, last := s[..|s| - 1], s[|s| - 1];
      FilterFilter(init, p, q, both);
      var f := Filter(init, p);
      if p(last) {
        assert Filter(s, p) == f + [last];
        assert (f + [last])[..|f|] == f;
        assert Filter(f + [last], q) == Filter(f, q) + (if q(last) then [last] else []);
      } else {
        assert Filter(s, p) == f;
      }
    }
  }

  /** Filters by predicates that agree everywhere keep the same records. */
  lemma {:induction false} SameFilter(s: seq<Transaction>, p: Transaction -> bool, q: Transaction -> bool)
    requires forall t :: p(t) == q(t)
    ensures Filter(s, p) == Filter(s, q)
  {
    if s != [] {
      SameFilter(s[..|s| - 1], p, q);
    }
  }

  /** A filter whose predicate every element satisfies changes nothing. */
  lemma {:induction false} FilterKeepsAll(s: seq<Transaction>, p: Transaction -> bool)
    requires forall t :: t in s ==> p(t)
    ensures Filter(s, p) == s
  {
    if s != [] {
      var init, last := s[..|s| - 1], s[|s| - 1];
      assert s == init + [last];
      assert p(last);
      FilterKeepsAll(init, p);
      assert Filter(s, p) == Filter(init, p) + [last];
    }
  }

  /** Applying the same filter twice is the same as applying it once. */
  lemma FilterIdempotent(s: seq<Transaction>, p: Transaction -> bool)
    ensures Filter(Filter(s, p), p) == Filter(s, p)
  {
    FilterMembers(s, p);
    FilterKeepsAll(Filter(s, p), p);
  }

  /** A filter keeps nothing exactly when no element satisfies its predicate. */
  lemma FilterEmptyIff(s: seq<Transaction>, p: Transaction -> bool)
    ensures Filter(s, p) == [] <==> forall t :: t in s ==> !p(t)
  {
    FilterMembers(s, p);
    if Filter(s, p) != [] {
      assert Filter(s, p)[0] in Filter(s, p);
    }
  }

  /** `[...new Set(s)]`: each element once, in order of first occurrence. */
  function Distinct(s: seq<string>): (r: seq<string>)
    ensures forall x :: x in r <==> x in s
    ensures forall i, j :: 0 <= i < j < |r| ==> r[i] != r[j]
  {
    if s == [] then []
    else
      var d := Distinct(s[..|s| - 1]);
      if s[|s| - 1] in d then d else d + [s[|s| - 1]]
  }

  /** A sequence without repetitions is its own de-duplication. */
  lemma {:induction false} DistinctOfUnique(s: seq<string>)
    requires forall i, j :: 0 <= i < j < |s| ==> s[i] != s[j]
    ensures Distinct(s) == s
  {
    if s != [] {
      DistinctOfUnique(s[..|s| - 1]);
      assert s[|s| - 1] !in s[..|s| - 1];
    }
  }

  /** Adding one element to the input appends it exactly when it is new. */
  lemma DistinctSnoc(s: seq<string>, x: string)
    ensures Distinct(s + [x]) == if x in Distinct(s) then Distinct(s) else Distinct(s) + [x]
  {
    assert (s + [x])[..|s|] == s;
  }
}
