/** PUT /api/users/savings-goal: the only write to a user record in the core. */
module SavingsGoalRoute {
  import opened Http
  import opened Ledger
  import opened StatsRoute

  const MSG_RANGE := "Savings goal percentage must be between 0 and 100"
  const MSG_NO_USER := "User not found"

  /** The input guard: the value is accepted when present and within [0, 100]. */
  function AcceptGoal(goal: Option<real>): (accepted: Option<real>)
    ensures accepted.Some? <==> goal.Some? && 0.0 <= goal.value <= 100.0
    ensures accepted.Some? ==> accepted == goal && ValidGoal(accepted.value)
  {
    if goal.None? || goal.value < 0.0 || goal.value > 100.0 then None else goal
  }

  /** The boundary values are accepted, values just outside are not. */
  lemma GoalBoundaries(eps: real)
    requires eps > 0.0
    ensures AcceptGoal(Some(0.0)) == Some(0.0) && AcceptGoal(Some(100.0)) == Some(100.0)
    ensures AcceptGoal(Some(-eps)).None? && AcceptGoal(Some(100.0 + eps)).None?
    ensures AcceptGoal(None).None?
  {
  }

  /** The user collection, keyed by id. */
  class UserStore {
    var users: map<UserId, User>

    /** Every stored user sits under its own id and has a goal in the schema range. */
    ghost predicate Valid()
      reads this
    {
      forall id :: id in users ==> users[id].id == id && ValidGoal(users[id].savingsGoalPercentage)
    }

    constructor (initial: map<UserId, User>)
      requires forall id :: id in initial ==> initial[id].id == id && ValidGoal(initial[id].savingsGoalPercentage)
      ensures Valid() && users == initial
    {
      users := initial;
    }

    /** The handler: 401 before the body is read, 400 for a rejected value
        (nothing updated), 404 for a missing user (nothing updated), otherwise
        the user's goal becomes the value, no other field or user changes, and
        the stored value is echoed. */
    method PutSavingsGoal(auth: Auth, goal: Option<real>) returns (r: Response<real>)
      requires Valid()
      modifies this
      ensures Valid()
      ensures auth.None? ==> r == Unauthorized && users == old(users)
      ensures auth.Some? && AcceptGoal(goal).None? ==> r == BadRequest(MSG_RANGE) && users == old(users)
      ensures auth.Some? && AcceptGoal(goal).Some? && auth.value !in old(users) ==>
        r == NotFound(MSG_NO_USER) && users == old(users)
      ensures auth.Some? && AcceptGoal(goal).Some? && auth.value in old(users) ==>
        && r == Ok(goal.value)
        && users == old(users)[auth.value := old(users)[auth.value].(savingsGoalPercentage := goal.value)]
      ensures r.Ok? ==> auth.Some? && auth.value in users && users[auth.value].savingsGoalPercentage == r.body
    {
      if auth.None? {
        return Unauthorized;
      }
      var savingsGoalPercentage := AcceptGoal(goal);
      if savingsGoalPercentage.None? {
        return BadRequest(MSG_RANGE);
      }
      var uid := auth.value;
      if uid !in users {
        return NotFound(MSG_NO_USER);
      }
      var updatedUser := users[uid].(savingsGoalPercentage := savingsGoalPercentage.value);
      users := users[uid := updatedUser];
      r := Ok(updatedUser.savingsGoalPercentage);
    }
  }

  /** The stats snapshot of a stored user: the store keeps every goal in
      [0, 100], so the savings target lies between 0 and the month's income
      whenever the month's amounts are non-negative. */
  lemma StoredGoalBoundsTarget(store: UserStore, uid: UserId, all: seq<Transaction>, monthly: seq<Transaction>)
    requires store.Valid() && uid in store.users
    requires forall t :: t in monthly ==> t.amount >= 0.0
    ensures var s := SnapshotOf(store.users[uid], all, monthly);
      && ValidGoal(s.savingsGoalPercentage)
      && 0.0 <= s.savingsTarget <= s.monthlyIncome
  {
    FilterMembers(monthly, IsIncome);
  }
}
