/** GET and POST /api/transactions: listing the requester's transactions
    through an optional type, category and date filter, newest first; and
    creating one after validating the request body. */
module TransactionsRoute {
  import opened Http
  import opened Calendar
  import opened Ledger

  /** The query-string parameters of GET. None stands for an absent
      parameter; the dates are the values `new Date(...)` makes of them, an
      absent or empty date parameter being None. */
  datatype ListParams = ListParams(
    kind: Option<string>,
    category: Option<string>,
    startDate: Option<Date>,
    endDate: Option<Date>)

  /** The `date` condition of the query object: `{ $gte?, $lte? }`. */
  datatype DateBounds = DateBounds(gte: Option<Date>, lte: Option<Date>)

  /** The query object handed to `Transaction.find`. */
  datatype Query = Query(userId: UserId, kind: Option<string>, category: Option<string>, date: Option<DateBounds>)

  /** JavaScript truthiness of a query-string value: present and non-empty. */
  predicate Truthy(s: Option<string>) {
    s.Some? && s.value != ""
  }

  /** The records GET promises: the requester's own; of the given type and
      category when those are supplied; dated within the supplied bounds,
      both inclusive. */
  predicate Selected(uid: UserId, params: ListParams, t: Transaction) {
    && t.userId == uid
    && (Truthy(params.kind) ==> t.kind == params.kind.value)
    && (Truthy(params.category) ==> t.category == params.category.value)
    && (params.startDate.Some? ==> AtOrBefore(params.startDate.value, t.date))
    && (params.endDate.Some? ==> AtOrBefore(t.date, params.endDate.value))
  }

  /** What the store does with a query object: equality on each given field,
      `$gte` / `$lte` on the date. */
  predicate Matches(q: Query, t: Transaction) {
    && t.userId == q.userId
    && (q.kind.Some? ==> t.kind == q.kind.value)
    && (q.category.Some? ==> t.category == q.category.value)
    && (q.date.Some? ==> (q.date.value.gte.Some? ==> AtOrBefore(q.date.value.gte.value, t.date)))
    && (q.date.Some? ==> (q.date.value.lte.Some? ==> AtOrBefore(t.date, q.date.value.lte.value)))
  }

  /** The query object, built field by field. */
  method BuildQuery(uid: UserId, params: ListParams) returns (query: Query)
    ensures query.userId == uid
    ensures query.kind.Some? <==> Truthy(params.kind)
    ensures query.category.Some? <==> Truthy(params.category)
    ensures query.date.Some? <==> params.startDate.Some? || params.endDate.Some?
    ensures forall t :: Matches(query, t) <==> Selected(uid, params, t)
  {
    query := Query(uid, None, None, None);
    if Truthy(params.kind) {
      query := query.(kind := params.kind);
    }
    if Truthy(params.category) {
      query := query.(category := params.category);
    }
    if params.startDate.Some? || params.endDate.Some? {
      query := query.(date := Some(DateBounds(None, None)));
      if params.startDate.Some? {
        query := query.(date := Some(query.date.value.(gte := params.startDate)));
      }
      if params.endDate.Some? {
        query := query.(date := Some(query.date.value.(lte := params.endDate)));
      }
    }
  }

  /** `sort({ date: -1 })`: every record is at least as recent as the ones after it. */
  ghost predicate NewestFirst(s: seq<Transaction>) {
    forall i, j :: 0 <= i < j < |s| ==> Stamp(s[j].date) <= Stamp(s[i].date)
  }

  /** Newest first in terms of the calendar order the query bounds use. */
  lemma NewestFirstChronological(s: seq<Transaction>)
    requires NewestFirst(s)
    ensures forall i, j :: 0 <= i < j < |s| ==> AtOrBefore(s[j].date, s[i].date)
  {
    forall i, j | 0 <= i < j < |s| ensures AtOrBefore(s[j].date, s[i].date) {
      StampOrder(s[j].date, s[i].date);
    }
  }

  function Insert(t: Transaction, s: seq<Transaction>): (r: seq<Transaction>)
    requires NewestFirst(s)
    ensures NewestFirst(r)
    ensures forall x :: x in r ==> x == t || x in s
    ensures multiset(r) == multiset(s) + multiset{t}
  {
    if s == [] then [t]
    else if Stamp(s[0].date) <= Stamp(t.date) then
      PrependNewest(t, s);
      [t] + s
    else
      assert s == [s[0]] + s[1..];
      HeadIsNewest(s);
      var rest := Insert(t, s[1..]);
      PrependNewest(s[0], rest);
      [s[0]] + rest
  }

  /** The head of a newest-first list is no older than anything after it. */
  lemma HeadIsNewest(s: seq<Transaction>)
    requires NewestFirst(s) && s != []
    ensures NewestFirst(s[1..])
    ensures forall y :: y in s[1..] ==> Stamp(y.date) <= Stamp(s[0].date)
  {
    forall y | y in s[1..] ensures Stamp(y.date) <= Stamp(s[0].date) {
      var k :| 0 <= k < |s[1..]| && s[1..][k] == y;
      assert s[k + 1] == y;
    }
  }

  lemma PrependNewest(x: Transaction, s: seq<Transaction>)
    requires NewestFirst(s)
    requires forall y :: y in s ==> Stamp(y.date) <= Stamp(x.date)
    ensures NewestFirst([x] + s)
  {
    var r := [x] + s;
    forall i, j | 0 <= i < j < |r| ensures Stamp(r[j].date) <= Stamp(r[i].date) {
      assert r[j] == s[j - 1];
      if i > 0 {
        assert r[i] == s[i - 1];
      } else {
        assert s[j - 1] in s;
      }
    }
  }

  /** The store's newest-first ordering, stated by what it guarantees: the
      same records, ordered by date, latest first. */
  function SortNewestFirst(s: seq<Transaction>): (r: seq<Transaction>)
    ensures NewestFirst(r)
    ensures multiset(r) == multiset(s)
  {
    if s == [] then []
    else
      assert s == [s[0]] + s[1..];
      Insert(s[0], SortNewestFirst(s[1..]))
  }

  /** GET: 401 before the parameters are read; otherwise exactly the selected
      records of the store, newest first. */
  method GetTransactions(auth: Auth, params: ListParams, store: seq<Transaction>)
    returns (r: Response<seq<Transaction>>)
    ensures auth.None? ==> r == Unauthorized
    ensures auth.Some? ==> r.Ok? && NewestFirst(r.body)
    ensures auth.Some? ==> forall i, j :: 0 <= i < j < |r.body| ==> AtOrBefore(r.body[j].date, r.body[i].date)
    ensures auth.Some? ==> forall t :: t in r.body <==> t in store && Selected(auth.value, params, t)
    ensures auth.Some? ==> multiset(r.body) == multiset(Filter(store, (t: Transaction) => Selected(auth.value, params, t)))
  {
    if auth.None? {
      return Unauthorized;
    }
    var query := BuildQuery(auth.value, params);
    var found := Filter(store, (t: Transaction) => Matches(query, t));
    assert found == Filter(store, (t: Transaction) => Selected(auth.value, params, t)) by {
      SameFilter(store, (t: Transaction) => Matches(query, t), (t: Transaction) => Selected(auth.value, params, t));
    }
    FilterMembers(store, (t: Transaction) => Selected(auth.value, params, t));
    var transactions := SortNewestFirst(found);
    forall t ensures t in transactions <==> t in found {
      assert t in transactions <==> t in multiset(transactions);
      assert t in found <==> t in multiset(found);
    }
    NewestFirstChronological(transactions);
    r := Ok(transactions);
  }

  // ---- POST ----

  /** The JSON body of POST; None for an absent field. */
  datatype TransactionBody = TransactionBody(
    kind: Option<string>,
    amount: Option<real>,
    category: Option<string>,
    date: Option<Date>,
    notes: Option<string>)

  const MSG_REQUIRED := "Type, amount, category, and date are required"
  const MSG_TYPE := "Type must be either income or expense"
  const MSG_AMOUNT := "Amount must be greater than 0"

  /** `!type || !amount || !category || !date` is false: every required field
      is present and truthy (an amount of 0 is falsy). */
  predicate RequiredPresent(body: TransactionBody) {
    && Truthy(body.kind)
    && body.amount.Some? && body.amount.value != 0.0
    && Truthy(body.category)
    && body.date.Some?
  }

  /** The body guards in their order; None when the body passes. */
  function Validate(body: TransactionBody): (error: Option<string>)
    ensures error.None? <==>
      && RequiredPresent(body)
      && (body.kind.value == INCOME || body.kind.value == EXPENSE)
      && body.amount.value > 0.0
    ensures !RequiredPresent(body) ==> error == Some(MSG_REQUIRED)
    ensures RequiredPresent(body) && body.kind.value != INCOME && body.kind.value != EXPENSE
      ==> error == Some(MSG_TYPE)
    ensures RequiredPresent(body) && (body.kind.value == INCOME || body.kind.value == EXPENSE) && body.amount.value <= 0.0
      ==> error == Some(MSG_AMOUNT)
  {
    if !RequiredPresent(body) then Some(MSG_REQUIRED)
    else if body.kind.value != INCOME && body.kind.value != EXPENSE then Some(MSG_TYPE)
    else if body.amount.value <= 0.0 then Some(MSG_AMOUNT)
    else None
  }

  /** POST: 401 before the body is read, 400 for an invalid body, otherwise
      201 with the new record; `newId` is the identifier the store assigns. */
  function CreateTransaction(auth: Auth, body: TransactionBody, newId: TransactionId): (r: Response<Transaction>)
    ensures auth.None? ==> r == Unauthorized
    ensures auth.Some? && Validate(body).Some? ==> r == BadRequest(Validate(body).value)
    ensures r.Created? <==> auth.Some? && Validate(body).None?
    ensures r.Created? ==>
      && r.body.id == newId
      && r.body.userId == auth.value
      && (IsIncome(r.body) || IsExpense(r.body))
      && r.body.amount > 0.0
      && Some(r.body.kind) == body.kind
      && Some(r.body.amount) == body.amount
      && Some(r.body.category) == body.category
      && Some(r.body.date) == body.date
      && r.body.notes == Some(if body.notes.Some? then body.notes.value else "")
  {
    if auth.None? then Unauthorized
    else
      match Validate(body)
      case Some(error) => BadRequest(error)
      case None =>
        Created(Transaction(
          newId,
          auth.value,
          body.kind.value,
          body.amount.value,
          body.category.value,
          body.date.value,
          Some(if body.notes.Some? && body.notes.value != "" then body.notes.value else "")))
  }

  /** An amount of 0 is reported as missing, before the type check. */
  lemma ZeroAmountIsMissing(auth: Auth, body: TransactionBody, newId: TransactionId)
    requires auth.Some? && body.amount == Some(0.0)
    ensures CreateTransaction(auth, body, newId) == BadRequest(MSG_REQUIRED)
  {
  }
}
