/**
 * Linked social-media accounts: the account record, its lifecycle status,
 * and the persistence functions of the account module over a store that is
 * an abstract map from account id to row. Timestamps are integers (seconds);
 * the SQL text is kept only as far as the SET clause of an update, which is
 * given a meaning by `ExecuteUpdate`.
 */
module SocialMediaAccounts {
  import opened Js

  datatype Status = Active | Expired | Revoked

  datatype Account = Account(
    id: string,
    userId: string,
    platform: string,
    accountName: string,
    accountId: string,
    accessToken: string,
    refreshToken: Option<string>,  // NULL in the store when absent
    tokenExpiry: Option<int>,      // NULL in the store when absent
    status: Status,
    createdAt: int,
    updatedAt: int)

  function StatusName(s: Status): string {
    match s
    case Active => "active"
    case Expired => "expired"
    case Revoked => "revoked"
  }

  function StatusNamed(name: string): Option<Status> {
    if name == "active" then Some(Active)
    else if name == "expired" then Some(Expired)
    else if name == "revoked" then Some(Revoked)
    else None
  }

  lemma StatusNameRoundTrip(s: Status)
    ensures StatusNamed(StatusName(s)) == Some(s)
  {
  }

  datatype CreateInput = CreateInput(
    userId: string,
    platform: string,
    accountName: string,
    accountId: string,
    accessToken: string,
    refreshToken: Option<string>,
    tokenExpiry: Option<int>)

  /** The fields an update may change; absent (or empty) ones are left alone. */
  datatype UpdateInput = UpdateInput(
    accountName: Option<string>,
    accessToken: Option<string>,
    refreshToken: Option<string>,
    tokenExpiry: Option<int>,
    status: Option<Status>)

  /** The row createSocialMediaAccount inserts. */
  function NewAccount(id: string, input: CreateInput, now: int): (a: Account)
    ensures a.id == id && a.userId == input.userId && a.platform == input.platform
    ensures a.accountName == input.accountName && a.accountId == input.accountId
    ensures a.accessToken == input.accessToken
    ensures a.status == Active
    ensures a.refreshToken == if Present(input.refreshToken) then input.refreshToken else None
    ensures a.tokenExpiry == input.tokenExpiry
    ensures a.createdAt == now && a.updatedAt == now
  {
    Account(id, input.userId, input.platform, input.accountName, input.accountId, input.accessToken,
            if Present(input.refreshToken) then input.refreshToken else None,
            input.tokenExpiry, Active, now, now)
  }

  // ---------------------------------------------------------------------------
  // The SET clause of an update

  datatype SqlValue = SqlText(s: string) | SqlInt(n: int)

  /** The columns an update may set. */
  datatype Column = AccountName | AccessToken | RefreshToken | TokenExpiry | StatusColumn | UpdatedAt

  /** The `column = ?` text pushed for a column. */
  function ClauseText(c: Column): string {
    match c
    case AccountName => "account_name = ?"
    case AccessToken => "access_token = ?"
    case RefreshToken => "refresh_token = ?"
    case TokenExpiry => "token_expiry = ?"
    case StatusColumn => "status = ?"
    case UpdatedAt => "updated_at = ?"
  }

  /** The column a clause text names, as the database reads it. */
  function ClauseColumn(clause: string): (c: Option<Column>)
    ensures c.Some? ==> ClauseText(c.value) == clause
  {
    if clause == "account_name = ?" then Some(AccountName)
    else if clause == "access_token = ?" then Some(AccessToken)
    else if clause == "refresh_token = ?" then Some(RefreshToken)
    else if clause == "token_expiry = ?" then Some(TokenExpiry)
    else if clause == "status = ?" then Some(StatusColumn)
    else if clause == "updated_at = ?" then Some(UpdatedAt)
    else None
  }

  lemma ClauseTextRoundTrip(c: Column)
    ensures ClauseColumn(ClauseText(c)) == Some(c)
  {
  }

  /** The position of a column in the order the clauses are pushed. */
  function Rank(c: Column): nat {
    match c
    case AccountName => 0
    case AccessToken => 1
    case RefreshToken => 2
    case TokenExpiry => 3
    case StatusColumn => 4
    case UpdatedAt => 5
  }

  /** One clause with the value bound to its placeholder. */
  datatype Assignment = Assignment(column: Column, value: SqlValue)

  predicate Sets(a: seq<Assignment>, c: Column) {
    exists i :: 0 <= i < |a| && a[i].column == c
  }

  function Opt(o: Option<Assignment>): seq<Assignment> {
    match o
    case Some(a) => [a]
    case None => []
  }

  // The clause each updatable field contributes, when it is supplied (truthy).

  function NameClause(input: UpdateInput): Option<Assignment> {
    if Present(input.accountName) then Some(Assignment(AccountName, SqlText(input.accountName.value))) else None
  }

  function AccessTokenClause(input: UpdateInput): Option<Assignment> {
    if Present(input.accessToken) then Some(Assignment(AccessToken, SqlText(input.accessToken.value))) else None
  }

  function RefreshTokenClause(input: UpdateInput): Option<Assignment> {
    if Present(input.refreshToken) then Some(Assignment(RefreshToken, SqlText(input.refreshToken.value))) else None
  }

  function ExpiryClause(input: UpdateInput): Option<Assignment> {
    if input.tokenExpiry.Some? then Some(Assignment(TokenExpiry, SqlInt(input.tokenExpiry.value))) else None
  }

  function StatusClause(input: UpdateInput): Option<Assignment> {
    if input.status.Some? then Some(Assignment(StatusColumn, SqlText(StatusName(input.status.value)))) else None
  }

  /**
   * The clause each column would contribute, in push order; `Some` exactly
   * when the field is supplied. `updated_at` is always set.
   */
  function Candidates(input: UpdateInput, now: int): seq<Option<Assignment>> {
    [NameClause(input), AccessTokenClause(input), RefreshTokenClause(input), ExpiryClause(input),
     StatusClause(input), Some(Assignment(UpdatedAt, SqlInt(now)))]
  }

  /** Each present candidate sits at its column's rank. */
  predicate Ranked(c: seq<Option<Assignment>>) {
    forall k :: 0 <= k < |c| && c[k].Some? ==> Rank(c[k].value.column) == k
  }

  /** The present candidates, in order. */
  function Somes(c: seq<Option<Assignment>>): seq<Assignment>
    decreases |c|
  {
    if |c| == 0 then [] else Somes(c[..|c| - 1]) + Opt(c[|c| - 1])
  }

  lemma {:induction false} SomesOrdered(c: seq<Option<Assignment>>)
    requires Ranked(c)
    ensures |Somes(c)| <= |c|
    ensures forall i :: 0 <= i < |Somes(c)| ==> Rank(Somes(c)[i].column) < |c|
    ensures forall i, j :: 0 <= i < j < |Somes(c)| ==> Rank(Somes(c)[i].column) < Rank(Somes(c)[j].column)
    decreases |c|
  {
    if |c| > 0 {
      SomesOrdered(c[..|c| - 1]);
    }
  }

  lemma {:induction false} SomesSets(c: seq<Option<Assignment>>, col: Column)
    ensures Sets(Somes(c), col) <==> exists k :: 0 <= k < |c| && c[k].Some? && c[k].value.column == col
    decreases |c|
  {
    if |c| > 0 {
      var init := c[..|c| - 1];
      SomesSets(init, col);
      var s := Somes(c);
      if Sets(s, col) {
        var i :| 0 <= i < |s| && s[i].column == col;
        if i < |Somes(init)| {
          assert s[i] == Somes(init)[i];
          assert Sets(Somes(init), col);
          var k :| 0 <= k < |init| && init[k].Some? && init[k].value.column == col;
          assert c[k] == init[k];
        } else {
          assert c[|c| - 1].Some? && c[|c| - 1].value.column == col;
        }
      }
      if exists k :: 0 <= k < |c| && c[k].Some? && c[k].value.column == col {
        var k :| 0 <= k < |c| && c[k].Some? && c[k].value.column == col;
        if k < |c| - 1 {
          assert init[k] == c[k];
          var i :| 0 <= i < |Somes(init)| && Somes(init)[i].column == col;
          assert s[i] == Somes(init)[i];
        } else {
          assert s[|s| - 1] == c[k].value;
        }
      }
    }
  }

  /** A column is set exactly when the candidate at its rank is present. */
  lemma SetsAt(c: seq<Option<Assignment>>, col: Column)
    requires Ranked(c) && Rank(col) < |c|
    ensures Sets(Somes(c), col) <==> c[Rank(col)].Some?
  {
    SomesSets(c, col);
    var r := Rank(col);
    if c[r].Some? {
      RankInjective(c[r].value.column, col);
      assert 0 <= r < |c| && c[r].Some? && c[r].value.column == col;
    }
    if Sets(Somes(c), col) {
      var k :| 0 <= k < |c| && c[k].Some? && c[k].value.column == col;
      assert Rank(c[k].value.column) == k;
    }
  }

  /** Different columns have different ranks. */
  lemma RankInjective(a: Column, b: Column)
    requires Rank(a) == Rank(b)
    ensures a == b
  {
  }

  lemma SomesSnoc(c: seq<Option<Assignment>>, k: nat)
    requires k < |c|
    ensures Somes(c[..k + 1]) == Somes(c[..k]) + Opt(c[k])
  {
    assert c[..k + 1][..k] == c[..k];
  }

  /** The assignments updateSocialMediaAccount writes. */
  function Assignments(input: UpdateInput, now: int): seq<Assignment> {
    Somes(Candidates(input, now))
  }

  /**
   * An update sets each supplied field, in the fixed column order, and
   * always ends with `updated_at`.
   */
  lemma AssignmentsShape(input: UpdateInput, now: int)
    ensures var a := Assignments(input, now);
      1 <= |a| <= 6 && a[|a| - 1] == Assignment(UpdatedAt, SqlInt(now))
    ensures var a := Assignments(input, now);
      forall i, j :: 0 <= i < j < |a| ==> Rank(a[i].column) < Rank(a[j].column)
    ensures Sets(Assignments(input, now), AccountName) <==> Present(input.accountName)
    ensures Sets(Assignments(input, now), AccessToken) <==> Present(input.accessToken)
    ensures Sets(Assignments(input, now), RefreshToken) <==> Present(input.refreshToken)
    ensures Sets(Assignments(input, now), TokenExpiry) <==> input.tokenExpiry.Some?
    ensures Sets(Assignments(input, now), StatusColumn) <==> input.status.Some?
  {
    var c := Candidates(input, now);
    assert Ranked(c);
    SomesOrdered(c);
    SetsAt(c, AccountName);
    SetsAt(c, AccessToken);
    SetsAt(c, RefreshToken);
    SetsAt(c, TokenExpiry);
    SetsAt(c, StatusColumn);
    assert c[..5] == c[..|c| - 1];
    assert Opt(c[5]) == [Assignment(UpdatedAt, SqlInt(now))];
  }

  function Clauses(a: seq<Assignment>): seq<string> {
    seq(|a|, i requires 0 <= i < |a| => ClauseText(a[i].column))
  }

  function Values(a: seq<Assignment>): seq<SqlValue> {
    seq(|a|, i requires 0 <= i < |a| => a[i].value)
  }

  /** Pushing an optional clause onto the arrays built so far. */
  lemma PushOpt(a: seq<Assignment>, o: Option<Assignment>)
    ensures Clauses(a + Opt(o)) == Clauses(a) + if o.Some? then [ClauseText(o.value.column)] else []
    ensures Values(a + Opt(o)) == Values(a) + if o.Some? then [o.value.value] else []
  {
  }

  /** `if (field) { updates.push('column = ?'); values.push(field); }` */
  method PushIfSupplied(updates: seq<string>, values: seq<SqlValue>, ghost done: seq<Assignment>, o: Option<Assignment>)
    returns (updates': seq<string>, values': seq<SqlValue>)
    requires updates == Clauses(done) && values == Values(done)
    ensures updates' == Clauses(done + Opt(o)) && values' == Values(done + Opt(o))
  {
    updates', values' := updates, values;
    if o.Some? {
      updates', values' := updates + [ClauseText(o.value.column)], values + [o.value.value];
    }
    PushOpt(done, o);
  }

  lemma AssignmentsUnfold(input: UpdateInput, now: int)
    ensures Assignments(input, now) ==
      Opt(NameClause(input)) + Opt(AccessTokenClause(input)) + Opt(RefreshTokenClause(input)) +
      Opt(ExpiryClause(input)) + Opt(StatusClause(input)) + Opt(Some(Assignment(UpdatedAt, SqlInt(now))))
  {
    var c := Candidates(input, now);
    assert c[..0] == [];
    SomesSnoc(c, 0);
    SomesSnoc(c, 1);
    SomesSnoc(c, 2);
    SomesSnoc(c, 3);
    SomesSnoc(c, 4);
    SomesSnoc(c, 5);
    assert c[..6] == c;
  }

  /**
   * The `updates` and `values` arrays of updateSocialMediaAccount:
   * `values[i]` is bound to `updates[i]`, and one extra trailing value, the
   * id, is bound to the WHERE clause.
   */
  method UpdateStatement(id: string, input: UpdateInput, now: int)
    returns (updates: seq<string>, values: seq<SqlValue>)
    ensures updates == Clauses(Assignments(input, now))
    ensures values == Values(Assignments(input, now)) + [SqlText(id)]
  {
    updates, values := PushIfSupplied([], [], [], NameClause(input));
    assert [] + Opt(NameClause(input)) == Opt(NameClause(input));
    ghost var done := Opt(NameClause(input));
    updates, values := PushIfSupplied(updates, values, done, AccessTokenClause(input));
    done := done + Opt(AccessTokenClause(input));
    updates, values := PushIfSupplied(updates, values, done, RefreshTokenClause(input));
    done := done + Opt(RefreshTokenClause(input));
    updates, values := PushIfSupplied(updates, values, done, ExpiryClause(input));
    done := done + Opt(ExpiryClause(input));
    updates, values := PushIfSupplied(updates, values, done, StatusClause(input));
    done := done + Opt(StatusClause(input));
    updates, values := PushIfSupplied(updates, values, done, Some(Assignment(UpdatedAt, SqlInt(now))));
    done := done + Opt(Some(Assignment(UpdatedAt, SqlInt(now))));
    AssignmentsUnfold(input, now);
    values := values + [SqlText(id)];
  }

  /** How the database applies one column assignment with its bound value to a row. */
  function SetColumn(row: Account, c: Column, v: SqlValue): Account {
    match (c, v)
    case (AccountName, SqlText(s)) => row.(accountName := s)
    case (AccessToken, SqlText(s)) => row.(accessToken := s)
    case (RefreshToken, SqlText(s)) => row.(refreshToken := Some(s))
    case (TokenExpiry, SqlInt(n)) => row.(tokenExpiry := Some(n))
    case (StatusColumn, SqlText(s)) => if StatusNamed(s).Some? then row.(status := StatusNamed(s).value) else row
    case (UpdatedAt, SqlInt(n)) => row.(updatedAt := n)
    case _ => row
  }

  /** `UPDATE ... SET updates[0], updates[1], ... WHERE id = ?` applied to the matching row. */
  function ExecuteUpdate(row: Account, updates: seq<string>, values: seq<SqlValue>): Account
    requires |values| >= |updates|
    decreases |updates|
  {
    if |updates| == 0 then row
    else
      var next := match ClauseColumn(updates[0]) case Some(c) => SetColumn(row, c, values[0]) case None => row;
      ExecuteUpdate(next, updates[1..], values[1..])
  }

  function ExecuteAll(row: Account, a: seq<Assignment>): Account
    decreases |a|
  {
    if |a| == 0 then row else ExecuteAll(SetColumn(row, a[0].column, a[0].value), a[1..])
  }

  /** The row an update should leave: each supplied field replaced, updated_at set. */
  function Updated(row: Account, input: UpdateInput, now: int): (u: Account)
    ensures u.id == row.id && u.userId == row.userId && u.platform == row.platform
    ensures u.accountId == row.accountId && u.createdAt == row.createdAt && u.updatedAt == now
    ensures u.accountName == if Present(input.accountName) then input.accountName.value else row.accountName
    ensures u.accessToken == if Present(input.accessToken) then input.accessToken.value else row.accessToken
    ensures u.refreshToken == if Present(input.refreshToken) then input.refreshToken else row.refreshToken
    ensures u.tokenExpiry == if input.tokenExpiry.Some? then input.tokenExpiry else row.tokenExpiry
    ensures u.status == if input.status.Some? then input.status.value else row.status
  {
    row.(accountName := if Present(input.accountName) then input.accountName.value else row.accountName,
         accessToken := if Present(input.accessToken) then input.accessToken.value else row.accessToken,
         refreshToken := if Present(input.refreshToken) then input.refreshToken else row.refreshToken,
         tokenExpiry := if input.tokenExpiry.Some? then input.tokenExpiry else row.tokenExpiry,
         status := if input.status.Some? then input.status.value else row.status,
         updatedAt := now)
  }

  lemma {:induction false} ExecuteUpdateAll(row: Account, a: seq<Assignment>, tail: seq<SqlValue>)
    ensures ExecuteUpdate(row, Clauses(a), Values(a) + tail) == ExecuteAll(row, a)
    decreases |a|
  {
    if |a| > 0 {
      assert Clauses(a)[1..] == Clauses(a[1..]);
      assert (Values(a) + tail)[1..] == Values(a[1..]) + tail;
      ClauseTextRoundTrip(a[0].column);
      ExecuteUpdateAll(SetColumn(row, a[0].column, a[0].value), a[1..], tail);
    }
  }

  lemma {:induction false} ExecuteAllAppend(row: Account, a: seq<Assignment>, b: seq<Assignment>)
    ensures ExecuteAll(row, a + b) == ExecuteAll(ExecuteAll(row, a), b)
    decreases |a|
  {
    if |a| == 0 {
      assert a + b == b;
    } else {
      assert (a + b)[1..] == a[1..] + b;
      ExecuteAllAppend(SetColumn(row, a[0].column, a[0].value), a[1..], b);
    }
  }

  /** Applying an optional clause. */
  function Step(row: Account, o: Option<Assignment>): Account {
    match o
    case Some(a) => SetColumn(row, a.column, a.value)
    case None => row
  }

  function StepAll(row: Account, c: seq<Option<Assignment>>): Account
    decreases |c|
  {
    if |c| == 0 then row else Step(StepAll(row, c[..|c| - 1]), c[|c| - 1])
  }

  lemma ExecuteOpt(row: Account, o: Option<Assignment>)
    ensures ExecuteAll(row, Opt(o)) == Step(row, o)
  {
    if o.Some? {
      assert Opt(o)[1..] == [];
    }
  }

  lemma {:induction false} ExecuteSomes(row: Account, c: seq<Option<Assignment>>)
    ensures ExecuteAll(row, Somes(c)) == StepAll(row, c)
    decreases |c|
  {
    if |c| > 0 {
      var init := c[..|c| - 1];
      ExecuteSomes(row, init);
      ExecuteAllAppend(row, Somes(init), Opt(c[|c| - 1]));
      ExecuteOpt(StepAll(row, init), c[|c| - 1]);
    }
  }

  lemma StepAllSnoc(row: Account, c: seq<Option<Assignment>>, k: nat)
    requires k < |c|
    ensures StepAll(row, c[..k + 1]) == Step(StepAll(row, c[..k]), c[k])
  {
    assert c[..k + 1][..k] == c[..k];
  }

  lemma StepAllSix(row: Account, c: seq<Option<Assignment>>)
    requires |c| == 6
    ensures StepAll(row, c) == Step(Step(Step(Step(Step(Step(row, c[0]), c[1]), c[2]), c[3]), c[4]), c[5])
  {
    assert c[..0] == [];
    StepAllSnoc(row, c, 0);
    StepAllSnoc(row, c, 1);
    StepAllSnoc(row, c, 2);
    StepAllSnoc(row, c, 3);
    StepAllSnoc(row, c, 4);
    StepAllSnoc(row, c, 5);
    assert c[..6] == c;
  }

  lemma StepAllCandidates(row: Account, input: UpdateInput, now: int)
    ensures StepAll(row, Candidates(input, now)) == Updated(row, input, now)
  {
    StepAllSix(row, Candidates(input, now));
    var r1 := Step(row, NameClause(input));
    var r2 := Step(r1, AccessTokenClause(input));
    var r3 := Step(r2, RefreshTokenClause(input));
    var r4 := Step(r3, ExpiryClause(input));
    var r5 := Step(r4, StatusClause(input));
    if input.status.Some? {
      StatusNameRoundTrip(input.status.value);
    }
    assert Step(r5, Some(Assignment(UpdatedAt, SqlInt(now)))) == Updated(row, input, now);
  }

  /**
   * The statement updateSocialMediaAccount builds, executed against the
   * row, yields exactly the intended update.
   */
  lemma UpdateStatementMeaning(row: Account, input: UpdateInput, now: int, id: string)
    ensures ExecuteUpdate(row, Clauses(Assignments(input, now)), Values(Assignments(input, now)) + [SqlText(id)])
         == Updated(row, input, now)
  {
    ExecuteUpdateAll(row, Assignments(input, now), [SqlText(id)]);
    ExecuteSomes(row, Candidates(input, now));
    StepAllCandidates(row, input, now);
  }

  // ---------------------------------------------------------------------------
  // The store

  /** `new Date(token_expiry) <= new Date()`: the expiry is set and has passed. */
  predicate TokenElapsed(a: Account, now: int) {
    a.tokenExpiry.Some? && a.tokenExpiry.value <= now
  }

  class AccountStore {
    var rows: map<string, Account>

    constructor (rows: map<string, Account>)
      ensures this.rows == rows
    {
      this.rows := rows;
    }

    /** Every row is stored under its own id. */
    ghost predicate Keyed()
      reads this
    {
      forall k :: k in rows ==> rows[k].id == k
    }

    /** No two accounts belong to the same user on the same platform. */
    ghost predicate OnePerPlatform()
      reads this
    {
      forall k, l :: k in rows && l in rows && rows[k].userId == rows[l].userId && rows[k].platform == rows[l].platform
        ==> k == l
    }

    /** getSocialMediaAccountByPlatform finds a row. */
    predicate HasAccountFor(userId: string, platform: string)
      reads this
    {
      exists k :: k in rows && rows[k].userId == userId && rows[k].platform == platform
    }

    /**
     * createSocialMediaAccount: refuses a second account for the same user
     * and platform; otherwise inserts an active account under the fresh id.
     * The insert fails (null) if the id is already taken.
     */
    method Create(input: CreateInput, newId: string, now: int) returns (r: Outcome<Option<Account>>)
      modifies this
      ensures old(HasAccountFor(input.userId, input.platform)) ==> r == Throws(DuplicateAccount) && rows == old(rows)
      ensures !old(HasAccountFor(input.userId, input.platform)) && newId in old(rows) ==>
        r == Returns(None) && rows == old(rows)
      ensures !old(HasAccountFor(input.userId, input.platform)) && newId !in old(rows) ==>
        rows == old(rows)[newId := NewAccount(newId, input, now)] && r == Returns(Some(NewAccount(newId, input, now)))
      ensures old(Keyed()) ==> Keyed()
      ensures old(OnePerPlatform()) ==> OnePerPlatform()
    {
      if HasAccountFor(input.userId, input.platform) {
        return Throws(DuplicateAccount);
      }
      if newId in rows {
        return Returns(None);
      }
      rows := rows[newId := NewAccount(newId, input, now)];
      r := Returns(Some(rows[newId]));
    }

    /**
     * updateSocialMediaAccount: null for an unknown id; otherwise the row
     * after executing the built statement.
     */
    method Update(id: string, input: UpdateInput, now: int) returns (r: Option<Account>)
      modifies this
      ensures id !in old(rows) ==> r == None && rows == old(rows)
      ensures id in old(rows) ==>
        rows == old(rows)[id := Updated(old(rows)[id], input, now)] && r == Some(Updated(old(rows)[id], input, now))
      ensures old(Keyed()) ==> Keyed()
      ensures old(OnePerPlatform()) ==> OnePerPlatform()
    {
      if id !in rows {
        return None;
      }
      var updates, values := UpdateStatement(id, input, now);
      UpdateStatementMeaning(rows[id], input, now, id);
      rows := rows[id := ExecuteUpdate(rows[id], updates, values)];
      r := Some(rows[id]);
    }

    /**
     * refreshTokenIfNeeded: null for an unknown id; an account whose expiry
     * has passed is marked expired (through an update); any other account is
     * returned unchanged.
     */
    method RefreshTokenIfNeeded(id: string, now: int) returns (r: Option<Account>)
      modifies this
      ensures id !in old(rows) ==> r == None && rows == old(rows)
      ensures id in old(rows) && TokenElapsed(old(rows)[id], now) ==>
        r == Some(old(rows)[id].(status := Expired, updatedAt := now)) && rows == old(rows)[id := r.value]
      ensures id in old(rows) && !TokenElapsed(old(rows)[id], now) ==> r == Some(old(rows)[id]) && rows == old(rows)
      ensures r.Some? ==> r.value.status == Expired || r.value.status == old(rows)[id].status
    {
      if id !in rows {
        return None;
      }
      var account := rows[id];
      if TokenElapsed(account, now) {
        r := Update(id, UpdateInput(None, None, None, None, Some(Expired)), now);
        return;
      }
      r := Some(account);
    }
  }
}
