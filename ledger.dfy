/** The two append-only tables of the finance bot and the read-only
    statistics query over the `transactions` table: the income and expense
    totals of one user, the balance, and the per-category expense breakdown
    (`GROUP BY category`). */
module Ledger {

  /** The chat platform's user identifier (a `BIGINT` column). */
  type UserId = int

  /** The `type` column: the handlers only ever write 'income' or 'expense'. */
  datatype Kind = Income | Expense

  /** One row of `transactions`; the defaulted timestamp column is not modelled. */
  datatype Transaction = Transaction(userId: UserId, kind: Kind, amount: real, category: string)

  /** One row of `feedback`; the defaulted timestamp column is not modelled. */
  datatype FeedbackRecord = FeedbackRecord(userId: UserId, message: string)

  /** One row of the per-category result: a category and the sum of its amounts. */
  datatype CategoryLine = CategoryLine(category: string, amount: real)

  /** The `WHERE user_id = %s AND type = %s` filter. */
  predicate IsRowOf(t: Transaction, user: UserId, kind: Kind) {
    t.userId == user && t.kind == kind
  }

  /** No row of `log` passes the filter for `user` and `kind`. */
  predicate NoRowsOf(log: seq<Transaction>, user: UserId, kind: Kind) {
    forall i :: 0 <= i < |log| ==> !IsRowOf(log[i], user, kind)
  }

  /** `SELECT SUM(amount) ... WHERE user_id = user AND type = kind`, where the
      SQL `NULL` of an empty selection is read as 0 (the `or 0`). */
  function TotalOf(log: seq<Transaction>, user: UserId, kind: Kind): (total: real)
    ensures NoRowsOf(log, user, kind) ==> total == 0.0
  {
    if log == [] then 0.0
    else
      assert NoRowsOf(log, user, kind) ==> !IsRowOf(log[0], user, kind) && NoRowsOf(log[1..], user, kind);
      (if IsRowOf(log[0], user, kind) then log[0].amount else 0.0) + TotalOf(log[1..], user, kind)
  }

  /** Income minus expense for one user. */
  function Balance(log: seq<Transaction>, user: UserId): real {
    TotalOf(log, user, Income) - TotalOf(log, user, Expense)
  }

  /** The total is a sum: it splits over any division of the log. */
  lemma {:induction false} TotalOfAppend(a: seq<Transaction>, b: seq<Transaction>, user: UserId, kind: Kind)
    ensures TotalOf(a + b, user, kind) == TotalOf(a, user, kind) + TotalOf(b, user, kind)
  {
    if a == [] {
      assert a + b == b;
    } else {
      assert (a + b)[1..] == a[1..] + b;
      TotalOfAppend(a[1..], b, user, kind);
    }
  }

  /** Rows of other users never contribute to a user's totals. */
  lemma ForeignRowsIgnored(log: seq<Transaction>, extra: seq<Transaction>, user: UserId, kind: Kind)
    requires forall i :: 0 <= i < |extra| ==> extra[i].userId != user
    ensures TotalOf(log + extra, user, kind) == TotalOf(log, user, kind)
  {
    TotalOfAppend(log, extra, user, kind);
  }

  /** Appending one row moves the owner's balance by its amount (up for
      income, down for expense) and leaves every other user's balance alone. */
  lemma BalanceAfterAppend(log: seq<Transaction>, t: Transaction, user: UserId)
    ensures Balance(log + [t], user) ==
      Balance(log, user) + (if t.userId != user then 0.0 else if t.kind == Income then t.amount else -t.amount)
  {
    TotalOfAppend(log, [t], user, Income);
    TotalOfAppend(log, [t], user, Expense);
    assert [t][1..] == [];
  }

  /** Some expense row of `user` carries `category`. */
  predicate Spent(log: seq<Transaction>, user: UserId, category: string) {
    log != [] &&
    ((IsRowOf(log[0], user, Expense) && log[0].category == category) || Spent(log[1..], user, category))
  }

  /** `Spent` holds exactly when some position of the log holds such a row. */
  lemma {:induction false} SpentMeans(log: seq<Transaction>, user: UserId, category: string)
    ensures Spent(log, user, category) <==>
      exists i :: 0 <= i < |log| && IsRowOf(log[i], user, Expense) && log[i].category == category
  {
    if log != [] {
      SpentMeans(log[1..], user, category);
      if Spent(log[1..], user, category) {
        var i :| 0 <= i < |log[1..]| && IsRowOf(log[1..][i], user, Expense) && log[1..][i].category == category;
        assert log[i + 1] == log[1..][i];
      }
      if exists i :: 0 <= i < |log| && IsRowOf(log[i], user, Expense) && log[i].category == category {
        var i :| 0 <= i < |log| && IsRowOf(log[i], user, Expense) && log[i].category == category;
        if i > 0 {
          assert log[1..][i - 1] == log[i];
        }
      }
    }
  }

  /** Reference definition of one group: the sum of the amounts of the
      user's expense rows that carry `category`. */
  function CategoryTotal(log: seq<Transaction>, user: UserId, category: string): (total: real)
    ensures !Spent(log, user, category) ==> total == 0.0
  {
    if log == [] then 0.0
    else
      (if IsRowOf(log[0], user, Expense) && log[0].category == category then log[0].amount else 0.0)
        + CategoryTotal(log[1..], user, category)
  }

  /** The value stored under `key`, 0 when there is none. */
  function Get(m: map<string, real>, key: string): real {
    if key in m then m[key] else 0.0
  }

  /** `SELECT category, SUM(amount) ... WHERE user_id = user AND type = 'expense'
      GROUP BY category`, as a map from category to sum. */
  function CategorySums(log: seq<Transaction>, user: UserId): map<string, real> {
    if log == [] then map[]
    else
      var rest := CategorySums(log[1..], user);
      var t := log[0];
      if IsRowOf(t, user, Expense) then rest[t.category := Get(rest, t.category) + t.amount] else rest
  }

  /** The grouping has a key exactly for the categories the user spent on,
      and each key holds the sum of that category's expense amounts. */
  lemma {:induction false} CategorySumsSpec(log: seq<Transaction>, user: UserId)
    ensures forall c :: c in CategorySums(log, user) <==> Spent(log, user, c)
    ensures forall c :: c in CategorySums(log, user) ==> CategorySums(log, user)[c] == CategoryTotal(log, user, c)
  {
    if log != [] {
      CategorySumsSpec(log[1..], user);
    }
  }

  /** The distinct categories of the user's expense rows: the group keys in
      the order the breakdown lists them. */
  function SpentCategories(log: seq<Transaction>, user: UserId): seq<string> {
    if log == [] then []
    else
      var rest := SpentCategories(log[1..], user);
      if IsRowOf(log[0], user, Expense) && log[0].category !in rest then [log[0].category] + rest else rest
  }

  /** Each category the user spent on is listed, and listed once. */
  lemma {:induction false} SpentCategoriesSpec(log: seq<Transaction>, user: UserId)
    ensures forall i, j :: 0 <= i < j < |SpentCategories(log, user)| ==>
      SpentCategories(log, user)[i] != SpentCategories(log, user)[j]
    ensures forall c :: c in SpentCategories(log, user) <==> Spent(log, user, c)
  {
    if log != [] {
      SpentCategoriesSpec(log[1..], user);
      var rest := SpentCategories(log[1..], user);
      if IsRowOf(log[0], user, Expense) && log[0].category !in rest {
        var cats := [log[0].category] + rest;
        forall i, j | 0 <= i < j < |cats| ensures cats[i] != cats[j] {
          assert cats[j] == rest[j - 1];
          if i > 0 {
            assert cats[i] == rest[i - 1];
          }
        }
      }
    }
  }

  /** The result rows for the categories `cats`, read from `sums`. */
  function LinesFor(sums: map<string, real>, cats: seq<string>): seq<CategoryLine> {
    if cats == [] then [] else [CategoryLine(cats[0], Get(sums, cats[0]))] + LinesFor(sums, cats[1..])
  }

  /** Row `j` names the `j`-th category and carries its group's sum. */
  lemma {:induction false} LinesForAt(sums: map<string, real>, cats: seq<string>)
    ensures |LinesFor(sums, cats)| == |cats|
    ensures forall j :: 0 <= j < |cats| ==> LinesFor(sums, cats)[j] == CategoryLine(cats[j], Get(sums, cats[j]))
  {
    if cats != [] {
      LinesForAt(sums, cats[1..]);
    }
  }

  /** The rows the grouped query returns for `user`: one per category the
      user spent on, with that category's sum. An empty result is what makes
      the reply say that there are no expenses yet. */
  function Breakdown(log: seq<Transaction>, user: UserId): (lines: seq<CategoryLine>)
    ensures forall i, j :: 0 <= i < j < |lines| ==> lines[i].category != lines[j].category
    ensures forall c :: Spent(log, user, c) <==> exists j :: 0 <= j < |lines| && lines[j].category == c
    ensures forall j :: 0 <= j < |lines| ==> lines[j].amount == CategoryTotal(log, user, lines[j].category)
    ensures lines == [] <==> NoRowsOf(log, user, Expense)
  {
    CategorySumsSpec(log, user);
    SpentCategoriesSpec(log, user);
    var cats := SpentCategories(log, user);
    var lines := LinesFor(CategorySums(log, user), cats);
    LinesForAt(CategorySums(log, user), cats);
    assert forall c :: c in cats <==> exists j :: 0 <= j < |lines| && lines[j].category == c by {
      forall c | c in cats ensures exists j :: 0 <= j < |lines| && lines[j].category == c {
        var j :| 0 <= j < |cats| && cats[j] == c;
        assert lines[j].category == c;
      }
    }
    assert !NoRowsOf(log, user, Expense) ==> cats != [] by {
      if !NoRowsOf(log, user, Expense) {
        var i :| 0 <= i < |log| && IsRowOf(log[i], user, Expense);
        SpentMeans(log, user, log[i].category);
      }
    }
    assert cats != [] ==> !NoRowsOf(log, user, Expense) by {
      if cats != [] {
        SpentMeans(log, user, cats[0]);
      }
    }
    lines
  }

  /** The sum of the amounts of a list of result rows. */
  function SumLines(lines: seq<CategoryLine>): real {
    if lines == [] then 0.0 else lines[0].amount + SumLines(lines[1..])
  }

  /** Adding `delta` to one group changes the sum over a list of distinct
      categories by `delta` when that group is listed, and not at all otherwise. */
  lemma {:induction false} BumpGroup(sums: map<string, real>, cats: seq<string>, c: string, delta: real)
    requires forall i, j :: 0 <= i < j < |cats| ==> cats[i] != cats[j]
    ensures SumLines(LinesFor(sums[c := Get(sums, c) + delta], cats)) ==
      SumLines(LinesFor(sums, cats)) + (if c in cats then delta else 0.0)
  {
    if cats != [] {
      assert forall i, j :: 0 <= i < j < |cats[1..]| ==> cats[1..][i] != cats[1..][j] by {
        forall i, j | 0 <= i < j < |cats[1..]| ensures cats[1..][i] != cats[1..][j] {
          assert cats[1..][i] == cats[i + 1] && cats[1..][j] == cats[j + 1];
        }
      }
      BumpGroup(sums, cats[1..], c, delta);
      assert c in cats <==> cats[0] == c || c in cats[1..];
    }
  }

  /** One more expense row adds its amount to its category's group. */
  lemma SumsStep(log: seq<Transaction>, user: UserId)
    requires log != [] && IsRowOf(log[0], user, Expense)
    ensures CategorySums(log, user) ==
      CategorySums(log[1..], user)[log[0].category := Get(CategorySums(log[1..], user), log[0].category) + log[0].amount]
  {
  }

  /** One more expense row of a category already listed: that group grows
      by the row's amount and the list of groups stays the same. */
  lemma KnownGroupStep(log: seq<Transaction>, user: UserId)
    requires log != [] && IsRowOf(log[0], user, Expense)
    requires log[0].category in SpentCategories(log[1..], user)
    ensures SumLines(LinesFor(CategorySums(log, user), SpentCategories(log, user))) ==
      SumLines(LinesFor(CategorySums(log[1..], user), SpentCategories(log[1..], user))) + log[0].amount
  {
    var t := log[0];
    var sums0 := CategorySums(log[1..], user);
    var cats0 := SpentCategories(log[1..], user);
    assert forall i, j :: 0 <= i < j < |cats0| ==> cats0[i] != cats0[j] by {
      SpentCategoriesSpec(log[1..], user);
    }
    SumsStep(log, user);
    assert SpentCategories(log, user) == cats0;
    BumpGroup(sums0, cats0, t.category, t.amount);
  }

  /** One more expense row of a category not yet listed: a new group holding
      the row's amount is listed in front. */
  lemma NewGroupStep(log: seq<Transaction>, user: UserId)
    requires log != [] && IsRowOf(log[0], user, Expense)
    requires log[0].category !in SpentCategories(log[1..], user)
    ensures SumLines(LinesFor(CategorySums(log, user), SpentCategories(log, user))) ==
      SumLines(LinesFor(CategorySums(log[1..], user), SpentCategories(log[1..], user))) + log[0].amount
  {
    var t := log[0];
    var sums0 := CategorySums(log[1..], user);
    var cats0 := SpentCategories(log[1..], user);
    var sums := sums0[t.category := Get(sums0, t.category) + t.amount];
    var cats := [t.category] + cats0;
    SpentCategoriesSpec(log[1..], user);
    assert t.category !in sums0 by {
      CategorySumsSpec(log[1..], user);
    }
    assert cats[1..] == cats0;
    SumsStep(log, user);
    assert SpentCategories(log, user) == cats;
    var tail := LinesFor(sums, cats0);
    assert LinesFor(sums, cats) == [CategoryLine(t.category, t.amount)] + tail;
    assert ([CategoryLine(t.category, t.amount)] + tail)[1..] == tail;
    BumpGroup(sums0, cats0, t.category, t.amount);
  }

  /** One row more in the log: the sum over the groups grows by the row's
      amount exactly when the row is one of the user's expenses. */
  lemma GroupStep(log: seq<Transaction>, user: UserId)
    requires log != []
    ensures SumLines(LinesFor(CategorySums(log, user), SpentCategories(log, user))) ==
      SumLines(LinesFor(CategorySums(log[1..], user), SpentCategories(log[1..], user)))
        + (if IsRowOf(log[0], user, Expense) then log[0].amount else 0.0)
  {
    if !IsRowOf(log[0], user, Expense) {
    } else if log[0].category in SpentCategories(log[1..], user) {
      KnownGroupStep(log, user);
    } else {
      NewGroupStep(log, user);
    }
  }

  /** The per-category sums add up to the user's total expense. */
  lemma {:induction false} BreakdownTotal(log: seq<Transaction>, user: UserId)
    ensures SumLines(Breakdown(log, user)) == TotalOf(log, user, Expense)
  {
    if log != [] {
      BreakdownTotal(log[1..], user);
      GroupStep(log, user);
    }
  }
}
