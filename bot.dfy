/** The bot's conversation handlers: per-user conversation state kept between
    events, the two-step entry of a transaction (amount, then category), the
    one-shot feedback capture, and the statistics reply. Each handler runs as
    one atomic step; replies are returned as values instead of being sent. */
module Bot {
  import opened Wrappers
  import opened Ledger
  import opened Keyboard

  /** The conversation dictionary of one user: the pending amount and type an
      entry command wrote, and the feedback flag. A missing key reads as
      `None`, a missing or false flag as `false`. */
  datatype UserState = UserState(amount: Option<real>, kind: Option<Kind>, feedbackMode: bool)

  /** The empty dictionary: a user never seen, or one whose state was cleared. */
  const Idle: UserState := UserState(None, None, false)

  /** The test `if amount and trans_type`: a type is pending and the pending
      amount is truthy, which for a number means different from zero. */
  predicate CanCommit(s: UserState) {
    s.amount.Some? && s.amount.value != 0.0 && s.kind.Some?
  }

  /** The categories offered for each type of entry. */
  function CategoriesFor(kind: Kind): seq<string> {
    match kind
    case Expense => ExpenseCategories
    case Income => IncomeCategories
  }

  /** Reply to an entry command: the category keyboard, or the usage hint
      when the amount argument is missing or does not parse. */
  datatype EntryReply =
    | ChooseCategory(kind: Kind, amount: real, keyboard: seq<seq<string>>)
    | EntryUsage(kind: Kind)

  /** Reply to a category button: the recorded row, or the "try again" error. */
  datatype CallbackReply = Recorded(row: Transaction) | TryAgain

  /** Reply to a free-text message: thanks for the feedback, or the command list. */
  datatype MessageReply = FeedbackThanks | CommandList

  /** The statistics reply: balance, both totals, one line per expense
      category, and whether the "no expenses yet" line is added. */
  datatype StatsReport = StatsReport(
    balance: real,
    totalIncome: real,
    totalExpense: real,
    lines: seq<CategoryLine>,
    noExpensesYet: bool)

  class FinanceBot {
    /** `context.user_data`, per user. */
    var userData: map<UserId, UserState>
    /** The `transactions` table, in insertion order. */
    var transactions: seq<Transaction>
    /** The `feedback` table, in insertion order. */
    var feedbackLog: seq<FeedbackRecord>

    /** The conversation state of `user`, empty when nothing was stored. */
    function StateOf(user: UserId): UserState
      reads this
    {
      if user in userData then userData[user] else Idle
    }

    constructor ()
      ensures userData == map[] && transactions == [] && feedbackLog == []
    {
      userData := map[];
      transactions := [];
      feedbackLog := [];
    }

    /** The shared body of the two entry commands. `arg` is the first command
        argument read as a number: `None` when it is missing or does not parse. */
    method BeginEntry(user: UserId, arg: Option<real>, kind: Kind) returns (reply: EntryReply)
      modifies this
      ensures transactions == old(transactions) && feedbackLog == old(feedbackLog)
      ensures arg.None? ==> userData == old(userData) && reply == EntryUsage(kind)
      ensures arg.Some? ==>
        && userData == old(userData)[user := old(StateOf(user)).(amount := arg, kind := Some(kind))]
        && reply == ChooseCategory(kind, arg.value, Rows2(CategoriesFor(kind)))
    {
      match arg
      case None =>
        reply := EntryUsage(kind);
      case Some(amount) =>
        userData := userData[user := StateOf(user).(amount := Some(amount))];
        userData := userData[user := StateOf(user).(kind := Some(kind))];
        reply := ChooseCategory(kind, amount, Rows2(CategoriesFor(kind)));
    }

    /** `/add_expense <amount>`: any number, negative and zero included, becomes
        the pending amount with type expense, replacing what was pending. */
    method AddExpense(user: UserId, arg: Option<real>) returns (reply: EntryReply)
      modifies this
      ensures transactions == old(transactions) && feedbackLog == old(feedbackLog)
      ensures arg.None? ==> userData == old(userData) && reply == EntryUsage(Expense)
      ensures arg.Some? ==>
        && userData == old(userData)[user := old(StateOf(user)).(amount := arg, kind := Some(Expense))]
        && reply == ChooseCategory(Expense, arg.value, Rows2(ExpenseCategories))
    {
      reply := BeginEntry(user, arg, Expense);
    }

    /** `/add_income <amount>`: as `AddExpense`, with type income. */
    method AddIncome(user: UserId, arg: Option<real>) returns (reply: EntryReply)
      modifies this
      ensures transactions == old(transactions) && feedbackLog == old(feedbackLog)
      ensures arg.None? ==> userData == old(userData) && reply == EntryUsage(Income)
      ensures arg.Some? ==>
        && userData == old(userData)[user := old(StateOf(user)).(amount := arg, kind := Some(Income))]
        && reply == ChooseCategory(Income, arg.value, Rows2(IncomeCategories))
    {
      reply := BeginEntry(user, arg, Income);
    }

    /** A category button: with a committable pending entry, one row carrying
        the chosen category verbatim is appended and the user's whole state,
        feedback flag included, is cleared; otherwise nothing changes. */
    method ButtonCallback(user: UserId, category: string) returns (reply: CallbackReply)
      modifies this
      ensures feedbackLog == old(feedbackLog)
      ensures CanCommit(old(StateOf(user))) ==>
        var row := Transaction(user, old(StateOf(user)).kind.value, old(StateOf(user)).amount.value, category);
        && transactions == old(transactions) + [row]
        && userData == old(userData)[user := Idle]
        && reply == Recorded(row)
      ensures !CanCommit(old(StateOf(user))) ==>
        transactions == old(transactions) && userData == old(userData) && reply == TryAgain
    {
      var amount := StateOf(user).amount;
      var kind := StateOf(user).kind;
      if amount.Some? && amount.value != 0.0 && kind.Some? {
        var row := Transaction(user, kind.value, amount.value, category);
        transactions := transactions + [row];
        reply := Recorded(row);
        userData := userData[user := Idle];
      } else {
        reply := TryAgain;
      }
    }

    /** `/stats`: the user's totals, balance and per-category expense lines,
        read from the log without changing anything. */
    method Stats(user: UserId) returns (report: StatsReport)
      ensures report.totalIncome == TotalOf(transactions, user, Income)
      ensures report.totalExpense == TotalOf(transactions, user, Expense)
      ensures report.balance == report.totalIncome - report.totalExpense
      ensures report.lines == Breakdown(transactions, user)
      ensures SumLines(report.lines) == report.totalExpense
      ensures report.noExpensesYet <==> NoRowsOf(transactions, user, Expense)
    {
      var totalIncome := TotalOf(transactions, user, Income);
      var totalExpense := TotalOf(transactions, user, Expense);
      var balance := totalIncome - totalExpense;
      var sums := CategorySums(transactions, user);
      var categories := SpentCategories(transactions, user);
      var lines: seq<CategoryLine> := [];
      for i := 0 to |categories|
        invariant |lines| == i
        invariant forall j :: 0 <= j < i ==> lines[j] == CategoryLine(categories[j], Get(sums, categories[j]))
      {
        var category := categories[i];
        lines := lines + [CategoryLine(category, Get(sums, category))];
      }
      LinesForAt(sums, categories);
      BreakdownTotal(transactions, user);
      report := StatsReport(balance, totalIncome, totalExpense, lines, lines == []);
    }

    /** `/feedback`: the next free-text message will be taken as feedback. */
    method Feedback(user: UserId)
      modifies this
      ensures transactions == old(transactions) && feedbackLog == old(feedbackLog)
      ensures userData == old(userData)[user := old(StateOf(user)).(feedbackMode := true)]
    {
      userData := userData[user := StateOf(user).(feedbackMode := true)];
    }

    /** A free-text message: in feedback mode it is stored as one feedback row
        and the flag is reset (the pending entry is kept); otherwise the
        command list is sent and nothing changes. */
    method HandleMessage(user: UserId, text: string) returns (reply: MessageReply)
      modifies this
      ensures transactions == old(transactions)
      ensures old(StateOf(user)).feedbackMode ==>
        && feedbackLog == old(feedbackLog) + [FeedbackRecord(user, text)]
        && userData == old(userData)[user := old(StateOf(user)).(feedbackMode := false)]
        && reply == FeedbackThanks
      ensures !old(StateOf(user)).feedbackMode ==>
        feedbackLog == old(feedbackLog) && userData == old(userData) && reply == CommandList
    {
      if StateOf(user).feedbackMode {
        feedbackLog := feedbackLog + [FeedbackRecord(user, text)];
        reply := FeedbackThanks;
        userData := userData[user := StateOf(user).(feedbackMode := false)];
      } else {
        reply := CommandList;
      }
    }
  }

  /** Two amounts entered before a category is chosen: only the second one is
      recorded, the first is lost. */
  method LastEntryWins(user: UserId, first: real, second: real, category: string)
    returns (log: seq<Transaction>)
    requires second != 0.0
    ensures log == [Transaction(user, Expense, second, category)]
  {
    var bot := new FinanceBot();
    var prompt1 := bot.AddExpense(user, Some(first));
    var prompt2 := bot.AddExpense(user, Some(second));
    var reply := bot.ButtonCallback(user, category);
    log := bot.transactions;
  }

  /** An amount of zero is accepted at entry but refused at commit. */
  method ZeroAmountNotRecorded(user: UserId, category: string)
    returns (prompt: EntryReply, reply: CallbackReply, log: seq<Transaction>)
    ensures prompt.ChooseCategory? && reply == TryAgain && log == []
  {
    var bot := new FinanceBot();
    prompt := bot.AddExpense(user, Some(0.0));
    reply := bot.ButtonCallback(user, category);
    log := bot.transactions;
  }

  /** A negative amount passes both steps and is recorded as it is. */
  method NegativeAmountRecorded(user: UserId, amount: real, category: string)
    returns (log: seq<Transaction>)
    requires amount < 0.0
    ensures log == [Transaction(user, Income, amount, category)]
  {
    var bot := new FinanceBot();
    var prompt := bot.AddIncome(user, Some(amount));
    var reply := bot.ButtonCallback(user, category);
    log := bot.transactions;
  }

  /** An amount that does not parse sets nothing, so the following category
      button finds nothing to record. */
  method UnparsedAmountNotRecorded(user: UserId, category: string)
    returns (prompt: EntryReply, reply: CallbackReply, log: seq<Transaction>)
    ensures prompt == EntryUsage(Expense) && reply == TryAgain && log == []
  {
    var bot := new FinanceBot();
    prompt := bot.AddExpense(user, None);
    reply := bot.ButtonCallback(user, category);
    log := bot.transactions;
  }

  /** A pending entry is recorded at most once: a second button press after
      the commit finds the state cleared. */
  method RecordedOnce(user: UserId, amount: real, first: string, second: string)
    returns (reply1: CallbackReply, reply2: CallbackReply, log: seq<Transaction>)
    requires amount != 0.0
    ensures reply1 == Recorded(Transaction(user, Expense, amount, first)) && reply2 == TryAgain
    ensures log == [Transaction(user, Expense, amount, first)]
  {
    var bot := new FinanceBot();
    var prompt := bot.AddExpense(user, Some(amount));
    reply1 := bot.ButtonCallback(user, first);
    reply2 := bot.ButtonCallback(user, second);
    log := bot.transactions;
  }

  /** Interleaved entries of two users keep each user's own amount, type and
      category together. */
  method UsersIndependent(u1: UserId, u2: UserId, a1: real, a2: real, c1: string, c2: string)
    returns (log: seq<Transaction>)
    requires u1 != u2 && a1 != 0.0 && a2 != 0.0
    ensures log == [Transaction(u2, Expense, a2, c2), Transaction(u1, Income, a1, c1)]
  {
    var bot := new FinanceBot();
    var prompt1 := bot.AddIncome(u1, Some(a1));
    var prompt2 := bot.AddExpense(u2, Some(a2));
    var reply2 := bot.ButtonCallback(u2, c2);
    var reply1 := bot.ButtonCallback(u1, c1);
    log := bot.transactions;
  }

  /** Feedback mode captures exactly one message; the next one gets the
      command list. */
  method FeedbackOnce(user: UserId, first: string, second: string)
    returns (reply1: MessageReply, reply2: MessageReply, log: seq<FeedbackRecord>)
    ensures reply1 == FeedbackThanks && reply2 == CommandList
    ensures log == [FeedbackRecord(user, first)]
  {
    var bot := new FinanceBot();
    bot.Feedback(user);
    reply1 := bot.HandleMessage(user, first);
    reply2 := bot.HandleMessage(user, second);
    log := bot.feedbackLog;
  }

  /** Recording a transaction clears the whole conversation state, so a
      feedback request made before it is forgotten. */
  method CommitClearsFeedbackMode(user: UserId, amount: real, category: string, text: string)
    returns (reply: MessageReply, log: seq<FeedbackRecord>)
    requires amount != 0.0
    ensures reply == CommandList && log == []
  {
    var bot := new FinanceBot();
    bot.Feedback(user);
    var prompt := bot.AddExpense(user, Some(amount));
    var recorded := bot.ButtonCallback(user, category);
    reply := bot.HandleMessage(user, text);
    log := bot.feedbackLog;
  }

  /** A user with no rows: all figures are zero and the "no expenses yet"
      line is shown. */
  method EmptyStats(user: UserId) returns (report: StatsReport)
    ensures report == StatsReport(0.0, 0.0, 0.0, [], true)
  {
    var bot := new FinanceBot();
    report := bot.Stats(user);
  }

  /** The figures of the statistics for one salary of 1000 and two food
      expenses of 200 and 50. */
  lemma ExampleFigures(user: UserId, log: seq<Transaction>)
    requires log == [
      Transaction(user, Income, 1000.0, "Зарплата"),
      Transaction(user, Expense, 200.0, "Еда"),
      Transaction(user, Expense, 50.0, "Еда")]
    ensures TotalOf(log, user, Income) == 1000.0 && TotalOf(log, user, Expense) == 250.0
    ensures Breakdown(log, user) == [CategoryLine("Еда", 250.0)]
  {
    var tail2 := log[1..];
    var tail1 := tail2[1..];
    assert tail1 == [Transaction(user, Expense, 50.0, "Еда")];
    assert tail1[1..] == [];
    assert TotalOf(tail1, user, Expense) == 50.0 && TotalOf(tail1, user, Income) == 0.0;
    assert TotalOf(tail2, user, Expense) == 250.0 && TotalOf(tail2, user, Income) == 0.0;
    assert SpentCategories(tail1, user) == ["Еда"];
    assert CategorySums(tail1, user) == map["Еда" := 50.0];
    assert SpentCategories(tail2, user) == ["Еда"];
    assert CategorySums(tail2, user) == map["Еда" := 250.0];
    assert SpentCategories(log, user) == ["Еда"];
    assert CategorySums(log, user) == map["Еда" := 250.0];
    assert LinesFor(map["Еда" := 250.0], ["Еда"]) == [CategoryLine("Еда", 250.0)];
  }

  /** Income 1000, then expenses 200 and 50 in the same category: balance
      750, expense 250, one category line of 250. */
  method StatsExample(user: UserId) returns (report: StatsReport)
    ensures report.balance == 750.0 && report.totalIncome == 1000.0 && report.totalExpense == 250.0
    ensures report.lines == [CategoryLine("Еда", 250.0)] && !report.noExpensesYet
  {
    var bot := new FinanceBot();
    var p1 := bot.AddIncome(user, Some(1000.0));
    var r1 := bot.ButtonCallback(user, "Зарплата");
    var p2 := bot.AddExpense(user, Some(200.0));
    var r2 := bot.ButtonCallback(user, "Еда");
    var p3 := bot.AddExpense(user, Some(50.0));
    var r3 := bot.ButtonCallback(user, "Еда");
    ExampleFigures(user, bot.transactions);
    report := bot.Stats(user);
  }
}
