/**
 * The message handler as a state machine: the pending clarifications, the
 * pending delete confirmations with their timeout timers, the ledger, the
 * messages sent and the conversation log.
 */
module Conversation {
  import opened Wrappers
  import opened Text
  import opened Intent
  import opened Category
  import opened Commands
  import Ledger
  import Reports

  type UserId = Ledger.UserId

  const GREETINGS: seq<string> := ["olá", "bom dia", "boa tarde", "boa noite"]
  const RECEITA: string := "receita"
  const DESPESA: string := "despesa"

  /** How many transactions list_transactions shows. */
  const LIST_LIMIT: nat := 10

  /** The spending-limit line of an expense reply. */
  datatype LimitNote = NoLimit | OverLimit | Remaining(amount: real)

  /** The reminder line of an expense reply: the balance, and by how much it
      is negative when it is. */
  datatype ReminderNote = NoReminder | CanSpend(balance: real, negativeBy: Option<real>)

  /** The messages the bot sends, by template and data. */
  datatype Reply =
    | Suggest(description: string, suggested: string)
    | CategoryNotAdded
    | ExpenseAdded(amount: real, category: string, description: string, id: nat, limit: LimitNote, reminder: ReminderNote)
    | IncomeAdded(amount: real, category: string, description: string, id: nat)
    | AskIncomeOrExpense
    | AllDeleted
    | Cancelled
    | TimedOut
    | BalanceSet(amount: real)
    | LimitSet(amount: real)
    | ReportReply(report: Reports.MonthReport)
    | HelpText
    | BalanceIs(balance: real)
    | TransactionList(transactions: seq<Ledger.Transaction>)
    | NoTransactions
    | ConfirmDelete
    | CategoryExists
    | CategoryAdded(name: string)
    | CategoryList(categories: seq<string>)
    | NoCategories
    | ReminderOn
    | ReminderOff
    | AskClarification
    | Greeting
    | NotUnderstood

  datatype Outgoing = Outgoing(to: UserId, reply: Reply)

  /** A saveLog entry. */
  datatype LogEntry = LogEntry(user: UserId, time: int, message: string, response: Reply)

  /** The description and value waiting for "receita" or "despesa". */
  datatype Pending = Pending(description: string, value: real)

  /** What the handler learns from outside for one message: the model's
      answers to the intent and category prompts, the reply to an approval
      question ("timeout" when none came), the clock and the current month. */
  datatype Env = Env(intentReply: string, categoryReply: string, approval: string, now: int, window: Ledger.Window)

  /** `confirm[u]` is the timer armed when u's confirmation was requested;
      `timers` holds the timeouts not yet fired, by id. */
  datatype BotState = BotState(ledger: Ledger.LedgerState, clarify: map<UserId, Pending>,
                               confirm: map<UserId, nat>, timers: map<nat, UserId>, nextTimer: nat,
                               outbox: seq<Outgoing>, log: seq<LogEntry>)

  const INITIAL := BotState(Ledger.EMPTY, map[], map[], map[], 0, [], [])

  datatype Event =
    | Incoming(from: UserId, body: string, fromMe: bool, env: Env)
    | TimerFired(id: nat)

  /** The limit line: past a truthy limit, or what is left of it. */
  function LimitNoteOf(limit: Option<real>, total: real): (r: LimitNote)
    ensures r.NoLimit? <==> limit.None? || limit.value == 0.0
    ensures r.OverLimit? <==> limit.Some? && limit.value != 0.0 && total > limit.value
    ensures r.Remaining? ==> r.amount >= 0.0 && total + r.amount == limit.value
  {
    if limit.Some? && limit.value != 0.0 && total > limit.value then OverLimit
    else if limit.Some? && limit.value != 0.0 then Remaining(limit.value - total)
    else NoLimit
  }

  /** The reminder line, shown in reminder mode. */
  function ReminderOf(reminderMode: bool, balance: real): (r: ReminderNote)
    ensures r.CanSpend? <==> reminderMode
    ensures r.CanSpend? ==> r.balance == balance && (r.negativeBy.Some? <==> balance < 0.0)
    ensures r.CanSpend? && r.negativeBy.Some? ==> r.negativeBy.value > 0.0 && r.negativeBy.value + balance == 0.0
  {
    if !reminderMode then NoReminder
    else CanSpend(balance, if balance < 0.0 then Some(-balance) else None)
  }

  function Send(u: UserId, replies: seq<Reply>): (r: seq<Outgoing>)
    ensures |r| == |replies|
    ensures forall k :: 0 <= k < |r| ==> r[k] == Outgoing(u, replies[k])
  {
    seq(|replies|, k requires 0 <= k < |replies| => Outgoing(u, replies[k]))
  }

  /** The category step shared by the add flows: the user is created if new,
      the model's answer is matched, a suggestion is asked about, and an
      approved one is added to the user's categories. */
  datatype CategoryOutcome = CategoryOutcome(ledger: Ledger.LedgerState, prompt: seq<Reply>, choice: Option<string>)

  /** The model's category answer for `u`, matched against u's categories. */
  function AnswerFor(l: Ledger.LedgerState, u: UserId, env: Env): CategoryAnswer {
    MatchCategory(env.categoryReply, Ledger.CategoriesOf(Ledger.EnsureUser(l, u), u))
  }

  function CategoryStep(l: Ledger.LedgerState, u: UserId, description: string, env: Env): (r: CategoryOutcome)
    ensures u in r.ledger.users && forall v :: v in l.users ==> v in r.ledger.users
    ensures r.ledger.transactions == l.transactions && r.ledger.nextId == l.nextId
    ensures r.choice.None? || AnswerFor(l, u, env).Known? ==> r.ledger == Ledger.EnsureUser(l, u)
    ensures AnswerFor(l, u, env).Suggested? && Approves(env.approval)
      ==> r.ledger == Ledger.AddCategory(Ledger.EnsureUser(l, u), u, AnswerFor(l, u, env).suggested)
    ensures r.prompt == (if AnswerFor(l, u, env).Suggested? then [Suggest(description, AnswerFor(l, u, env).suggested)] else [])
  {
    var l1 := Ledger.EnsureUser(l, u);
    var answer := MatchCategory(env.categoryReply, Ledger.CategoriesOf(l1, u));
    var prompt := match AskedSuggestion(answer) case None => [] case Some(sg) => [Suggest(description, sg)];
    var choice := ChooseCategory(answer, env.approval);
    var l2 := if answer.Suggested? && choice.Some? then Ledger.AddCategory(l1, u, choice.value) else l1;
    CategoryOutcome(l2, prompt, choice)
  }

  /** Records an expense and composes its reply from the user's limit and
      reminder mode, the month's expenses and the new balance. */
  function PostExpense(l: Ledger.LedgerState, u: UserId, amount: real, category: string, description: string, env: Env): (r: (Ledger.LedgerState, Reply))
    requires u in l.users
    ensures u in r.0.users
    ensures r.0 == Ledger.AddTransaction(l, u, Ledger.Expense, amount, category, description, env.now).0
    ensures r.1 == ExpenseAdded(amount, category, description, l.nextId,
                                LimitNoteOf(l.users[u].spendingLimit, Ledger.MonthExpenses(r.0, u, env.window)),
                                ReminderOf(l.users[u].reminderMode, l.users[u].balance - amount))
  {
    var (l1, id) := Ledger.AddTransaction(l, u, Ledger.Expense, amount, category, description, env.now);
    var user := l1.users[u];
    (l1, ExpenseAdded(amount, category, description, id,
                      LimitNoteOf(user.spendingLimit, Ledger.MonthExpenses(l1, u, env.window)),
                      ReminderOf(user.reminderMode, Ledger.Balance(l1, u))))
  }

  function PostIncome(l: Ledger.LedgerState, u: UserId, amount: real, category: string, description: string, env: Env): (r: (Ledger.LedgerState, Reply))
    ensures r.0 == Ledger.AddTransaction(l, u, Ledger.Income, amount, category, description, env.now).0
    ensures r.1 == IncomeAdded(amount, category, description, l.nextId)
  {
    var (l1, id) := Ledger.AddTransaction(l, u, Ledger.Income, amount, category, description, env.now);
    (l1, IncomeAdded(amount, category, description, id))
  }

  /** A reply to the "receita ou despesa" question (u has a pending clarification). */
  function Clarification(s: BotState, u: UserId, body: string, env: Env): (r: BotState)
    requires u in s.clarify
    ensures r.log == s.log
    ensures |r.outbox| > |s.outbox| && r.outbox[..|s.outbox|] == s.outbox
    ensures forall v :: v in s.ledger.users ==> v in r.ledger.users
  {
    var response := Trim(Lower(body));
    if response == RECEITA || response == DESPESA then
      Settle(s, u, s.clarify[u], if response == RECEITA then Ledger.Income else Ledger.Expense, env)
    else
      s.(outbox := s.outbox + [Outgoing(u, AskIncomeOrExpense)])
  }

  /** The question settled as type `t`: the category step, then the
      transaction unless the suggestion was declined; the question is cleared. */
  function Settle(s: BotState, u: UserId, p: Pending, t: Ledger.TxType, env: Env): (r: BotState)
    ensures r.log == s.log
    ensures r.clarify == s.clarify - {u} && r.confirm == s.confirm && r.timers == s.timers && r.nextTimer == s.nextTimer
    ensures forall v :: v in s.ledger.users ==> v in r.ledger.users
    ensures |r.outbox| > |s.outbox| && r.outbox[..|s.outbox|] == s.outbox
  {
    var cs := CategoryStep(s.ledger, u, p.description, env);
    var done := s.(clarify := s.clarify - {u});
    if cs.choice.None? then
      done.(ledger := cs.ledger, outbox := s.outbox + Send(u, cs.prompt + [CategoryNotAdded]))
    else
      var (l, reply) := if t == Ledger.Income then PostIncome(cs.ledger, u, p.value, cs.choice.value, p.description, env)
                        else PostExpense(cs.ledger, u, p.value, cs.choice.value, p.description, env);
      done.(ledger := l, outbox := s.outbox + Send(u, cs.prompt + [reply]))
  }

  /** A reply to the delete confirmation (u has one pending): always consumed. */
  function Confirmation(s: BotState, u: UserId, body: string): (r: BotState)
    requires u in s.confirm
    ensures r.log == s.log
    ensures |r.outbox| == |s.outbox| + 1 && r.outbox[..|s.outbox|] == s.outbox
    ensures r.ledger.users.Keys == s.ledger.users.Keys
  {
    var s1 := s.(confirm := s.confirm - {u});
    if Trim(Lower(body)) == YES then
      s1.(ledger := Ledger.DeleteAllTransactions(s.ledger, u), outbox := s.outbox + [Outgoing(u, AllDeleted)])
    else
      s1.(outbox := s.outbox + [Outgoing(u, Cancelled)])
  }

  /** The list_transactions reply: the newest transactions, or the notice
      that there are none. */
  function ListReply(txs: seq<Ledger.Transaction>): (r: Reply)
    ensures r == NoTransactions <==> txs == []
    ensures r.TransactionList? ==> r.transactions == txs
  {
    if txs == [] then NoTransactions else TransactionList(txs)
  }

  /** Runs a command for a known user: the new state (ledger and pending
      maps) and the reply. */
  function Execute(s: BotState, u: UserId, cmd: Command, env: Env): (r: (BotState, Reply))
    requires u in s.ledger.users && !cmd.Unknown?
    ensures r.0.outbox == s.outbox && r.0.log == s.log
    ensures r.0.ledger.users.Keys == s.ledger.users.Keys
  {
    var l := s.ledger;
    var user := l.users[u];
    match cmd
    case AddExpense(v, d, c) =>
      var (l1, reply) := PostExpense(l, u, v, c, d, env); (s.(ledger := l1), reply)
    case AddIncome(v, d, c) =>
      var (l1, reply) := PostIncome(l, u, v, c, d, env); (s.(ledger := l1), reply)
    case SetBalance(v) => (s.(ledger := Ledger.SetBalance(l, u, v)), BalanceSet(v))
    case SetLimit(v) => (s.(ledger := Ledger.SetSpendingLimit(l, u, v)), LimitSet(v))
    case Report => (s, ReportReply(Reports.MonthlyReport(l, u, env.window)))
    case Help => (s, HelpText)
    case ShowBalance => (s, BalanceIs(Ledger.Balance(l, u)))
    case ListTransactions => (s, ListReply(Ledger.LastTransactions(l, u, LIST_LIMIT)))
    case DeleteAll =>
      (s.(confirm := s.confirm[u := s.nextTimer], timers := s.timers[s.nextTimer := u], nextTimer := s.nextTimer + 1),
       ConfirmDelete)
    case AddCategory(n) =>
      if n in user.categories then (s, CategoryExists)
      else (s.(ledger := Ledger.AddCategory(l, u, n)), CategoryAdded(n))
    case ListCategories =>
      (s, if |user.categories| > 0 then CategoryList(user.categories) else NoCategories)
    case ActivateReminder => (s.(ledger := Ledger.SetReminderMode(l, u, true)), ReminderOn)
    case DeactivateReminder => (s.(ledger := Ledger.SetReminderMode(l, u, false)), ReminderOff)
    case Clarify(d, v) => (s.(clarify := s.clarify[u := Pending(d, v)]), AskClarification)
  }

  /** The command parseCommand returns for this message, with the ledger
      after its category step and the prompts it sent. */
  function Parse(l: Ledger.LedgerState, u: UserId, env: Env): (r: (Ledger.LedgerState, seq<Reply>, Option<Command>))
    ensures r.0.transactions == l.transactions && r.0.nextId == l.nextId
    ensures forall v :: v in l.users ==> v in r.0.users
  {
    var k := Classify(Analyze(env.intentReply));
    if k.NeedsCategory? then
      var cs := CategoryStep(l, u, k.description, env);
      (cs.ledger, cs.prompt, Resolve(k, cs.choice))
    else (l, [], Resolve(k, None))
  }

  /** The handler runs the command parseCommand returns for the user's
      categories (those of the new record for a first-time user). */
  lemma ParseIsParseCommand(l: Ledger.LedgerState, u: UserId, env: Env)
    ensures Parse(l, u, env).2 == ParseCommand(Analyze(env.intentReply), Ledger.CategoriesOf(Ledger.EnsureUser(l, u), u), env.categoryReply, env.approval)
  {
  }

  /** The category step asks the model and the user as parseCommand does. */
  lemma CategoryStepChooses(l: Ledger.LedgerState, u: UserId, description: string, env: Env)
    ensures CategoryStep(l, u, description, env).choice
      == ChooseCategory(MatchCategory(env.categoryReply, Ledger.CategoriesOf(Ledger.EnsureUser(l, u), u)), env.approval)
  {
  }

  /** The state Fresh reaches before it records its reply. */
  function FreshState(s: BotState, u: UserId, body: string, env: Env): (r: (BotState, Reply))
    ensures r.0.outbox == s.outbox && r.0.log == s.log
    ensures forall v :: v in s.ledger.users ==> v in r.0.ledger.users
  {
    var (l1, prompt, cmd) := Parse(s.ledger, u, env);
    if cmd.Some? && !cmd.value.Unknown? then Execute(s.(ledger := Ledger.EnsureUser(l1, u)), u, cmd.value, env)
    else if Trim(Lower(body)) in GREETINGS then (s.(ledger := l1), Greeting)
    else (s.(ledger := l1), NotUnderstood)
  }

  /** A message that is not a reply to a pending question: parsed, run if it
      is a known command, answered and logged. */
  function Fresh(s: BotState, u: UserId, body: string, env: Env): (r: BotState)
    ensures |r.outbox| > |s.outbox| && r.outbox[..|s.outbox|] == s.outbox
    ensures forall k :: |s.outbox| <= k < |r.outbox| ==> r.outbox[k].to == u
    ensures r.log == s.log + [LogEntry(u, env.now, body, r.outbox[|r.outbox| - 1].reply)]
  {
    var (s2, reply) := FreshState(s, u, body, env);
    s2.(outbox := s.outbox + Send(u, Parse(s.ledger, u, env).1 + [reply]), log := s.log + [LogEntry(u, env.now, body, reply)])
  }

  /** Sending a message's prompts and reply to its sender and logging it. */
  function Deliver(s: BotState, u: UserId, body: string, env: Env, prompt: seq<Reply>, reply: Reply): BotState {
    s.(outbox := s.outbox + Send(u, prompt + [reply]), log := s.log + [LogEntry(u, env.now, body, reply)])
  }

  /** Fresh is FreshState followed by Deliver. */
  lemma FreshFromState(s: BotState, u: UserId, body: string, env: Env, s1: BotState, reply: Reply, prompt: seq<Reply>)
    requires (s1, reply) == FreshState(s, u, body, env) && prompt == Parse(s.ledger, u, env).1
    ensures s1.outbox == s.outbox && s1.log == s.log
    ensures Fresh(s, u, body, env) == Deliver(s1, u, body, env, prompt, reply)
  {
  }

  /** The delete-confirmation timeout, corrected: it cancels only the
      confirmation it was armed for. */
  function Fire(s: BotState, id: nat): (r: BotState)
    ensures r.ledger == s.ledger && r.log == s.log && r.clarify == s.clarify && r.nextTimer == s.nextTimer
    ensures id !in r.timers && forall t :: t != id ==> (t in r.timers <==> t in s.timers)
    ensures r.outbox == s.outbox || (id in s.timers && r.outbox == s.outbox + [Outgoing(s.timers[id], TimedOut)])
  {
    if id !in s.timers then s
    else
      var u := s.timers[id];
      var s1 := s.(timers := s.timers - {id});
      if u in s.confirm && s.confirm[u] == id then
        s1.(confirm := s.confirm - {u}, outbox := s.outbox + [Outgoing(u, TimedOut)])
      else s1
  }

  /** The timeout as written: any pending confirmation of the user is
      cancelled, also one requested after this timer was armed. */
  function FireAsWritten(s: BotState, id: nat): BotState {
    if id !in s.timers then s
    else
      var u := s.timers[id];
      var s1 := s.(timers := s.timers - {id});
      if u in s.confirm then
        s1.(confirm := s.confirm - {u}, outbox := s.outbox + [Outgoing(u, TimedOut)])
      else s1
  }

  /** The handler for one event. */
  function Step(s: BotState, e: Event): (r: BotState)
    ensures e.Incoming? && (e.body == [] || e.fromMe) ==> r == s
    ensures e.TimerFired? ==> r.ledger == s.ledger && r.log == s.log
    ensures |s.outbox| <= |r.outbox| && r.outbox[..|s.outbox|] == s.outbox
    ensures r.log == s.log || (e.Incoming? && |r.outbox| > |s.outbox| && r.log == s.log + [LogEntry(e.from, e.env.now, e.body, r.outbox[|r.outbox| - 1].reply)])
    ensures forall v :: v in s.ledger.users ==> v in r.ledger.users
  {
    match e
    case TimerFired(id) => Fire(s, id)
    case Incoming(u, body, fromMe, env) =>
      if body == [] || fromMe then s
      else if u in s.clarify then Clarification(s, u, body, env)
      else if u in s.confirm then Confirmation(s, u, body)
      else Fresh(s, u, body, env)
  }

  /** What the handler keeps true: the ledger is well formed; a user waits
      for at most one answer; users with a pending question are known; a
      pending confirmation's timer is outstanding and belongs to its user;
      timer ids are below the next one. */
  ghost predicate Inv(s: BotState) {
    && Ledger.WellFormed(s.ledger)
    && (forall u :: u in s.clarify ==> u !in s.confirm && u in s.ledger.users)
    && (forall u :: u in s.confirm ==> u in s.ledger.users && s.confirm[u] in s.timers && s.timers[s.confirm[u]] == u)
    && (forall id :: id in s.timers ==> id < s.nextTimer)
  }

  lemma InitialInv()
    ensures Inv(INITIAL)
  {
  }

  lemma CategoryStepKeepsWellFormed(l: Ledger.LedgerState, u: UserId, description: string, env: Env)
    requires Ledger.WellFormed(l)
    ensures Ledger.WellFormed(CategoryStep(l, u, description, env).ledger)
  {
  }

  /** The invariant survives a new well-formed ledger that keeps every user. */
  lemma InvOfLedger(s: BotState, l: Ledger.LedgerState, outbox: seq<Outgoing>)
    requires Inv(s) && Ledger.WellFormed(l)
    requires forall v :: v in s.ledger.users ==> v in l.users
    ensures Inv(s.(ledger := l, outbox := outbox))
  {
  }

  lemma SettleKeepsInv(s: BotState, u: UserId, p: Pending, t: Ledger.TxType, env: Env)
    requires Inv(s)
    ensures Inv(Settle(s, u, p, t, env))
  {
    var cs := CategoryStep(s.ledger, u, p.description, env);
    CategoryStepKeepsWellFormed(s.ledger, u, p.description, env);
    var done := s.(clarify := s.clarify - {u});
    assert Inv(done);
    if cs.choice.None? {
      InvOfLedger(done, cs.ledger, s.outbox + Send(u, cs.prompt + [CategoryNotAdded]));
    } else {
      Ledger.AddTransactionKeepsWellFormed(cs.ledger, u, t, p.value, cs.choice.value, p.description, env.now);
      var (l, reply) := if t == Ledger.Income then PostIncome(cs.ledger, u, p.value, cs.choice.value, p.description, env)
                        else PostExpense(cs.ledger, u, p.value, cs.choice.value, p.description, env);
      InvOfLedger(done, l, s.outbox + Send(u, cs.prompt + [reply]));
    }
  }

  lemma ClarificationKeepsInv(s: BotState, u: UserId, body: string, env: Env)
    requires Inv(s) && u in s.clarify
    ensures Inv(Clarification(s, u, body, env))
  {
    var response := Trim(Lower(body));
    if response == RECEITA || response == DESPESA {
      SettleKeepsInv(s, u, s.clarify[u], if response == RECEITA then Ledger.Income else Ledger.Expense, env);
    }
  }

  lemma ConfirmationKeepsInv(s: BotState, u: UserId, body: string)
    requires Inv(s) && u in s.confirm
    ensures Inv(Confirmation(s, u, body))
  {
    Ledger.DeleteAllKeepsWellFormed(s.ledger, u);
  }

  lemma ExecuteKeepsInv(s: BotState, u: UserId, cmd: Command, env: Env)
    requires Inv(s) && u in s.ledger.users && !cmd.Unknown?
    requires u !in s.clarify && u !in s.confirm
    ensures Inv(Execute(s, u, cmd, env).0)
  {
    if cmd.AddExpense? || cmd.AddIncome? {
      AddKeepsInv(s, u, cmd, env);
    } else if cmd.DeleteAll? || cmd.Clarify? {
    } else if cmd.Report? || cmd.Help? || cmd.ShowBalance? || cmd.ListTransactions? || cmd.ListCategories? {
      QueryKeepsState(s, u, cmd, env);
    } else {
      RecordKeepsInv(s, u, cmd, env);
    }
  }

  lemma AddKeepsInv(s: BotState, u: UserId, cmd: Command, env: Env)
    requires Inv(s) && u in s.ledger.users && (cmd.AddExpense? || cmd.AddIncome?)
    ensures Inv(Execute(s, u, cmd, env).0)
  {
    var t := if cmd.AddIncome? then Ledger.Income else Ledger.Expense;
    Ledger.AddTransactionKeepsWellFormed(s.ledger, u, t, cmd.amount, cmd.category, cmd.description, env.now);
  }

  /** The commands that only read the ledger change nothing. */
  lemma QueryKeepsState(s: BotState, u: UserId, cmd: Command, env: Env)
    requires u in s.ledger.users
    requires cmd.Report? || cmd.Help? || cmd.ShowBalance? || cmd.ListTransactions? || cmd.ListCategories?
    ensures Execute(s, u, cmd, env).0 == s
  {
  }

  /** The commands that change the user's record. */
  lemma RecordKeepsInv(s: BotState, u: UserId, cmd: Command, env: Env)
    requires Inv(s) && u in s.ledger.users
    requires cmd.SetBalance? || cmd.SetLimit? || cmd.AddCategory? || cmd.ActivateReminder? || cmd.DeactivateReminder?
    ensures Inv(Execute(s, u, cmd, env).0)
  {
    var r := Execute(s, u, cmd, env).0;
    assert r == s.(ledger := r.ledger);
    assert r.ledger.transactions == s.ledger.transactions && r.ledger.nextId == s.ledger.nextId;
    InvOfLedger(s, r.ledger, s.outbox);
  }

  lemma ParseKeepsInv(s: BotState, u: UserId, env: Env)
    requires Inv(s) && u !in s.clarify && u !in s.confirm
    ensures Inv(s.(ledger := Parse(s.ledger, u, env).0))
    ensures Inv(s.(ledger := Ledger.EnsureUser(Parse(s.ledger, u, env).0, u)))
  {
    var k := Classify(Analyze(env.intentReply));
    if k.NeedsCategory? {
      CategoryStepKeepsWellFormed(s.ledger, u, k.description, env);
    }
  }

  lemma FreshStateKeepsInv(s: BotState, u: UserId, body: string, env: Env)
    requires Inv(s) && u !in s.clarify && u !in s.confirm
    ensures Inv(FreshState(s, u, body, env).0)
  {
    ParseKeepsInv(s, u, env);
    var (l1, prompt, cmd) := Parse(s.ledger, u, env);
    if cmd.Some? && !cmd.value.Unknown? {
      ExecuteKeepsInv(s.(ledger := Ledger.EnsureUser(l1, u)), u, cmd.value, env);
    }
  }

  lemma FreshKeepsInv(s: BotState, u: UserId, body: string, env: Env)
    requires Inv(s) && u !in s.clarify && u !in s.confirm
    ensures Inv(Fresh(s, u, body, env))
  {
    FreshStateKeepsInv(s, u, body, env);
  }

  lemma FireKeepsInv(s: BotState, id: nat)
    requires Inv(s)
    ensures Inv(Fire(s, id))
  {
  }

  /** Every event keeps the invariant. */
  lemma StepKeepsInv(s: BotState, e: Event)
    requires Inv(s)
    ensures Inv(Step(s, e))
  {
    match e
    case TimerFired(id) => FireKeepsInv(s, id);
    case Incoming(u, body, fromMe, env) =>
      if body == [] || fromMe {
      } else if u in s.clarify {
        ClarificationKeepsInv(s, u, body, env);
      } else if u in s.confirm {
        ConfirmationKeepsInv(s, u, body);
      } else {
        FreshKeepsInv(s, u, body, env);
      }
  }

  /** The event is a message from `v` whose command is set_balance: the one
      way the handler moves v's balance away from v's transactions. */
  predicate SetsBalanceOf(s: BotState, e: Event, v: UserId) {
    && e.Incoming? && e.from == v && e.body != [] && !e.fromMe && v !in s.clarify && v !in s.confirm
    && var cmd := Parse(s.ledger, v, e.env).2; cmd.Some? && cmd.value.SetBalance?
  }

  /** Every event but a set_balance of v's own keeps v's balance equal to the
      signed sum of v's transactions. */
  lemma StepKeepsConsistent(s: BotState, e: Event, v: UserId)
    requires Inv(s) && Ledger.Consistent(s.ledger, v) && !SetsBalanceOf(s, e, v)
    ensures Ledger.Consistent(Step(s, e).ledger, v)
  {
    match e
    case TimerFired(id) =>
    case Incoming(u, body, fromMe, env) =>
      if body == [] || fromMe {
      } else if u in s.clarify {
        ClarificationKeepsConsistent(s, u, body, env, v);
      } else if u in s.confirm {
        Ledger.DeleteAllEffect(s.ledger, u);
      } else {
        FreshStateKeepsConsistent(s, u, body, env, v);
      }
  }

  /** The handler run over a sequence of events. */
  function Run(s: BotState, es: seq<Event>): BotState
    decreases |es|
  {
    if es == [] then s else Run(Step(s, es[0]), es[1..])
  }

  /** No event of the run is a set_balance from `v`. */
  predicate NeverSetsBalance(s: BotState, es: seq<Event>, v: UserId)
    decreases |es|
  {
    es == [] || (!SetsBalanceOf(s, es[0], v) && NeverSetsBalance(Step(s, es[0]), es[1..], v))
  }

  /** Along a run without a set_balance from v, the invariant holds and v's
      balance stays the signed sum of v's transactions. */
  lemma {:induction false} RunKeepsConsistent(s: BotState, es: seq<Event>, v: UserId)
    requires Inv(s) && Ledger.Consistent(s.ledger, v) && NeverSetsBalance(s, es, v)
    ensures Inv(Run(s, es)) && Ledger.Consistent(Run(s, es).ledger, v)
    decreases |es|
  {
    if es != [] {
      StepKeepsInv(s, es[0]);
      StepKeepsConsistent(s, es[0], v);
      RunKeepsConsistent(Step(s, es[0]), es[1..], v);
    }
  }

  /** From the start, a user who never sets the balance by hand has as
      balance the signed sum of their transactions. */
  lemma ConsistentFromStart(es: seq<Event>, v: UserId)
    requires NeverSetsBalance(INITIAL, es, v)
    ensures Ledger.Consistent(Run(INITIAL, es).ledger, v)
  {
    InitialInv();
    RunKeepsConsistent(INITIAL, es, v);
  }

  /** A change that keeps the transactions and v's balance keeps v consistent. */
  lemma ConsistentCarries(l: Ledger.LedgerState, l2: Ledger.LedgerState, v: UserId)
    requires Ledger.Consistent(l, v) && l2.transactions == l.transactions
    requires v in l2.users ==> v in l.users && l2.users[v].balance == l.users[v].balance
    ensures Ledger.Consistent(l2, v)
  {
  }

  lemma CategoryStepKeepsConsistent(l: Ledger.LedgerState, u: UserId, description: string, env: Env, v: UserId)
    requires Ledger.WellFormed(l) && Ledger.Consistent(l, v)
    ensures Ledger.Consistent(CategoryStep(l, u, description, env).ledger, v)
  {
    var l1 := Ledger.EnsureUser(l, u);
    Ledger.EnsureUserKeepsConsistent(l, u, v);
    var r := CategoryStep(l, u, description, env);
    if r.ledger != l1 {
      var a := AnswerFor(l, u, env);
      assert a.Suggested? && Approves(env.approval);
      ConsistentCarries(l1, Ledger.AddCategory(l1, u, a.suggested), v);
    }
  }

  lemma ClarificationKeepsConsistent(s: BotState, u: UserId, body: string, env: Env, v: UserId)
    requires Inv(s) && u in s.clarify && Ledger.Consistent(s.ledger, v)
    ensures Ledger.Consistent(Clarification(s, u, body, env).ledger, v)
  {
    var response := Trim(Lower(body));
    if response == RECEITA || response == DESPESA {
      var t := if response == RECEITA then Ledger.Income else Ledger.Expense;
      SettleKeepsConsistent(s, u, s.clarify[u], t, env, v);
    }
  }

  lemma SettleKeepsConsistent(s: BotState, u: UserId, p: Pending, t: Ledger.TxType, env: Env, v: UserId)
    requires Ledger.WellFormed(s.ledger) && Ledger.Consistent(s.ledger, v)
    ensures Ledger.Consistent(Settle(s, u, p, t, env).ledger, v)
  {
    var cs := CategoryStep(s.ledger, u, p.description, env);
    CategoryStepKeepsConsistent(s.ledger, u, p.description, env, v);
    if cs.choice.Some? {
      Ledger.AddTransactionKeepsConsistent(cs.ledger, u, t, p.value, cs.choice.value, p.description, env.now, v);
    }
  }

  lemma FreshStateKeepsConsistent(s: BotState, u: UserId, body: string, env: Env, v: UserId)
    requires Inv(s) && u !in s.clarify && u !in s.confirm && Ledger.Consistent(s.ledger, v)
    requires var cmd := Parse(s.ledger, u, env).2; u == v && cmd.Some? ==> !cmd.value.SetBalance?
    ensures Ledger.Consistent(FreshState(s, u, body, env).0.ledger, v)
  {
    ParseKeepsConsistent(s.ledger, u, env, v);
    var l1 := Parse(s.ledger, u, env).0;
    var cmd := Parse(s.ledger, u, env).2;
    if cmd.Some? && !cmd.value.Unknown? {
      FreshRunsCommand(s, u, body, env);
      ExecuteKeepsConsistent(s.(ledger := Ledger.EnsureUser(l1, u)), u, cmd.value, env, v);
    } else {
      NoCommandReply(s, u, body, env);
    }
  }

  lemma ParseKeepsConsistent(l: Ledger.LedgerState, u: UserId, env: Env, v: UserId)
    requires Ledger.WellFormed(l) && Ledger.Consistent(l, v)
    ensures Ledger.Consistent(Ledger.EnsureUser(Parse(l, u, env).0, u), v)
  {
    var k := Classify(Analyze(env.intentReply));
    if k.NeedsCategory? {
      CategoryStepKeepsWellFormed(l, u, k.description, env);
      CategoryStepKeepsConsistent(l, u, k.description, env, v);
    }
    Ledger.EnsureUserKeepsConsistent(Parse(l, u, env).0, u, v);
  }

  lemma ExecuteKeepsConsistent(s: BotState, u: UserId, cmd: Command, env: Env, v: UserId)
    requires u in s.ledger.users && !cmd.Unknown? && Ledger.Consistent(s.ledger, v)
    requires cmd.SetBalance? ==> u != v
    ensures Ledger.Consistent(Execute(s, u, cmd, env).0.ledger, v)
  {
    var l := s.ledger;
    var l2 := Execute(s, u, cmd, env).0.ledger;
    match cmd
    case AddExpense(a, d, c) =>
      Ledger.AddTransactionKeepsConsistent(l, u, Ledger.Expense, a, c, d, env.now, v);
    case AddIncome(a, d, c) =>
      Ledger.AddTransactionKeepsConsistent(l, u, Ledger.Income, a, c, d, env.now, v);
    case DeleteAll =>
    case Clarify(_, _) =>
    case _ =>
      ConsistentCarries(l, l2, v);
  }

  /** Empty messages and the bot's own messages are ignored. */
  lemma IgnoredMessage(s: BotState, u: UserId, body: string, fromMe: bool, env: Env)
    requires body == [] || fromMe
    ensures Step(s, Incoming(u, body, fromMe, env)) == s
  {
  }

  /** Answers to a pending question are handled before anything else and
      are not logged. */
  lemma PendingAnswerNotLogged(s: BotState, u: UserId, body: string, env: Env)
    requires body != [] && (u in s.clarify || u in s.confirm)
    ensures Step(s, Incoming(u, body, false, env)).log == s.log
    ensures u in s.clarify ==> Step(s, Incoming(u, body, false, env)) == Clarification(s, u, body, env)
    ensures u !in s.clarify && u in s.confirm ==> Step(s, Incoming(u, body, false, env)) == Confirmation(s, u, body)
  {
    if u in s.clarify {
      assert Step(s, Incoming(u, body, false, env)) == Clarification(s, u, body, env);
    } else {
      assert Step(s, Incoming(u, body, false, env)) == Confirmation(s, u, body);
    }
  }

  /** Any other message is answered once and logged with that answer, after
      the suggestion prompt the category step may have sent. */
  lemma FreshMessageLogged(s: BotState, u: UserId, body: string, env: Env)
    requires body != [] && u !in s.clarify && u !in s.confirm
    ensures var r := Step(s, Incoming(u, body, false, env));
      var reply := FreshState(s, u, body, env).1;
      && r.log == s.log + [LogEntry(u, env.now, body, reply)]
      && r.outbox == s.outbox + Send(u, Parse(s.ledger, u, env).1 + [reply])
  {
  }

  /** A message with no command or the unknown one is greeted when it is a
      greeting, and otherwise not understood; nothing but the category step
      touches the ledger. */
  lemma NoCommandReply(s: BotState, u: UserId, body: string, env: Env)
    requires var cmd := Parse(s.ledger, u, env).2; cmd.None? || cmd.value.Unknown?
    ensures FreshState(s, u, body, env).1 == if Trim(Lower(body)) in GREETINGS then Greeting else NotUnderstood
    ensures FreshState(s, u, body, env).0 == s.(ledger := Parse(s.ledger, u, env).0)
  {
  }

  /** A delete request deletes nothing yet: it arms a new timer and waits. */
  lemma DeleteRequestArmsTimer(s: BotState, u: UserId, body: string, env: Env)
    requires Parse(s.ledger, u, env).2 == Some(DeleteAll)
    ensures var (r, reply) := FreshState(s, u, body, env);
      && reply == ConfirmDelete
      && r.confirm == s.confirm[u := s.nextTimer] && r.timers == s.timers[s.nextTimer := u]
      && r.nextTimer == s.nextTimer + 1 && r.clarify == s.clarify
      && r.ledger.transactions == s.ledger.transactions
  {
    FreshRunsCommand(s, u, body, env);
    var l1 := Parse(s.ledger, u, env).0;
    ExecuteDeleteAll(s.(ledger := Ledger.EnsureUser(l1, u)), u, env);
  }

  lemma ExecuteDeleteAll(s: BotState, u: UserId, env: Env)
    requires u in s.ledger.users
    ensures Execute(s, u, DeleteAll, env)
      == (s.(confirm := s.confirm[u := s.nextTimer], timers := s.timers[s.nextTimer := u], nextTimer := s.nextTimer + 1), ConfirmDelete)
  {
  }

  lemma FreshRunsCommand(s: BotState, u: UserId, body: string, env: Env)
    requires var cmd := Parse(s.ledger, u, env).2; cmd.Some? && !cmd.value.Unknown?
    ensures FreshState(s, u, body, env) == Execute(s.(ledger := Ledger.EnsureUser(Parse(s.ledger, u, env).0, u)), u, Parse(s.ledger, u, env).2.value, env)
  {
  }

  /** The reply to a delete confirmation always clears it; "sim" (in any
      case, trimmed) deletes the user's transactions and nobody else's,
      anything else leaves the ledger as it was. */
  lemma ConfirmationOutcome(s: BotState, u: UserId, body: string)
    requires u in s.confirm
    ensures var r := Confirmation(s, u, body);
      && u !in r.confirm && r.clarify == s.clarify && r.timers == s.timers
      && (Trim(Lower(body)) == YES ==>
            && Ledger.UserTransactions(r.ledger, u) == []
            && (forall v :: v != u ==> Ledger.UserTransactions(r.ledger, v) == Ledger.UserTransactions(s.ledger, v))
            && r.outbox == s.outbox + [Outgoing(u, AllDeleted)])
      && (Trim(Lower(body)) != YES ==> r.ledger == s.ledger && r.outbox == s.outbox + [Outgoing(u, Cancelled)])
  {
    Ledger.DeleteAllEffect(s.ledger, u);
  }

  /** A reply other than "receita" or "despesa" repeats the question and
      keeps it pending. */
  lemma ClarificationRepeats(s: BotState, u: UserId, body: string, env: Env)
    requires u in s.clarify
    requires Trim(Lower(body)) != RECEITA && Trim(Lower(body)) != DESPESA
    ensures Clarification(s, u, body, env) == s.(outbox := s.outbox + [Outgoing(u, AskIncomeOrExpense)])
  {
  }

  /** "receita" or "despesa" settles the question: with a category, exactly
      one transaction of that type with the pending value and description
      is recorded for the user; without one, none. */
  lemma ClarificationRecords(s: BotState, u: UserId, body: string, env: Env)
    requires u in s.clarify
    requires Trim(Lower(body)) == RECEITA || Trim(Lower(body)) == DESPESA
    ensures var r := Clarification(s, u, body, env);
      var p := s.clarify[u];
      var cs := CategoryStep(s.ledger, u, p.description, env);
      var t := if Trim(Lower(body)) == RECEITA then Ledger.Income else Ledger.Expense;
      && u !in r.clarify
      && (cs.choice.None? ==> Ledger.UserTransactions(r.ledger, u) == Ledger.UserTransactions(s.ledger, u))
      && (cs.choice.Some? ==>
            Ledger.UserTransactions(r.ledger, u) == Ledger.UserTransactions(s.ledger, u)
              + [Ledger.Transaction(s.ledger.nextId, u, env.now, t, p.value, cs.choice.value, p.description)])
  {
    var p := s.clarify[u];
    var cs := CategoryStep(s.ledger, u, p.description, env);
    var t := if Trim(Lower(body)) == RECEITA then Ledger.Income else Ledger.Expense;
    if cs.choice.Some? {
      Ledger.AddTransactionEffect(cs.ledger, u, t, p.value, cs.choice.value, p.description, env.now);
    }
  }

  /** Timer `id` is the one armed for its user's pending confirmation. */
  predicate OwnTimer(s: BotState, id: nat) {
    id in s.timers && s.timers[id] in s.confirm && s.confirm[s.timers[id]] == id
  }

  /** A timer sends the timeout notice exactly when it is the one armed for
      its user's pending confirmation, which it then clears; other pending
      state stays. */
  lemma TimeoutOnlyOwn(s: BotState, id: nat)
    ensures var r := Fire(s, id);
      && r.ledger == s.ledger && r.clarify == s.clarify && r.log == s.log
      && (OwnTimer(s, id) ==> r.confirm == s.confirm - {s.timers[id]} && r.outbox == s.outbox + [Outgoing(s.timers[id], TimedOut)])
      && (!OwnTimer(s, id) ==> r.confirm == s.confirm && r.outbox == s.outbox)
      && id !in r.timers
  {
  }

  /** A timer fires once: firing it again changes nothing. */
  lemma TimerFiresOnce(s: BotState, id: nat)
    ensures Fire(Fire(s, id), id) == Fire(s, id)
  {
  }

  /** As written, a timer left over from an earlier, answered delete request
      cancels a later one early. RequestDeclined shows how the leftover timer
      arises (the user asks, then answers "não"); here the user asks again,
      and the old timer, when it fires, cancels the new request and sends
      the timeout notice before that request's own 60 seconds are up. With
      the corrected timeout the new request stays pending until its own
      timer. */
  lemma StaleTimerCancelsNewerRequest(s: BotState, u: UserId, stale: nat, ask: string, env: Env, s1: BotState)
    requires Inv(s) && u !in s.clarify && u !in s.confirm && ask != []
    requires stale in s.timers && s.timers[stale] == u
    requires Classify(Analyze(env.intentReply)) == Immediate(DeleteAll)
    requires s1 == Step(s, Incoming(u, ask, false, env))
    ensures s1.confirm == s.confirm[u := s.nextTimer] && stale in s1.timers && stale != s.nextTimer
    ensures u !in FireAsWritten(s1, stale).confirm
    ensures FireAsWritten(s1, stale).outbox == s1.outbox + [Outgoing(u, TimedOut)]
    ensures Fire(s1, stale).confirm == s1.confirm && Fire(s1, stale).outbox == s1.outbox
  {
    DeleteRequestStep(s, u, ask, env);
    StaleFire(s1, u, stale);
  }

  /** A delete request answered with anything but "sim" leaves its timer behind. */
  lemma RequestDeclined(s: BotState, u: UserId, ask: string, no: string, env: Env, s1: BotState, s2: BotState)
    requires u !in s.clarify && u !in s.confirm
    requires ask != [] && no != []
    requires Classify(Analyze(env.intentReply)) == Immediate(DeleteAll)
    requires s1 == Step(s, Incoming(u, ask, false, env))
    requires s2 == Step(s1, Incoming(u, no, false, env))
    ensures s2.confirm == s.confirm && s2.clarify == s.clarify
    ensures s2.timers == s.timers[s.nextTimer := u] && s2.nextTimer == s.nextTimer + 1
  {
    DeleteRequestStep(s, u, ask, env);
    assert u in s1.confirm && u !in s1.clarify;
    DeclineStep(s1, u, no, env);
    AddThenRemove(s.confirm, u, s.nextTimer);
  }

  lemma AddThenRemove(m: map<UserId, nat>, u: UserId, n: nat)
    requires u !in m
    ensures m[u := n] - {u} == m
  {
  }

  lemma StaleFire(s: BotState, u: UserId, first: nat)
    requires first in s.timers && s.timers[first] == u && u in s.confirm && s.confirm[u] != first
    ensures u !in FireAsWritten(s, first).confirm
    ensures FireAsWritten(s, first).outbox == s.outbox + [Outgoing(u, TimedOut)]
    ensures Fire(s, first).confirm == s.confirm && Fire(s, first).outbox == s.outbox
  {
  }

  lemma DeleteRequestStep(s: BotState, u: UserId, ask: string, env: Env)
    requires u !in s.clarify && u !in s.confirm && ask != []
    requires Classify(Analyze(env.intentReply)) == Immediate(DeleteAll)
    ensures var r := Step(s, Incoming(u, ask, false, env));
      && r.confirm == s.confirm[u := s.nextTimer] && r.timers == s.timers[s.nextTimer := u]
      && r.nextTimer == s.nextTimer + 1 && r.clarify == s.clarify
  {
    DeleteAllParsed(s.ledger, u, env);
    DeleteRequestArmsTimer(s, u, ask, env);
    StepIsFresh(s, u, ask, env);
    FreshKeepsFreshState(s, u, ask, env);
  }

  lemma DeleteAllParsed(l: Ledger.LedgerState, u: UserId, env: Env)
    requires Classify(Analyze(env.intentReply)) == Immediate(DeleteAll)
    ensures Parse(l, u, env).2 == Some(DeleteAll)
  {
  }

  lemma StepIsFresh(s: BotState, u: UserId, body: string, env: Env)
    requires body != [] && u !in s.clarify && u !in s.confirm
    ensures Step(s, Incoming(u, body, false, env)) == Fresh(s, u, body, env)
  {
  }

  /** Fresh changes only the outbox and the log beyond what FreshState does. */
  lemma FreshKeepsFreshState(s: BotState, u: UserId, body: string, env: Env)
    ensures var r := Fresh(s, u, body, env);
      r.(outbox := s.outbox, log := s.log) == FreshState(s, u, body, env).0.(outbox := s.outbox, log := s.log)
  {
  }

  lemma DeclineStep(s: BotState, u: UserId, no: string, env: Env)
    requires u !in s.clarify && u in s.confirm && no != []
    ensures var r := Step(s, Incoming(u, no, false, env));
      r.confirm == s.confirm - {u} && r.timers == s.timers && r.nextTimer == s.nextTimer && r.clarify == s.clarify
  {
    assert Step(s, Incoming(u, no, false, env)) == Confirmation(s, u, no);
    ConfirmationOutcome(s, u, no);
  }

  const LIST_HEADER: string := "Últimas 10 transações:\n"
  const NO_TRANSACTIONS_TEXT: string := "Nenhuma transação por aqui."

  /** A transaction's line (date, type, amount and id are not rendered here). */
  function ListLine(tx: Ledger.Transaction): string {
    "- " + tx.category + " - " + tx.description + "\n"
  }

  function ListLines(txs: seq<Ledger.Transaction>): string {
    if txs == [] then [] else ListLines(txs[..|txs| - 1]) + ListLine(txs[|txs| - 1])
  }

  /** `text || "Nenhuma transação por aqui."`. */
  function OrFallback(text: string, fallback: string): string {
    if text != [] then text else fallback
  }

  /** The list_transactions text as written: the header and one line per
      transaction, with the fallback for an empty text. */
  function ListTextAsWritten(txs: seq<Ledger.Transaction>): string {
    OrFallback(LIST_HEADER + ListLines(txs), NO_TRANSACTIONS_TEXT)
  }

  /** As written, the text always starts with the header, so the "no
      transactions" notice is never sent: with no transactions the user gets
      the bare header. The corrected reply gives the notice exactly then. */
  lemma NoTransactionsNoticeUnreachable(txs: seq<Ledger.Transaction>)
    ensures ListTextAsWritten(txs) == LIST_HEADER + ListLines(txs)
    ensures ListTextAsWritten([]) == LIST_HEADER
    ensures ListTextAsWritten(txs) != NO_TRANSACTIONS_TEXT
    ensures ListReply([]) == NoTransactions
  {
    assert LIST_HEADER[0] == 'Ú';
    assert NO_TRANSACTIONS_TEXT[0] == 'N';
    assert ListTextAsWritten(txs)[0] == 'Ú';
  }
}
