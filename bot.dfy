/**
 * The message handler as an object: the two waiting maps, the outstanding
 * timeouts, the messages sent and the log are fields updated in place, and
 * the database is a Store. Each handler is specified by a Conversation
 * function: OnMessage and OnTimer by Step, HandleCommand by Fresh, Answer by
 * FreshState, ParseMessage by Parse, HandleClarification by Clarification,
 * HandleConfirmation by Confirmation, ChooseCategoryFor by CategoryStep,
 * Query and UpdateRecord by Execute, Respond by Deliver, and the rest by the
 * function of the same name.
 */
module Handler {
  import opened Wrappers
  import opened Text
  import opened Intent
  import opened Category
  import opened Commands
  import opened Conversation
  import Ledger
  import Reports
  import Storage

  class Bot {
    const store: Storage.Store
    var clarify: map<UserId, Pending>
    var confirm: map<UserId, nat>
    var timers: map<nat, UserId>
    var nextTimer: nat
    var outbox: seq<Outgoing>
    var log: seq<LogEntry>

    function State(): BotState
      reads this, store
    {
      BotState(store.State(), clarify, confirm, timers, nextTimer, outbox, log)
    }

    constructor ()
      ensures State() == INITIAL
    {
      store := new Storage.Store();
      clarify := map[];
      confirm := map[];
      timers := map[];
      nextTimer := 0;
      outbox := [];
      log := [];
    }

    /** The category step of the add flows. */
    method ChooseCategoryFor(u: UserId, description: string, env: Env) returns (prompt: seq<Reply>, choice: Option<string>)
      modifies store
      ensures CategoryOutcome(store.State(), prompt, choice) == CategoryStep(old(store.State()), u, description, env)
    {
      var categories := store.GetCategories(u);
      var answer := MatchCategory(env.categoryReply, categories);
      prompt := match AskedSuggestion(answer) case None => [] case Some(sg) => [Suggest(description, sg)];
      choice := ChooseCategory(answer, env.approval);
      if answer.Suggested? && choice.Some? {
        store.AddCategory(u, choice.value);
      }
    }

    method PostExpense(u: UserId, amount: real, category: string, description: string, env: Env) returns (reply: Reply)
      requires u in store.users
      modifies store
      ensures (store.State(), reply) == Conversation.PostExpense(old(store.State()), u, amount, category, description, env)
    {
      var id := store.AddTransaction(u, Ledger.Expense, amount, category, description, env.now);
      var user := store.GetUser(u);
      var total := store.TotalExpensesThisMonth(u, env.window);
      var reminder := NoReminder;
      if user.reminderMode {
        var balance := store.GetBalance(u);
        reminder := ReminderOf(true, balance);
      }
      reply := ExpenseAdded(amount, category, description, id, LimitNoteOf(user.spendingLimit, total), reminder);
    }

    method PostIncome(u: UserId, amount: real, category: string, description: string, env: Env) returns (reply: Reply)
      modifies store
      ensures (store.State(), reply) == Conversation.PostIncome(old(store.State()), u, amount, category, description, env)
    {
      var id := store.AddTransaction(u, Ledger.Income, amount, category, description, env.now);
      reply := IncomeAdded(amount, category, description, id);
    }

    /** The answer to "receita ou despesa". */
    method HandleClarification(u: UserId, body: string, env: Env)
      requires u in clarify
      modifies this, store
      ensures State() == Clarification(old(State()), u, body, env)
    {
      var response := Trim(Lower(body));
      if response == RECEITA || response == DESPESA {
        Settle(u, clarify[u], if response == RECEITA then Ledger.Income else Ledger.Expense, env);
      } else {
        outbox := outbox + [Outgoing(u, AskIncomeOrExpense)];
      }
    }

    method Settle(u: UserId, p: Pending, t: Ledger.TxType, env: Env)
      modifies this, store
      ensures State() == Conversation.Settle(old(State()), u, p, t, env)
    {
      var prompt, choice := ChooseCategoryFor(u, p.description, env);
      if choice.None? {
        outbox := outbox + Send(u, prompt + [CategoryNotAdded]);
      } else {
        var reply;
        if t == Ledger.Income {
          reply := PostIncome(u, p.value, choice.value, p.description, env);
        } else {
          reply := PostExpense(u, p.value, choice.value, p.description, env);
        }
        outbox := outbox + Send(u, prompt + [reply]);
      }
      clarify := clarify - {u};
    }

    /** The answer to the delete confirmation. */
    method HandleConfirmation(u: UserId, body: string)
      requires u in confirm
      modifies this, store
      ensures State() == Confirmation(old(State()), u, body)
    {
      confirm := confirm - {u};
      if Trim(Lower(body)) == YES {
        store.DeleteAllTransactions(u);
        outbox := outbox + [Outgoing(u, AllDeleted)];
      } else {
        outbox := outbox + [Outgoing(u, Cancelled)];
      }
    }

    /** Runs a command; the reply is returned for the caller to send and log. */
    method Execute(u: UserId, cmd: Command, env: Env) returns (reply: Reply)
      requires u in store.users && !cmd.Unknown?
      modifies this, store
      ensures (State(), reply) == Conversation.Execute(old(State()), u, cmd, env)
    {
      if cmd.AddExpense? {
        reply := PostExpense(u, cmd.amount, cmd.category, cmd.description, env);
      } else if cmd.AddIncome? {
        reply := PostIncome(u, cmd.amount, cmd.category, cmd.description, env);
      } else if cmd.DeleteAll? {
        confirm := confirm[u := nextTimer];
        timers := timers[nextTimer := u];
        nextTimer := nextTimer + 1;
        reply := ConfirmDelete;
      } else if cmd.Clarify? {
        clarify := clarify[u := Pending(cmd.description, cmd.value)];
        reply := AskClarification;
      } else if cmd.Report? || cmd.Help? || cmd.ShowBalance? || cmd.ListTransactions? || cmd.ListCategories? {
        reply := Query(u, cmd, env);
      } else {
        reply := UpdateRecord(u, cmd, env);
      }
    }

    /** The commands that only read the ledger. */
    method Query(u: UserId, cmd: Command, env: Env) returns (reply: Reply)
      requires u in store.users
      requires cmd.Report? || cmd.Help? || cmd.ShowBalance? || cmd.ListTransactions? || cmd.ListCategories?
      ensures (State(), reply) == Conversation.Execute(State(), u, cmd, env)
    {
      match cmd
      case Report =>
        var report := store.MonthlyReport(u, env.window);
        reply := ReportReply(report);
      case Help =>
        reply := HelpText;
      case ShowBalance =>
        var balance := store.GetBalance(u);
        reply := BalanceIs(balance);
      case ListTransactions =>
        var txs := store.LastTransactions(u, LIST_LIMIT);
        reply := ListReply(txs);
      case ListCategories =>
        var categories := store.users[u].categories;
        reply := if |categories| > 0 then CategoryList(categories) else NoCategories;
    }

    /** The commands that change the user's record. */
    method UpdateRecord(u: UserId, cmd: Command, env: Env) returns (reply: Reply)
      requires u in store.users
      requires cmd.SetBalance? || cmd.SetLimit? || cmd.AddCategory? || cmd.ActivateReminder? || cmd.DeactivateReminder?
      modifies store
      ensures (State(), reply) == Conversation.Execute(old(State()), u, cmd, env)
    {
      match cmd
      case SetBalance(v) =>
        store.SetBalance(u, v);
        reply := BalanceSet(v);
      case SetLimit(v) =>
        store.SetSpendingLimit(u, v);
        reply := LimitSet(v);
      case AddCategory(n) =>
        if n in store.users[u].categories {
          reply := CategoryExists;
        } else {
          store.AddCategory(u, n);
          reply := CategoryAdded(n);
        }
      case ActivateReminder =>
        store.SetReminderMode(u, true);
        reply := ReminderOn;
      case DeactivateReminder =>
        store.SetReminderMode(u, false);
        reply := ReminderOff;
    }

    /** parseCommand: the analysis and, for the add flows, the category step. */
    method ParseMessage(u: UserId, env: Env) returns (prompt: seq<Reply>, cmd: Option<Command>)
      modifies store
      ensures (store.State(), prompt, cmd) == Parse(old(store.State()), u, env)
    {
      var k := Classify(Analyze(env.intentReply));
      prompt := [];
      var choice: Option<string> := None;
      if k.NeedsCategory? {
        prompt, choice := ChooseCategoryFor(u, k.description, env);
      }
      cmd := Resolve(k, choice);
    }

    /** parseCommand and then the command, or the greeting or fallback. */
    method Answer(u: UserId, body: string, env: Env) returns (prompt: seq<Reply>, reply: Reply)
      modifies this, store
      ensures (State(), reply) == FreshState(old(State()), u, body, env)
      ensures prompt == Parse(old(store.State()), u, env).1
    {
      var cmd;
      prompt, cmd := ParseMessage(u, env);
      if cmd.Some? && !cmd.value.Unknown? {
        var _ := store.GetUser(u);
        reply := Execute(u, cmd.value, env);
      } else if Trim(Lower(body)) in GREETINGS {
        reply := Greeting;
      } else {
        reply := NotUnderstood;
      }
    }

    /** parseCommand, then the command, the reply and the log entry. */
    method HandleCommand(u: UserId, body: string, env: Env)
      modifies this, store
      ensures State() == Fresh(old(State()), u, body, env)
    {
      ghost var s0 := State();
      var prompt, reply := Answer(u, body, env);
      ghost var s1 := State();
      FreshFromState(s0, u, body, env, s1, reply, prompt);
      Respond(u, body, env, prompt, reply);
    }

    /** Sends the prompts and the reply, and logs the message. */
    method Respond(u: UserId, body: string, env: Env, prompt: seq<Reply>, reply: Reply)
      modifies this
      ensures State() == Deliver(old(State()), u, body, env, prompt, reply)
    {
      outbox := outbox + Send(u, prompt + [reply]);
      log := log + [LogEntry(u, env.now, body, reply)];
    }

    /** The 'message' event. */
    method OnMessage(u: UserId, body: string, fromMe: bool, env: Env)
      modifies this, store
      ensures State() == Step(old(State()), Incoming(u, body, fromMe, env))
    {
      if body == [] || fromMe {
        return;
      }
      if u in clarify {
        HandleClarification(u, body, env);
      } else if u in confirm {
        HandleConfirmation(u, body);
      } else {
        HandleCommand(u, body, env);
      }
    }

    /** The delete-confirmation timeout `id` going off. */
    method OnTimer(id: nat)
      modifies this
      ensures State() == Step(old(State()), TimerFired(id))
    {
      if id in timers {
        var u := timers[id];
        timers := timers - {id};
        if u in confirm && confirm[u] == id {
          confirm := confirm - {u};
          outbox := outbox + [Outgoing(u, TimedOut)];
        }
      }
    }
  }
}
