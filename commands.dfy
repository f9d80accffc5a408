/**
 * parseCommand: from the analysed message to a command, with the category
 * step of the add flows (the model's category answer and the user's
 * approval of a suggested new category are inputs).
 */
module Commands {
  import opened Wrappers
  import opened Text
  import opened Intent
  import opened Category
  import Ledger

  const ADD_EXPENSE: string := "adicionar uma despesa"
  const ADD_INCOME: string := "adicionar uma receita"
  const SET_BALANCE: string := "definir o saldo"
  const SET_LIMIT: string := "definir o limite de gastos"
  const REPORT: string := "gerar um relatório"
  const HELP: string := "pedir ajuda"
  const SHOW_BALANCE: string := "ver saldo"
  const LIST_TRANSACTIONS: string := "listar transações"
  const DELETE_ALL: string := "apagar todas as transações"
  const ADD_CATEGORY: string := "adicionar uma categoria"
  const LIST_CATEGORIES: string := "listar categorias"
  const ACTIVATE_REMINDER: string := "ativar modo lembrete"
  const DEACTIVATE_REMINDER: string := "desativar modo lembrete"

  /** The words that make an income or expense description ambiguous. */
  const AMBIGUOUS_WORDS: seq<string> := ["transferência"]

  /** The reply waitForUserResponse gives when the user does not answer in time. */
  const TIMEOUT: string := "timeout"

  const YES: string := "sim"

  datatype Command =
    | AddExpense(amount: real, description: string, category: string)
    | AddIncome(amount: real, description: string, category: string)
    | SetBalance(amount: real)
    | SetLimit(amount: real)
    | Report
    | Help
    | ShowBalance
    | ListTransactions
    | DeleteAll
    | AddCategory(name: string)
    | ListCategories
    | ActivateReminder
    | DeactivateReminder
    | Clarify(description: string, value: real)
    | Unknown

  /** JavaScript truthiness of the value slot: absent, NaN and 0 are falsy. */
  predicate TruthyValue(v: Option<real>) {
    v.Some? && v.value != 0.0
  }

  /** Truthiness of a text slot: absent and "" are falsy. */
  predicate TruthyText(s: Option<string>) {
    s.Some? && s.value != []
  }

  /** `ambiguousWords.some(word => description.toLowerCase().includes(word))`. */
  predicate IsAmbiguous(description: string) {
    exists k :: 0 <= k < |AMBIGUOUS_WORDS| && Contains(Lower(description), AMBIGUOUS_WORDS[k])
  }

  /** What parseCommand decides before it asks for a category. */
  datatype Classified =
    | NoCommand
    | Immediate(command: Command)
    | NeedsCategory(txType: Ledger.TxType, amount: real, description: string)

  predicate IsAddIntent(intent: string) {
    intent == ADD_EXPENSE || intent == ADD_INCOME
  }

  /** The checks of the add flows: both slots truthy, then the ambiguity test. */
  function ClassifyAdd(txType: Ledger.TxType, a: Analysis): (r: Classified)
    ensures r.NoCommand? <==> !TruthyText(a.description) || !TruthyValue(a.value)
    ensures r.Immediate? ==> r.command == Clarify(a.description.value, a.value.value) && IsAmbiguous(a.description.value)
    ensures r.NeedsCategory? ==> r == NeedsCategory(txType, a.value.value, a.description.value) && !IsAmbiguous(a.description.value)
  {
    if !TruthyText(a.description) || !TruthyValue(a.value) then NoCommand
    else if IsAmbiguous(a.description.value) then Immediate(Clarify(a.description.value, a.value.value))
    else NeedsCategory(txType, a.value.value, a.description.value)
  }

  /** The if-chain on the intent. A null command comes only from a missing
      or falsy slot, and a category is needed only by an unambiguous add. */
  function Classify(a: Analysis): (r: Classified)
    ensures r.NoCommand? <==>
      || (IsAddIntent(a.intent) && (!TruthyText(a.description) || !TruthyValue(a.value)))
      || ((a.intent == SET_BALANCE || a.intent == SET_LIMIT) && !TruthyValue(a.value))
      || (a.intent == ADD_CATEGORY && !TruthyText(a.name))
    ensures r.NeedsCategory? ==>
      && IsAddIntent(a.intent) && (r.txType == Ledger.Expense <==> a.intent == ADD_EXPENSE)
      && a.description == Some(r.description) && a.value == Some(r.amount)
      && r.description != [] && r.amount != 0.0 && !IsAmbiguous(r.description)
    ensures r.Immediate? ==> !r.command.AddExpense? && !r.command.AddIncome?
    ensures r.Immediate? && !r.command.Unknown? && !r.command.Clarify? ==> a.intent == Phrase(r.command)
    ensures r.Immediate? && r.command.Clarify? ==> IsAddIntent(a.intent)
  {
    if a.intent == ADD_EXPENSE then ClassifyAdd(Ledger.Expense, a)
    else if a.intent == ADD_INCOME then ClassifyAdd(Ledger.Income, a)
    else if a.intent == SET_BALANCE then (if TruthyValue(a.value) then Immediate(SetBalance(a.value.value)) else NoCommand)
    else if a.intent == SET_LIMIT then (if TruthyValue(a.value) then Immediate(SetLimit(a.value.value)) else NoCommand)
    else if a.intent == REPORT then Immediate(Report)
    else if a.intent == HELP then Immediate(Help)
    else if a.intent == SHOW_BALANCE then Immediate(ShowBalance)
    else if a.intent == LIST_TRANSACTIONS then Immediate(ListTransactions)
    else if a.intent == DELETE_ALL then Immediate(DeleteAll)
    else if a.intent == ADD_CATEGORY then (if TruthyText(a.name) then Immediate(AddCategory(a.name.value)) else NoCommand)
    else if a.intent == LIST_CATEGORIES then Immediate(ListCategories)
    else if a.intent == ACTIVATE_REMINDER then Immediate(ActivateReminder)
    else if a.intent == DEACTIVATE_REMINDER then Immediate(DeactivateReminder)
    else Immediate(Unknown)
  }

  /** `response.toLowerCase() === 'sim'` (no trimming here). */
  predicate Approves(reply: string) {
    Lower(reply) == YES
  }

  /** The suggestion the user is asked to approve, if any. Every suggestion
      is asked about, the empty one included. */
  function AskedSuggestion(answer: CategoryAnswer): Option<string> {
    match answer
    case Known(_) => None
    case Suggested(s) => Some(s)
  }

  /** The category the command carries: a known one as given, a suggestion
      only when approved; a declined or timed-out question gives no command. */
  function ChooseCategory(answer: CategoryAnswer, approval: string): (r: Option<string>)
    ensures answer.Known? ==> r == Some(answer.name)
    ensures answer.Suggested? ==> (r.Some? <==> Approves(approval))
    ensures r.Some? ==> r.value == (if answer.Known? then answer.name else answer.suggested)
  {
    match answer
    case Known(n) => Some(n)
    case Suggested(s) => if Approves(approval) then Some(s) else None
  }

  /** The command of an add flow once its category is known. */
  function Complete(txType: Ledger.TxType, amount: real, description: string, category: string): Command {
    if txType == Ledger.Expense then AddExpense(amount, description, category)
    else AddIncome(amount, description, category)
  }

  /** The command, once the category step (consulted by the add flows
      only) has chosen `choice`. */
  function Resolve(k: Classified, choice: Option<string>): Option<Command> {
    match k
    case NoCommand => None
    case Immediate(c) => Some(c)
    case NeedsCategory(t, v, d) => if choice.None? then None else Some(Complete(t, v, d, choice.value))
  }

  /** parseCommand, given the analysis, the user's categories, the model's
      category answer and the reply to the approval question. */
  function ParseCommand(a: Analysis, categories: seq<string>, categoryReply: string, approval: string): (r: Option<Command>)
    ensures r.None? ==> IsAddIntent(a.intent) || a.intent == SET_BALANCE || a.intent == SET_LIMIT || a.intent == ADD_CATEGORY
    ensures r.Some? && (r.value.AddExpense? || r.value.AddIncome?) ==>
      && (r.value.AddExpense? <==> a.intent == ADD_EXPENSE) && IsAddIntent(a.intent)
      && a.description == Some(r.value.description) && a.value == Some(r.value.amount)
      && !IsAmbiguous(r.value.description)
      && ChooseCategory(MatchCategory(categoryReply, categories), approval) == Some(r.value.category)
  {
    var k := Classify(a);
    var choice := ChooseCategory(MatchCategory(categoryReply, categories), approval);
    ResolveShape(k, choice);
    Resolve(k, choice)
  }

  /** No command comes from NoCommand or from a category step that chose
      none; an add command only from NeedsCategory, with the chosen category. */
  lemma ResolveShape(k: Classified, choice: Option<string>)
    ensures Resolve(k, choice).None? ==> k.NoCommand? || (k.NeedsCategory? && choice.None?)
    ensures var r := Resolve(k, choice); r.Some? && (r.value.AddExpense? || r.value.AddIncome?) ==>
      (k.Immediate? && k.command == r.value) || (k.NeedsCategory? && choice.Some? && r.value == Complete(k.txType, k.amount, k.description, choice.value))
    ensures var r := Resolve(k, choice); r.Some? && r.value.AddExpense? && k.NeedsCategory? ==> k.txType == Ledger.Expense
  {
  }

  /** A timed-out question is a refusal. */
  lemma TimeoutDeclines()
    ensures !Approves(TIMEOUT)
  {
    assert Lower(TIMEOUT)[1] == 'i';
  }

  /** The add flows need a truthy description and a truthy value. */
  lemma AddNeedsSlots(a: Analysis, categories: seq<string>, categoryReply: string, approval: string)
    requires IsAddIntent(a.intent)
    requires !TruthyText(a.description) || !TruthyValue(a.value)
    ensures ParseCommand(a, categories, categoryReply, approval) == None
  {
  }

  /** An ambiguous description asks for clarification, whatever the model
      and the user would have answered about the category. */
  lemma AmbiguousAsksClarification(a: Analysis, categories: seq<string>, categoryReply: string, approval: string)
    requires IsAddIntent(a.intent) && TruthyText(a.description) && TruthyValue(a.value)
    requires IsAmbiguous(a.description.value)
    ensures ParseCommand(a, categories, categoryReply, approval) == Some(Clarify(a.description.value, a.value.value))
  {
  }

  /** "transferência" anywhere in the description, in any case the lower-casing
      undoes, makes it ambiguous. */
  lemma TransferIsAmbiguous(before: string, word: string, after: string)
    requires Lower(word) == AMBIGUOUS_WORDS[0]
    ensures IsAmbiguous(before + word + after)
  {
    LowerConcat(before, word);
    LowerConcat(before + word, after);
    var s := Lower(before) + AMBIGUOUS_WORDS[0] + Lower(after);
    assert Lower(before + word + after) == s;
    assert OccursAt(s, AMBIGUOUS_WORDS[0], |Lower(before)|) by {
      assert s[|Lower(before)|..|Lower(before)| + |AMBIGUOUS_WORDS[0]|] == AMBIGUOUS_WORDS[0];
    }
    ContainsAt(s, AMBIGUOUS_WORDS[0], |Lower(before)|);
  }

  /** An unambiguous add with both slots is completed with the category the
      category step chooses, or dropped when it chooses none. */
  lemma AddUsesChosenCategory(a: Analysis, categories: seq<string>, categoryReply: string, approval: string)
    requires IsAddIntent(a.intent) && TruthyText(a.description) && TruthyValue(a.value)
    requires !IsAmbiguous(a.description.value)
    ensures var choice := ChooseCategory(MatchCategory(categoryReply, categories), approval);
      ParseCommand(a, categories, categoryReply, approval)
        == if choice.None? then None
           else if a.intent == ADD_EXPENSE then Some(AddExpense(a.value.value, a.description.value, choice.value))
           else Some(AddIncome(a.value.value, a.description.value, choice.value))
  {
  }

  /** An add command carries a category the user has (in lower case) or the
      suggestion the user approved, which is then new. */
  lemma AddCategoryIsKnownOrApproved(a: Analysis, categories: seq<string>, categoryReply: string, approval: string)
    requires IsAddIntent(a.intent)
    requires var r := ParseCommand(a, categories, categoryReply, approval); r.Some? && (r.value.AddExpense? || r.value.AddIncome?)
    ensures var c := ParseCommand(a, categories, categoryReply, approval).value.category;
      (exists i :: 0 <= i < |categories| && Lower(categories[i]) == c)
      || (Approves(approval) && MatchCategory(categoryReply, categories) == Suggested(c) && c !in categories)
  {
    var answer := MatchCategory(categoryReply, categories);
    if answer.Suggested? {
      SuggestionIsNew(categoryReply, categories);
    }
  }

  /** The intent phrase that produces each command (the two add phrases for Clarify). */
  function Phrase(c: Command): string
    requires !c.Unknown?
  {
    match c
    case AddExpense(_, _, _) => ADD_EXPENSE
    case AddIncome(_, _, _) => ADD_INCOME
    case SetBalance(_) => SET_BALANCE
    case SetLimit(_) => SET_LIMIT
    case Report => REPORT
    case Help => HELP
    case ShowBalance => SHOW_BALANCE
    case ListTransactions => LIST_TRANSACTIONS
    case DeleteAll => DELETE_ALL
    case AddCategory(_) => ADD_CATEGORY
    case ListCategories => LIST_CATEGORIES
    case ActivateReminder => ACTIVATE_REMINDER
    case DeactivateReminder => DEACTIVATE_REMINDER
    case Clarify(_, _) => ADD_EXPENSE
  }

  /** The intents parseCommand recognises. */
  predicate IsPhrase(intent: string) {
    || intent == ADD_EXPENSE || intent == ADD_INCOME || intent == SET_BALANCE || intent == SET_LIMIT
    || intent == REPORT || intent == HELP || intent == SHOW_BALANCE || intent == LIST_TRANSACTIONS
    || intent == DELETE_ALL || intent == ADD_CATEGORY || intent == LIST_CATEGORIES
    || intent == ACTIVATE_REMINDER || intent == DEACTIVATE_REMINDER
  }

  /** Any other intent, "incerto" included, is the unknown command. */
  lemma OtherIntentIsUnknown(a: Analysis, categories: seq<string>, categoryReply: string, approval: string)
    requires !IsPhrase(a.intent)
    ensures ParseCommand(a, categories, categoryReply, approval) == Some(Unknown)
  {
  }

  /** A command other than Unknown comes only from its own phrase (Clarify
      from either add phrase). */
  lemma CommandFromItsPhrase(a: Analysis, categories: seq<string>, categoryReply: string, approval: string)
    requires var r := ParseCommand(a, categories, categoryReply, approval); r.Some? && !r.value.Unknown?
    ensures var c := ParseCommand(a, categories, categoryReply, approval).value;
      if c.Clarify? then IsAddIntent(a.intent) else a.intent == Phrase(c)
  {
    ResolvedFromPhrase(a, ChooseCategory(MatchCategory(categoryReply, categories), approval));
  }

  lemma ResolvedFromPhrase(a: Analysis, choice: Option<string>)
    requires var r := Resolve(Classify(a), choice); r.Some? && !r.value.Unknown?
    ensures var c := Resolve(Classify(a), choice).value;
      if c.Clarify? then IsAddIntent(a.intent) else a.intent == Phrase(c)
  {
    if !IsAddIntent(a.intent) {
      ClassifyOther(a);
    }
  }

  /** Off the add intents the classification reads the intent alone. */
  lemma ClassifyOther(a: Analysis)
    requires !IsAddIntent(a.intent)
    ensures Classify(a).Immediate? && !Classify(a).command.Unknown? ==>
      !Classify(a).command.Clarify? && !Classify(a).command.AddExpense? && !Classify(a).command.AddIncome?
      && a.intent == Phrase(Classify(a).command)
    ensures !Classify(a).NeedsCategory?
  {
  }

  /** The analysis the model would report for a command. */
  function AnalysisFor(c: Command): Analysis
    requires !c.Unknown? && !c.Clarify? && !c.AddExpense? && !c.AddIncome?
  {
    match c
    case SetBalance(v) => Analysis(Phrase(c), None, Some(v), None)
    case SetLimit(v) => Analysis(Phrase(c), None, Some(v), None)
    case AddCategory(n) => Analysis(Phrase(c), None, None, Some(n))
    case _ => Analysis(Phrase(c), None, None, None)
  }

  /** Reporting a command's phrase with its slot gives that command back,
      provided the slot is truthy (a zero amount or an empty name gives none). */
  lemma ParseAnalysisFor(c: Command, categories: seq<string>, categoryReply: string, approval: string)
    requires !c.Unknown? && !c.Clarify? && !c.AddExpense? && !c.AddIncome?
    requires (c.SetBalance? || c.SetLimit?) ==> c.amount != 0.0
    requires c.AddCategory? ==> c.name != []
    ensures ParseCommand(AnalysisFor(c), categories, categoryReply, approval) == Some(c)
  {
    ClassifyAnalysisFor(c);
  }

  lemma ClassifyAnalysisFor(c: Command)
    requires !c.Unknown? && !c.Clarify? && !c.AddExpense? && !c.AddIncome?
    requires (c.SetBalance? || c.SetLimit?) ==> c.amount != 0.0
    requires c.AddCategory? ==> c.name != []
    ensures Classify(AnalysisFor(c)) == Immediate(c)
  {
  }

  /** A zero amount for the balance or the limit gives no command. */
  lemma ZeroAmountIgnored(a: Analysis, categories: seq<string>, categoryReply: string, approval: string)
    requires a.intent == SET_BALANCE || a.intent == SET_LIMIT
    requires a.value == Some(0.0) || a.value == None
    ensures ParseCommand(a, categories, categoryReply, approval) == None
  {
  }

  /** As written: `typeof category === 'object' && category.suggested` lets
      the empty suggestion through unasked, and the `{ suggested }` object
      itself becomes the category (Suggested here stands for that object). */
  function ChooseCategoryAsWritten(answer: CategoryAnswer, approval: string): (r: Option<CategoryAnswer>)
    ensures answer.Known? ==> r == Some(answer)
  {
    match answer
    case Known(_) => Some(answer)
    case Suggested(s) =>
      if s != [] then (if Approves(approval) then Some(Known(s)) else None)
      else Some(answer)
  }

  /** The empty suggestion (what an empty model answer becomes) is stored
      as an object, without the user being asked, whatever the user says;
      the corrected step asks and keeps it only on approval. */
  lemma EmptySuggestionSkipsApproval(categories: seq<string>, approval: string)
    requires forall i :: 0 <= i < |categories| ==> categories[i] != []
    ensures MatchCategory("", categories) == Suggested("")
    ensures ChooseCategoryAsWritten(MatchCategory("", categories), approval) == Some(Suggested(""))
    ensures AskedSuggestion(MatchCategory("", categories)) == Some("")
    ensures ChooseCategory(MatchCategory("", categories), approval).Some? <==> Approves(approval)
  {
    EmptyAnswerIsEmptySuggestion(categories);
  }

  /** Off the empty suggestion, the corrected step agrees with the code as written. */
  lemma ChooseCategoryAgrees(answer: CategoryAnswer, approval: string)
    requires answer.Suggested? ==> answer.suggested != []
    ensures match ChooseCategory(answer, approval)
      case None => ChooseCategoryAsWritten(answer, approval) == None
      case Some(c) => ChooseCategoryAsWritten(answer, approval) == Some(Known(c))
  {
  }
}
