/** The budget conversation of one chat: a two-state form that either
    shows the month's budget status or collects a new budget amount and
    writes it to the budget store.

    The conversation framework remembers the state each handler returns and
    routes the next message of the chat to the handler registered for that
    state; here the object keeps that state in `state` and each handler is a
    method that returns the next state and also records it.  The session
    dictionary (`user_data`) and the budget store (keyed by chat and period)
    are fields the handlers update in place; the model assumes no other
    chat or conversation writes the session dictionary meanwhile.  The current month, the month's
    transactions and the currency validator and parser are supplied from
    outside, since they come from the clock, the database and a module that
    is not part of this model. */
module BudgetConversation {
  import opened BudgetEngine

  type ChatId = int

  /** A year-month text such as "2024-05". */
  type Period = string

  /** `CHOOSE_ACTION` (0) and `GET_BUDGET_AMOUNT` (1), plus the framework's
      terminal state, which is also where a chat rests between
      conversations. */
  datatype State = ChooseAction | GetBudgetAmount | End

  /** The session key under which the period being budgeted is kept. */
  const BudgetPeriodKey: string := "budget_period"

  const SetBudgetChoice: string := "Set Budget"
  const ViewBudgetChoice: string := "View Budget"

  /** What `view_budget` shows: either that no budget is set for the month,
      or the budget with its status. */
  datatype View =
    | NoBudget(period: Period)
    | Report(period: Period, budget: int, status: Status)

  /** The message each handler sends, as a tag with the values it shows. */
  datatype Reply =
    | AskSetOrView                          // keyboard "Set Budget" / "View Budget"
    | InvalidOption                         // unrecognised menu choice
    | AskAmount(period: Period)             // "What is your budget for ...?"
    | PromptedAskAmount(period: Period)     // the same, edited into the monthly prompt
    | InvalidAmount                         // amount text failed the validator
    | BudgetSaved(period: Period, amount: int)
    | ShowBudget(view: View)
    | Cancelled

  /** The budget of `chat` for `period` as the store holds it, and its
      status over that month's transactions. */
  function ViewBudget(store: map<(ChatId, Period), int>, chat: ChatId, period: Period,
                      monthTxs: seq<Transaction>): (v: View)
    ensures v.NoBudget? <==> (chat, period) !in store
    ensures v.period == period
    ensures v.Report? ==>
      && v.budget == store[(chat, period)]
      && v.status.spent == Total(Expenses(monthTxs))
      && v.status.remaining == v.budget - v.status.spent
      && v.status == ComputeStatus(v.budget, monthTxs)
  {
    if (chat, period) in store then
      var budget := store[(chat, period)];
      Report(period, budget, ComputeStatus(budget, monthTxs))
    else
      NoBudget(period)
  }

  class Conversation {
    const chat: ChatId
    /** The currency validator, and the conversion applied to text it
        accepts (the amount in cents). */
    const isValidCurrency: string -> bool
    const parseAmount: string -> int

    var state: State
    var session: map<string, string>
    var store: map<(ChatId, Period), int>

    /** Whenever the conversation waits for an amount, the session names the
        period the amount is for (as long as only this conversation writes
        the session). */
    ghost predicate Valid()
      reads this
    {
      state == GetBudgetAmount ==> BudgetPeriodKey in session
    }

    /** A chat not yet inside the budget conversation, with whatever its
        session and the store already hold. */
    constructor (chat: ChatId, isValidCurrency: string -> bool, parseAmount: string -> int,
                 session: map<string, string>, store: map<(ChatId, Period), int>)
      ensures Valid()
      ensures this.chat == chat && this.isValidCurrency == isValidCurrency && this.parseAmount == parseAmount
      ensures this.state == End && this.session == session && this.store == store
    {
      this.chat := chat;
      this.isValidCurrency := isValidCurrency;
      this.parseAmount := parseAmount;
      this.state := End;
      this.session := session;
      this.store := store;
    }

    /** `/budget`: offer the two choices and wait for one. */
    method Start() returns (next: State, reply: Reply)
      modifies this`state
      ensures Valid()
      ensures next == ChooseAction && state == next
      ensures reply == AskSetOrView
    {
      next, reply := ChooseAction, AskSetOrView;
      state := next;
    }

    /** A message in `CHOOSE_ACTION`: "Set Budget" seeds the period and asks
        for the amount; "View Budget" shows the status and ends; anything
        else is refused and the choice is asked again.  Only "Set Budget"
        touches the session, and nothing touches the store. */
    method HandleChoice(text: string, month: Period, monthTxs: seq<Transaction>)
      returns (next: State, reply: Reply)
      requires Valid() && state == ChooseAction
      modifies this`state, this`session
      ensures Valid() && state == next
      ensures text == SetBudgetChoice ==>
        next == GetBudgetAmount && session == old(session)[BudgetPeriodKey := month]
        && reply == AskAmount(month)
      ensures text == ViewBudgetChoice ==>
        next == End && session == old(session)
        && reply == ShowBudget(ViewBudget(store, chat, month, monthTxs))
      ensures text != SetBudgetChoice && text != ViewBudgetChoice ==>
        next == ChooseAction && session == old(session) && reply == InvalidOption
    {
      if text == SetBudgetChoice {
        next, reply := SetBudgetStart(month);
      } else if text == ViewBudgetChoice {
        reply := ShowBudget(ViewBudget(store, chat, month, monthTxs));
        next := End;
        state := next;
      } else {
        next, reply := ChooseAction, InvalidOption;
        state := next;
      }
    }

    /** Record the current month as the period being budgeted and ask for
        the amount; any earlier period in the session is overwritten. */
    method SetBudgetStart(month: Period) returns (next: State, reply: Reply)
      modifies this`state, this`session
      ensures Valid()
      ensures next == GetBudgetAmount && state == next
      ensures session == old(session)[BudgetPeriodKey := month]
      ensures session[BudgetPeriodKey] == month
      ensures reply == AskAmount(month)
    {
      session := session[BudgetPeriodKey := month];
      next, reply := GetBudgetAmount, AskAmount(month);
      state := next;
    }

    /** The button of the monthly reminder: the same effect as choosing
        "Set Budget", reached without the menu. */
    method PromptSetBudget(month: Period) returns (next: State, reply: Reply)
      modifies this`state, this`session
      ensures Valid()
      ensures next == GetBudgetAmount && state == next
      ensures session == old(session)[BudgetPeriodKey := month]
      ensures session[BudgetPeriodKey] == month
      ensures reply == PromptedAskAmount(month)
    {
      session := session[BudgetPeriodKey := month];
      next, reply := GetBudgetAmount, PromptedAskAmount(month);
      state := next;
    }

    /** A message in `GET_BUDGET_AMOUNT`.  Text the validator refuses changes
        nothing and the amount is asked again.  Accepted text is stored as
        the budget of this chat for the session's period (replacing any
        earlier amount for that period, leaving every other entry alone),
        the whole session is cleared and the conversation ends. */
    method ReceiveBudgetAmount(text: string) returns (next: State, reply: Reply)
      requires Valid() && state == GetBudgetAmount
      modifies this`state, this`session, this`store
      ensures Valid() && state == next
      ensures !isValidCurrency(text) ==>
        next == GetBudgetAmount && session == old(session) && store == old(store)
        && reply == InvalidAmount
      ensures isValidCurrency(text) ==>
        var period := old(session)[BudgetPeriodKey];
        && next == End && session == map[]
        && store == old(store)[(chat, period) := parseAmount(text)]
        && reply == BudgetSaved(period, parseAmount(text))
      ensures isValidCurrency(text) ==>
        forall key :: key in old(store) && key != (chat, old(session)[BudgetPeriodKey]) ==>
          key in store && store[key] == old(store)[key]
    {
      if !isValidCurrency(text) {
        next, reply := GetBudgetAmount, InvalidAmount;
        return;
      }
      var amount := parseAmount(text);
      var period := session[BudgetPeriodKey];
      store := store[(chat, period) := amount];
      reply := BudgetSaved(period, amount);
      session := map[];
      next := End;
      state := next;
    }

    /** `/cancel`, from any state: clear the whole session and end.  The
        store is never written. */
    method Cancel() returns (next: State, reply: Reply)
      modifies this`state, this`session
      ensures Valid()
      ensures next == End && state == next
      ensures session == map[]
      ensures reply == Cancelled
    {
      session := map[];
      next, reply := End, Cancelled;
      state := next;
    }
  }

  /** Two complete "Set Budget" conversations for the same month, with
      amounts `first` and then `second`: the store ends with exactly the
      second amount for that month, every other entry as it was, and the
      session empty. */
  method SetBudgetTwice(chat: ChatId, isValidCurrency: string -> bool, parseAmount: string -> int,
                        store0: map<(ChatId, Period), int>, month: Period, first: string, second: string)
    returns (store: map<(ChatId, Period), int>, session: map<string, string>)
    requires isValidCurrency(first) && isValidCurrency(second)
    ensures store == store0[(chat, month) := parseAmount(second)]
    ensures session == map[]
  {
    var c := new Conversation(chat, isValidCurrency, parseAmount, map[], store0);
    var next, reply := c.Start();
    next, reply := c.HandleChoice(SetBudgetChoice, month, []);
    next, reply := c.ReceiveBudgetAmount(first);
    next, reply := c.Start();
    next, reply := c.HandleChoice(SetBudgetChoice, month, []);
    next, reply := c.ReceiveBudgetAmount(second);
    assert store0[(chat, month) := parseAmount(first)][(chat, month) := parseAmount(second)]
        == store0[(chat, month) := parseAmount(second)];
    store, session := c.store, c.session;
  }

  /** The monthly reminder, then rejected text, then `/cancel`: the store is
      untouched, the session is cleared, and the conversation has ended. */
  method RejectThenCancel(chat: ChatId, isValidCurrency: string -> bool, parseAmount: string -> int,
                          session0: map<string, string>, store0: map<(ChatId, Period), int>,
                          month: Period, text: string)
    returns (store: map<(ChatId, Period), int>, session: map<string, string>, last: State)
    requires !isValidCurrency(text)
    ensures store == store0 && session == map[] && last == End
  {
    var c := new Conversation(chat, isValidCurrency, parseAmount, session0, store0);
    var next, reply := c.PromptSetBudget(month);
    next, reply := c.ReceiveBudgetAmount(text);
    assert next == GetBudgetAmount && c.store == store0;
    next, reply := c.Cancel();
    store, session, last := c.store, c.session, next;
  }
}
