/** The main page's entry form: the type and category pickers, the optional card, and the check
    `handleAddTransaction` makes before it stores a transaction. */
module HomePage {
  import opened Wrappers
  import opened Text
  import opened Calendar
  import opened Finance

  /** The page's own category lists, which are not the store's categories. */
  const IncomeCategories: seq<string> := ["급여", "보너스", "투자수익", "용돈", "기타수입"]
  const ExpenseCategories: seq<string> := ["식비", "주거비", "교통비", "쇼핑", "의료비", "여가", "교육", "기타지출"]

  /** The list the category picker offers for a type. */
  function CategoriesFor(k: Kind): seq<string> {
    if k == Income then IncomeCategories else ExpenseCategories
  }

  /** The value of the picker's "cash payment" entry. */
  const Cash: Id := "cash"

  /** The form's state. `amount` is the number input's value: `None` while the field is empty.
      The browser's number input yields either an empty value or a valid number. */
  datatype Form = Form(
    date: Date, description: string, amount: Option<real>, kind: Kind, category: string,
    selectedCardId: Option<Id>)

  /** The form when the page opens: an expense, in the first expense category. */
  function InitialForm(date: Date): (f: Form)
    ensures f.kind == Expense && f.category in ExpenseCategories
    ensures f.date == date && f.category == ExpenseCategories[0]
    ensures f.description == "" && f.amount == None && f.selectedCardId == None
  {
    Form(date, "", None, Expense, ExpenseCategories[0], None)
  }

  /** The type buttons: only the type changes; the chosen category stays. */
  function SelectType(f: Form, k: Kind): (r: Form)
    ensures r.kind == k && r.category == f.category
    ensures r.(kind := f.kind) == f
  {
    f.(kind := k)
  }

  /** The category picker only offers the names listed for the current type. */
  function SelectCategory(f: Form, c: string): (r: Form)
    ensures c in CategoriesFor(f.kind) ==> r.category == c
    ensures c !in CategoriesFor(f.kind) ==> r == f
    ensures r.(category := f.category) == f
  {
    if c in CategoriesFor(f.kind) then f.(category := c) else f
  }

  /** The card picker: a card's id, or the cash entry. */
  function SelectCard(f: Form, id: Id): (r: Form)
    ensures r.selectedCardId == Some(id) && r.(selectedCardId := f.selectedCardId) == f
  {
    f.(selectedCardId := Some(id))
  }

  /** The guard of `handleAddTransaction`: no description, no amount, or an amount that is not
      positive. */
  predicate Refused(f: Form) {
    f.description == "" || f.amount == None || f.amount.value <= 0.0
  }

  /** The page after a submission: the store and the form. */
  datatype Outcome = Outcome(state: State, form: Form)

  /** `handleAddTransaction`: a refused form changes nothing; otherwise the transaction is added
      (the selected card only for an expense) and the description, amount and card are cleared,
      while the date, type and category stay for the next entry. */
  function SubmitTransaction(s: State, f: Form, now: nat): (r: Outcome)
    ensures Refused(f) ==> r == Outcome(s, f)
    ensures !Refused(f) ==>
      && |r.state.transactions| == |s.transactions| + 1
      && r.state.transactions[1..] == s.transactions
      && r.state.cards == s.cards && r.state.categories == s.categories
      && r.state.settings == s.settings
      && r.form == f.(description := "", amount := None, selectedCardId := None)
    ensures !Refused(f) ==>
      var t := r.state.transactions[0];
      && t.id == ClockId(now) && t.date == f.date && t.description == f.description
      && t.amount == f.amount.value && t.kind == f.kind && t.category == f.category
      && t.cardId == (if f.kind == Expense then f.selectedCardId else None)
  {
    if Refused(f) then Outcome(s, f)
    else
      var fields := TransactionFields(
        f.date, f.description, f.amount.value, f.kind, f.category,
        if f.kind == Expense then f.selectedCardId else None);
      Outcome(AddTransaction(s, fields, now), f.(description := "", amount := None, selectedCardId := None))
  }

  /** What every transaction entered through the page satisfies: a description, a positive
      amount, and no card on an income. */
  predicate WellFormedEntry(t: Transaction) {
    t.description != "" && t.amount > 0.0 && (t.kind == Income ==> t.cardId == None)
  }

  predicate WellFormedLedger(ts: seq<Transaction>) {
    forall i :: 0 <= i < |ts| ==> WellFormedEntry(ts[i])
  }

  /** Submitting keeps every stored transaction well formed. */
  lemma SubmitKeepsLedger(s: State, f: Form, now: nat)
    requires WellFormedLedger(s.transactions)
    ensures WellFormedLedger(SubmitTransaction(s, f, now).state.transactions)
  {
    var ts := SubmitTransaction(s, f, now).state.transactions;
    if !Refused(f) {
      forall i | 0 <= i < |ts|
        ensures WellFormedEntry(ts[i])
      {
        if i > 0 {
          assert ts[i] == s.transactions[i - 1];
        }
      }
    }
  }

  /** Deleting keeps every stored transaction well formed. */
  lemma DeleteKeepsLedger(s: State, id: Id)
    requires WellFormedLedger(s.transactions)
    ensures WellFormedLedger(DeleteTransaction(s, id).transactions)
  {
    var ts := DeleteTransaction(s, id).transactions;
    forall i | 0 <= i < |ts|
      ensures WellFormedEntry(ts[i])
    {
      assert ts[i] in s.transactions;
    }
  }

  /** The cash entry's value can never be mistaken for a card created by the store: card ids
      are digit strings. */
  lemma CashIsNoCardId(now: nat)
    ensures ClockId(now) != Cash
  {
    assert !IsDigit(Cash[0]);
  }

  /** No name appears in both of the page's lists. */
  lemma ListsDisjoint(c: string)
    ensures !(c in IncomeCategories && c in ExpenseCategories)
  {
  }

  /** Switching an expense form to income keeps its expense category, which the income list
      does not offer, and submitting it stores an income filed under that expense category. */
  lemma SwitchedTypeKeepsExpenseCategory(s: State, f: Form, now: nat)
    requires f.kind == Expense && f.category in ExpenseCategories
    requires f.description != "" && f.amount.Some? && f.amount.value > 0.0
    ensures var t := SubmitTransaction(s, SelectType(f, Income), now).state.transactions[0];
      t.kind == Income && t.category == f.category && t.category !in IncomeCategories
  {
    ListsDisjoint(f.category);
  }

  // The type buttons as evidently intended: the category follows the type.

  /** The form offers its type's categories: the chosen one is in the list for the type. */
  predicate CategoryFits(f: Form) {
    f.category in CategoriesFor(f.kind)
  }

  /** The type buttons resetting the category to the first of the new type's list whenever the
      type changes. */
  function SelectTypeIntended(f: Form, k: Kind): (r: Form)
    ensures r.kind == k
    ensures k == f.kind ==> r == f
    ensures k != f.kind ==> r.category == CategoriesFor(k)[0]
  {
    if k == f.kind then f else f.(kind := k, category := CategoriesFor(k)[0])
  }

  /** Every step of the intended form keeps the category within its type's list, starting from
      the page's initial form. */
  lemma IntendedFormKeepsCategoryFit(s: State, f: Form, k: Kind, c: string, id: Id, now: nat)
    requires CategoryFits(f)
    ensures CategoryFits(InitialForm(f.date))
    ensures CategoryFits(SelectTypeIntended(f, k))
    ensures CategoryFits(SelectCategory(f, c))
    ensures CategoryFits(SelectCard(f, id))
    ensures CategoryFits(SubmitTransaction(s, f, now).form)
  {
  }

  /** Under the intended type buttons a stored transaction's category is always one its type
      offers. */
  lemma IntendedSubmissionFiledCorrectly(s: State, f: Form, now: nat)
    requires CategoryFits(f) && !Refused(f)
    ensures var t := SubmitTransaction(s, f, now).state.transactions[0];
      t.category in CategoriesFor(t.kind)
  {
  }
}
