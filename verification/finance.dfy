/** The finance store: the transactions, cards and categories the user keeps and the settings
    record, the operations that change them, and the read-only views the pages compute from
    them. Every operation is a function from one store state to the next; the clock reading the
    source turns into an identifier is passed in as `now`. */
module Finance {
  import opened Wrappers
  import opened Seqs
  import opened Text
  import opened Calendar

  type Id = string

  datatype Kind = Income | Expense

  /** Every field of a transaction except its identifier: what the add and update forms pass. */
  datatype TransactionFields = TransactionFields(
    date: Date, description: string, amount: real, kind: Kind, category: string, cardId: Option<Id>)

  /** An income or expense entry. `category` is a free name and `cardId` a free reference:
      neither is checked against the categories and cards of the store. */
  datatype Transaction = Transaction(
    id: Id, date: Date, description: string, amount: real, kind: Kind, category: string, cardId: Option<Id>)
  {
    function Fields(): TransactionFields {
      TransactionFields(date, description, amount, kind, category, cardId)
    }
  }

  /** `{ ...fields, id }`. */
  function StampTransaction(f: TransactionFields, id: Id): (t: Transaction)
    ensures t.id == id && t.Fields() == f
  {
    Transaction(id, f.date, f.description, f.amount, f.kind, f.category, f.cardId)
  }

  datatype CardFields = CardFields(
    cardNumber: string, cardholderName: string, expiryMonth: string, expiryYear: string,
    cardType: string, lastFourDigits: string)

  datatype Card = Card(
    id: Id, cardNumber: string, cardholderName: string, expiryMonth: string, expiryYear: string,
    cardType: string, lastFourDigits: string)

  function StampCard(f: CardFields, id: Id): (c: Card)
    ensures c.id == id && c.cardNumber == f.cardNumber && c.cardholderName == f.cardholderName
    ensures c.expiryMonth == f.expiryMonth && c.expiryYear == f.expiryYear
    ensures c.cardType == f.cardType && c.lastFourDigits == f.lastFourDigits
  {
    Card(id, f.cardNumber, f.cardholderName, f.expiryMonth, f.expiryYear, f.cardType, f.lastFourDigits)
  }

  datatype Category = Category(id: Id, name: string, kind: Kind)

  datatype Settings = Settings(userName: string, email: string, theme: string)

  /** `Partial<UserSettings>`: the fields to overwrite. */
  datatype SettingsPatch = SettingsPatch(userName: Option<string>, email: Option<string>, theme: Option<string>)

  datatype State = State(
    transactions: seq<Transaction>, cards: seq<Card>, categories: seq<Category>, settings: Settings)

  const DefaultCategories: seq<Category> := [
    Category("1", "식비", Expense),
    Category("2", "주거비", Expense),
    Category("3", "교통비", Expense),
    Category("4", "쇼핑", Expense),
    Category("5", "의료비", Expense),
    Category("6", "여가", Expense),
    Category("7", "교육", Expense),
    Category("8", "기타지출", Expense),
    Category("9", "급여", Income),
    Category("10", "보너스", Income),
    Category("11", "투자수익", Income),
    Category("12", "용돈", Income),
    Category("13", "기타수입", Income)
  ]

  const DefaultSettings := Settings("홍길동", "user@example.com", "system")

  /** The store before anything is loaded, and after a reset. */
  const InitialState := State([], [], DefaultCategories, DefaultSettings)

  /** `Date.now().toString()`: the identifier given to whatever is created at clock reading `now`.
      Two entities created at the same reading get the same identifier. */
  function ClockId(now: nat): (id: Id)
    ensures |id| > 0 && AllDigits(id)
  {
    DecimalString(now)
  }

  /** The default set has eight expense and five income categories. */
  lemma DefaultCategoriesShape()
    ensures |DefaultCategories| == 13
    ensures forall i :: 0 <= i < 8 ==> DefaultCategories[i].kind == Expense
    ensures forall i :: 8 <= i < 13 ==> DefaultCategories[i].kind == Income
  {
  }

  // ---------------------------------------------------------------------------
  // Transactions

  predicate HasTransactionId(ts: seq<Transaction>, id: Id) {
    exists i :: 0 <= i < |ts| && ts[i].id == id
  }

  /** `addTransaction`: the new entry goes in front of the others (newest first). */
  function AddTransaction(s: State, f: TransactionFields, now: nat): (r: State)
    ensures |r.transactions| == |s.transactions| + 1
    ensures r.transactions[0].id == ClockId(now) && r.transactions[0].Fields() == f
    ensures r.transactions[1..] == s.transactions
    ensures r.cards == s.cards && r.categories == s.categories && r.settings == s.settings
  {
    s.(transactions := [StampTransaction(f, ClockId(now))] + s.transactions)
  }

  /** The entry `updateTransaction` puts at a position holding entry `t`. */
  function Replaced(t: Transaction, id: Id, f: TransactionFields): Transaction {
    if t.id == id then StampTransaction(f, id) else t
  }

  /** `updateTransaction`: every entry carrying `id` gets the new fields and keeps its id and
      its position; all other entries stay as they were. */
  function UpdateTransaction(s: State, id: Id, f: TransactionFields): (r: State)
    ensures |r.transactions| == |s.transactions|
    ensures forall i :: 0 <= i < |s.transactions| ==> r.transactions[i].id == s.transactions[i].id
    ensures forall i :: 0 <= i < |s.transactions| && s.transactions[i].id != id ==>
      r.transactions[i] == s.transactions[i]
    ensures forall i :: 0 <= i < |s.transactions| && s.transactions[i].id == id ==>
      r.transactions[i].Fields() == f
    ensures !HasTransactionId(s.transactions, id) ==> r == s
    ensures r.cards == s.cards && r.categories == s.categories && r.settings == s.settings
  {
    var ts := seq(|s.transactions|, i requires 0 <= i < |s.transactions| => Replaced(s.transactions[i], id, f));
    assert !HasTransactionId(s.transactions, id) ==> ts == s.transactions;
    s.(transactions := ts)
  }

  function IdIsNot(id: Id): Transaction -> bool {
    (t: Transaction) => t.id != id
  }

  /** `deleteTransaction`: keeps the entries whose id differs, in their order. */
  function DeleteTransaction(s: State, id: Id): (r: State)
    ensures !HasTransactionId(r.transactions, id)
    ensures forall i :: 0 <= i < |s.transactions| && s.transactions[i].id != id ==> s.transactions[i] in r.transactions
    ensures forall i :: 0 <= i < |r.transactions| ==> r.transactions[i] in s.transactions
    ensures !HasTransactionId(s.transactions, id) ==> r == s
    ensures r.cards == s.cards && r.categories == s.categories && r.settings == s.settings
  {
    FilterMembers(s.transactions, IdIsNot(id));
    FilterAllOrNone(s.transactions, IdIsNot(id));
    s.(transactions := Filter(s.transactions, IdIsNot(id)))
  }

  /** Deletion keeps the survivors in their order and with their repetitions. It works entry by
      entry over the list, and a single entry stays exactly when its id differs. The two facts
      together fix the result for every list. */
  lemma {:induction false} DeleteTransactionInOrder(s: State, a: seq<Transaction>, b: seq<Transaction>, x: Transaction, id: Id)
    ensures DeleteTransaction(s.(transactions := a + b), id).transactions ==
      DeleteTransaction(s.(transactions := a), id).transactions + DeleteTransaction(s.(transactions := b), id).transactions
    ensures DeleteTransaction(s.(transactions := [x]), id).transactions == (if x.id != id then [x] else [])
  {
    FilterConcat(a, b, IdIsNot(id));
  }

  /** Deleting by the identifier just handed out undoes the add, when no older entry already
      carried that identifier. */
  lemma DeleteUndoesAdd(s: State, f: TransactionFields, now: nat)
    requires !HasTransactionId(s.transactions, ClockId(now))
    ensures DeleteTransaction(AddTransaction(s, f, now), ClockId(now)) == s
  {
    var id := ClockId(now);
    var t := StampTransaction(f, id);
    FilterConcat([t], s.transactions, IdIsNot(id));
    FilterAllOrNone(s.transactions, IdIsNot(id));
    assert Filter(s.transactions, IdIsNot(id)) == s.transactions;
    assert Filter([t], IdIsNot(id)) == [];
    assert AddTransaction(s, f, now).transactions == [t] + s.transactions;
  }

  /** An update is lost on deletion: deleting after updating an entry gives the same store as
      deleting it straight away. */
  lemma DeleteAfterUpdate(s: State, id: Id, f: TransactionFields)
    ensures DeleteTransaction(UpdateTransaction(s, id, f), id) == DeleteTransaction(s, id)
  {
    var ts := s.transactions;
    var us := UpdateTransaction(s, id, f).transactions;
    assert forall i :: 0 <= i < |us| ==> IdIsNot(id)(us[i]) == IdIsNot(id)(ts[i]);
    FilterIgnoresDropped(us, ts, IdIsNot(id));
  }

  /** Editing an entry again with the same fields changes nothing more. */
  lemma UpdateIdempotent(s: State, id: Id, f: TransactionFields)
    ensures UpdateTransaction(UpdateTransaction(s, id, f), id, f) == UpdateTransaction(s, id, f)
  {
    var r := UpdateTransaction(s, id, f);
    var rr := UpdateTransaction(r, id, f);
    assert rr.transactions == r.transactions by {
      forall i | 0 <= i < |r.transactions|
        ensures rr.transactions[i] == r.transactions[i]
      {
        if r.transactions[i].id == id {
          assert r.transactions[i] == StampTransaction(f, id);
        }
      }
    }
  }

  // ---------------------------------------------------------------------------
  // Cards and categories

  /** `addCard`: the new card goes after the others (oldest first). */
  function AddCard(s: State, f: CardFields, now: nat): (r: State)
    ensures |r.cards| == |s.cards| + 1 && r.cards[..|s.cards|] == s.cards
    ensures r.cards[|s.cards|] == StampCard(f, ClockId(now))
    ensures r.transactions == s.transactions && r.categories == s.categories && r.settings == s.settings
  {
    s.(cards := s.cards + [StampCard(f, ClockId(now))])
  }

  function CardIdIsNot(id: Id): Card -> bool {
    (c: Card) => c.id != id
  }

  /** `deleteCard`: removes the cards carrying `id`; transactions that refer to it keep the
      reference. */
  function DeleteCard(s: State, id: Id): (r: State)
    ensures forall i :: 0 <= i < |r.cards| ==> r.cards[i].id != id && r.cards[i] in s.cards
    ensures forall i :: 0 <= i < |s.cards| && s.cards[i].id != id ==> s.cards[i] in r.cards
    ensures (forall i :: 0 <= i < |s.cards| ==> s.cards[i].id != id) ==> r == s
    ensures r.transactions == s.transactions && r.categories == s.categories && r.settings == s.settings
  {
    FilterMembers(s.cards, CardIdIsNot(id));
    FilterAllOrNone(s.cards, CardIdIsNot(id));
    s.(cards := Filter(s.cards, CardIdIsNot(id)))
  }

  /** Card deletion works card by card over the list and keeps the order: a single card stays
      exactly when its id differs. */
  lemma {:induction false} DeleteCardInOrder(s: State, a: seq<Card>, b: seq<Card>, c: Card, id: Id)
    ensures DeleteCard(s.(cards := a + b), id).cards ==
      DeleteCard(s.(cards := a), id).cards + DeleteCard(s.(cards := b), id).cards
    ensures DeleteCard(s.(cards := [c]), id).cards == (if c.id != id then [c] else [])
  {
    FilterConcat(a, b, CardIdIsNot(id));
  }

  /** `addCategory`: the new category goes after the others; nothing here checks for
      duplicates. */
  function AddCategory(s: State, name: string, kind: Kind, now: nat): (r: State)
    ensures |r.categories| == |s.categories| + 1 && r.categories[..|s.categories|] == s.categories
    ensures r.categories[|s.categories|] == Category(ClockId(now), name, kind)
    ensures r.transactions == s.transactions && r.cards == s.cards && r.settings == s.settings
  {
    s.(categories := s.categories + [Category(ClockId(now), name, kind)])
  }

  /** Deleting the card just added, by its fresh identifier, gives back the store before. */
  lemma DeleteCardUndoesAdd(s: State, f: CardFields, now: nat)
    requires forall i :: 0 <= i < |s.cards| ==> s.cards[i].id != ClockId(now)
    ensures DeleteCard(AddCard(s, f, now), ClockId(now)) == s
  {
    var id := ClockId(now);
    var c := StampCard(f, id);
    FilterConcat(s.cards, [c], CardIdIsNot(id));
    FilterAllOrNone(s.cards, CardIdIsNot(id));
    assert Filter([c], CardIdIsNot(id)) == [];
    assert Filter(s.cards, CardIdIsNot(id)) + [] == s.cards;
  }

  function CategoryIdIsNot(id: Id): Category -> bool {
    (c: Category) => c.id != id
  }

  /** `deleteCategory`: removes the categories carrying `id`; transactions keep their category
      names. */
  function DeleteCategory(s: State, id: Id): (r: State)
    ensures forall i :: 0 <= i < |r.categories| ==> r.categories[i].id != id && r.categories[i] in s.categories
    ensures forall i :: 0 <= i < |s.categories| && s.categories[i].id != id ==> s.categories[i] in r.categories
    ensures (forall i :: 0 <= i < |s.categories| ==> s.categories[i].id != id) ==> r == s
    ensures r.transactions == s.transactions && r.cards == s.cards && r.settings == s.settings
  {
    FilterMembers(s.categories, CategoryIdIsNot(id));
    FilterAllOrNone(s.categories, CategoryIdIsNot(id));
    s.(categories := Filter(s.categories, CategoryIdIsNot(id)))
  }

  /** Category deletion works category by category over the list and keeps the order: a single
      category stays exactly when its id differs. */
  lemma {:induction false} DeleteCategoryInOrder(s: State, a: seq<Category>, b: seq<Category>, c: Category, id: Id)
    ensures DeleteCategory(s.(categories := a + b), id).categories ==
      DeleteCategory(s.(categories := a), id).categories + DeleteCategory(s.(categories := b), id).categories
    ensures DeleteCategory(s.(categories := [c]), id).categories == (if c.id != id then [c] else [])
  {
    FilterConcat(a, b, CategoryIdIsNot(id));
  }

  /** Deleting the category just added, by its fresh identifier, gives back the store before. */
  lemma DeleteCategoryUndoesAdd(s: State, name: string, kind: Kind, now: nat)
    requires forall i :: 0 <= i < |s.categories| ==> s.categories[i].id != ClockId(now)
    ensures DeleteCategory(AddCategory(s, name, kind, now), ClockId(now)) == s
  {
    var id := ClockId(now);
    var c := Category(id, name, kind);
    FilterConcat(s.categories, [c], CategoryIdIsNot(id));
    FilterAllOrNone(s.categories, CategoryIdIsNot(id));
    assert Filter([c], CategoryIdIsNot(id)) == [];
    assert Filter(s.categories, CategoryIdIsNot(id)) + [] == s.categories;
  }

  /** There is no cascade: a transaction paid with a card that is then deleted still names it,
      although no card carries that id any more. */
  lemma DeletedCardLeavesDanglingReference(s: State, cardId: Id, i: nat)
    requires i < |s.transactions| && s.transactions[i].cardId == Some(cardId)
    ensures var r := DeleteCard(s, cardId);
      && r.transactions[i].cardId == Some(cardId)
      && forall j :: 0 <= j < |r.cards| ==> r.cards[j].id != cardId
  {
  }

  // ---------------------------------------------------------------------------
  // Settings, reset and restore

  /** `updateUserSettings`: `{ ...prev, ...patch }`. */
  function UpdateUserSettings(s: State, p: SettingsPatch): (r: State)
    ensures r.settings.userName == p.userName.GetOr(s.settings.userName)
    ensures r.settings.email == p.email.GetOr(s.settings.email)
    ensures r.settings.theme == p.theme.GetOr(s.settings.theme)
    ensures p == SettingsPatch(None, None, None) ==> r == s
    ensures r.transactions == s.transactions && r.cards == s.cards && r.categories == s.categories
  {
    s.(settings := Settings(
      p.userName.GetOr(s.settings.userName), p.email.GetOr(s.settings.email), p.theme.GetOr(s.settings.theme)))
  }

  /** Applying the same patch twice is applying it once, and a later patch overrides an earlier
      one field by field. */
  lemma PatchesCompose(s: State, p: SettingsPatch, q: SettingsPatch)
    ensures UpdateUserSettings(UpdateUserSettings(s, p), p) == UpdateUserSettings(s, p)
    ensures UpdateUserSettings(UpdateUserSettings(s, p), q) ==
      UpdateUserSettings(s, SettingsPatch(
        if q.userName.Some? then q.userName else p.userName,
        if q.email.Some? then q.email else p.email,
        if q.theme.Some? then q.theme else p.theme))
  {
  }

  /** `resetAllData`: no transactions, no cards, the 13 default categories and the default
      settings, whatever the store held before. */
  function ResetAllData(s: State): (r: State)
    ensures r.transactions == [] && r.cards == []
    ensures r.categories == DefaultCategories && |r.categories| == 13
    ensures r.settings == DefaultSettings
  {
    InitialState
  }

  /** The object `restoreData` receives, after JSON parsing. A key maps to `None` when it is
      missing or its value is falsy; an array, even an empty one, is truthy. */
  datatype RestoreInput = RestoreInput(
    transactions: Option<seq<Transaction>>, cards: Option<seq<Card>>,
    categories: Option<seq<Category>>, settings: Option<Settings>)

  /** `restoreData`: each present key replaces the whole collection; the rest of the store is
      left alone. */
  function RestoreData(s: State, data: RestoreInput): (r: State)
    ensures r.transactions == (if data.transactions.Some? then data.transactions.value else s.transactions)
    ensures r.cards == (if data.cards.Some? then data.cards.value else s.cards)
    ensures r.categories == (if data.categories.Some? then data.categories.value else s.categories)
    ensures r.settings == (if data.settings.Some? then data.settings.value else s.settings)
  {
    State(
      data.transactions.GetOr(s.transactions), data.cards.GetOr(s.cards),
      data.categories.GetOr(s.categories), data.settings.GetOr(s.settings))
  }

  /** Restoring a snapshot that holds only cards leaves transactions, categories and settings
      as they were. */
  lemma RestoreOnlyCards(s: State, cards: seq<Card>)
    ensures RestoreData(s, RestoreInput(None, Some(cards), None, None)) == s.(cards := cards)
  {
  }

  // ---------------------------------------------------------------------------
  // Period filters

  function InYear(y: int): Transaction -> bool {
    (t: Transaction) => t.date.year == y
  }

  function InMonth(y: int, m: Month): Transaction -> bool {
    (t: Transaction) => t.date.year == y && t.date.month == m
  }

  /** `getYearlyTransactions(year)` over a list of transactions. */
  function YearlyTransactions(ts: seq<Transaction>, y: int): (r: seq<Transaction>)
    ensures forall i :: 0 <= i < |r| ==> r[i].date.year == y
    ensures forall i :: 0 <= i < |ts| && ts[i].date.year == y ==> ts[i] in r
  {
    FilterMembers(ts, InYear(y));
    Filter(ts, InYear(y))
  }

  /** `getMonthlyTransactions(year, month)` over a list of transactions; the month is
      zero-based. */
  function MonthlyTransactions(ts: seq<Transaction>, y: int, m: Month): (r: seq<Transaction>)
    ensures forall i :: 0 <= i < |r| ==> r[i].date.year == y && r[i].date.month == m
    ensures forall i :: 0 <= i < |ts| && ts[i].date.year == y && ts[i].date.month == m ==> ts[i] in r
  {
    FilterMembers(ts, InMonth(y, m));
    Filter(ts, InMonth(y, m))
  }

  /** The year and month views keep only stored entries. */
  lemma PeriodViewsKeepExactly(ts: seq<Transaction>, y: int, m: Month)
    ensures forall i :: 0 <= i < |YearlyTransactions(ts, y)| ==> YearlyTransactions(ts, y)[i] in ts
    ensures forall i :: 0 <= i < |MonthlyTransactions(ts, y, m)| ==> MonthlyTransactions(ts, y, m)[i] in ts
  {
    FilterMembers(ts, InYear(y));
    FilterMembers(ts, InMonth(y, m));
  }

  /** The year and month views keep the entries of their period in list order and with their
      repetitions: a view of `a + b` is the view of `a` followed by the view of `b`, and a
      single entry is kept exactly when it is dated in the period. */
  lemma {:induction false} PeriodViewsInOrder(a: seq<Transaction>, b: seq<Transaction>, x: Transaction, y: int, m: Month)
    ensures YearlyTransactions(a + b, y) == YearlyTransactions(a, y) + YearlyTransactions(b, y)
    ensures YearlyTransactions([x], y) == (if x.date.year == y then [x] else [])
    ensures MonthlyTransactions(a + b, y, m) == MonthlyTransactions(a, y, m) + MonthlyTransactions(b, y, m)
    ensures MonthlyTransactions([x], y, m) == (if x.date.year == y && x.date.month == m then [x] else [])
  {
    FilterConcat(a, b, InYear(y));
    FilterConcat(a, b, InMonth(y, m));
  }

  function MonthIs(m: Month): Transaction -> bool {
    (t: Transaction) => t.date.month == m
  }

  /** A month's transactions are the year's transactions of that month, in the same order. */
  lemma MonthlyWithinYearly(ts: seq<Transaction>, y: int, m: Month)
    ensures MonthlyTransactions(ts, y, m) == Filter(YearlyTransactions(ts, y), MonthIs(m))
  {
    FilterFilter(ts, InYear(y), MonthIs(m));
    FilterAgree(ts, Both(InYear(y), MonthIs(m)), InMonth(y, m));
  }

  // ---------------------------------------------------------------------------
  // Totals

  /** `reduce((sum, t) => sum + t.amount, 0)`. */
  function SumAmounts(ts: seq<Transaction>): real {
    if |ts| == 0 then 0.0 else ts[0].amount + SumAmounts(ts[1..])
  }

  lemma {:induction false} SumAmountsConcat(a: seq<Transaction>, b: seq<Transaction>)
    ensures SumAmounts(a + b) == SumAmounts(a) + SumAmounts(b)
  {
    if |a| > 0 {
      assert (a + b)[1..] == a[1..] + b;
      SumAmountsConcat(a[1..], b);
    } else {
      assert a + b == b;
    }
  }

  function KindIs(k: Kind): Transaction -> bool {
    (t: Transaction) => t.kind == k
  }

  /** The sum of the amounts of the entries of kind `k`. */
  function TotalOf(ts: seq<Transaction>, k: Kind): real {
    SumAmounts(Filter(ts, KindIs(k)))
  }

  /** Totals add up over concatenation. */
  lemma TotalConcat(a: seq<Transaction>, b: seq<Transaction>, k: Kind)
    ensures TotalOf(a + b, k) == TotalOf(a, k) + TotalOf(b, k)
  {
    FilterConcat(a, b, KindIs(k));
    SumAmountsConcat(Filter(a, KindIs(k)), Filter(b, KindIs(k)));
  }

  /** The total of a list is its first entry's share plus the total of the rest. */
  lemma TotalCons(ts: seq<Transaction>, k: Kind)
    requires |ts| > 0
    ensures TotalOf(ts, k) == (if ts[0].kind == k then ts[0].amount else 0.0) + TotalOf(ts[1..], k)
  {
    assert ts == [ts[0]] + ts[1..];
    TotalConcat([ts[0]], ts[1..], k);
  }

  /** The list `getTotalIncome`, `getTotalExpense` and `getBalance` work on: the one passed,
      or the whole store when none is. An empty list is passed on as it is, because `[]` is
      truthy. */
  function Subject(s: State, subset: Option<seq<Transaction>>): seq<Transaction> {
    subset.GetOr(s.transactions)
  }

  /** `getTotalIncome`: the income total of the list passed, or of the whole store when none is;
      an explicit empty list totals 0 whatever the store holds. */
  function GetTotalIncome(s: State, subset: Option<seq<Transaction>>): (r: real)
    ensures subset.Some? ==> r == TotalOf(subset.value, Income)
    ensures subset == None ==> r == TotalOf(s.transactions, Income)
    ensures subset == Some([]) ==> r == 0.0
  {
    TotalOf(Subject(s, subset), Income)
  }

  /** `getTotalExpense`: the same over the entries of type expense. */
  function GetTotalExpense(s: State, subset: Option<seq<Transaction>>): (r: real)
    ensures subset.Some? ==> r == TotalOf(subset.value, Expense)
    ensures subset == None ==> r == TotalOf(s.transactions, Expense)
    ensures subset == Some([]) ==> r == 0.0
  {
    TotalOf(Subject(s, subset), Expense)
  }

  /** `getBalance`: income less expense over the same list. An explicit empty list gives 0,
      whatever the store holds. */
  function GetBalance(s: State, subset: Option<seq<Transaction>>): (b: real)
    ensures b == GetTotalIncome(s, subset) - GetTotalExpense(s, subset)
    ensures subset == Some([]) ==> b == 0.0
  {
    GetTotalIncome(s, subset) - GetTotalExpense(s, subset)
  }

  /** The balance adds up over concatenation, like the two totals it is made of. */
  lemma BalanceConcat(s: State, a: seq<Transaction>, b: seq<Transaction>)
    ensures GetBalance(s, Some(a + b)) == GetBalance(s, Some(a)) + GetBalance(s, Some(b))
  {
    TotalConcat(a, b, Income);
    TotalConcat(a, b, Expense);
  }

  // ---------------------------------------------------------------------------
  // Buckets: the months of a year, the days of a month

  function KeyIs(key: Transaction -> int, b: int): Transaction -> bool {
    (t: Transaction) => key(t) == b
  }

  /** The totals of kind `k` of buckets 0 .. n-1, where bucket `b` holds the entries whose
      key is `b`. */
  function BucketTotals(ts: seq<Transaction>, key: Transaction -> int, k: Kind, n: nat): real {
    if n == 0 then 0.0 else BucketTotals(ts, key, k, n - 1) + TotalOf(Filter(ts, KeyIs(key, n - 1)), k)
  }

  /** The number of entries in buckets 0 .. n-1. */
  function BucketCounts(ts: seq<Transaction>, key: Transaction -> int, n: nat): nat {
    if n == 0 then 0 else BucketCounts(ts, key, n - 1) + |Filter(ts, KeyIs(key, n - 1))|
  }

  /** The total of a one-entry list is that entry's amount when it has the kind asked for. */
  lemma TotalSingle(t: Transaction, k: Kind)
    ensures TotalOf([t], k) == if t.kind == k then t.amount else 0.0
  {
    assert [t][1..] == [];
    if t.kind == k {
      assert Filter([t], KindIs(k)) == [t];
      assert SumAmounts([t]) == t.amount + SumAmounts([]);
    } else {
      assert Filter([t], KindIs(k)) == [];
    }
  }

  /** A bucket's total over a list is the first entry's share plus the bucket's total over
      the rest. */
  lemma BucketCons(ts: seq<Transaction>, key: Transaction -> int, b: int, k: Kind)
    requires |ts| > 0
    ensures TotalOf(Filter(ts, KeyIs(key, b)), k) ==
      (if key(ts[0]) == b && ts[0].kind == k then ts[0].amount else 0.0)
      + TotalOf(Filter(ts[1..], KeyIs(key, b)), k)
    ensures |Filter(ts, KeyIs(key, b))| == (if key(ts[0]) == b then 1 else 0) + |Filter(ts[1..], KeyIs(key, b))|
  {
    var p := KeyIs(key, b);
    var t := ts[0];
    var rest := Filter(ts[1..], p);
    if p(t) {
      assert Filter(ts, p) == [t] + rest;
      TotalConcat([t], rest, k);
      TotalSingle(t, k);
    } else {
      assert Filter(ts, p) == rest;
    }
  }

  /** Bucket `n - 1`'s share of the first entry is what separates the totals over buckets
      0 .. n-1 from those over 0 .. n-2. */
  lemma BucketTotalsStep(ts: seq<Transaction>, key: Transaction -> int, k: Kind, n: nat)
    requires |ts| > 0 && n > 0
    ensures BucketTotals(ts, key, k, n) - BucketTotals(ts[1..], key, k, n) ==
      BucketTotals(ts, key, k, n - 1) - BucketTotals(ts[1..], key, k, n - 1)
      + (if key(ts[0]) == n - 1 && ts[0].kind == k then ts[0].amount else 0.0)
  {
    BucketCons(ts, key, n - 1, k);
  }

  lemma {:induction false} BucketTotalsCons(ts: seq<Transaction>, key: Transaction -> int, k: Kind, n: nat)
    requires |ts| > 0
    ensures BucketTotals(ts, key, k, n) ==
      BucketTotals(ts[1..], key, k, n)
      + (if 0 <= key(ts[0]) < n && ts[0].kind == k then ts[0].amount else 0.0)
    decreases n
  {
    if n > 0 {
      BucketTotalsCons(ts, key, k, n - 1);
      BucketTotalsStep(ts, key, k, n);
    }
  }

  lemma BucketCountsStep(ts: seq<Transaction>, key: Transaction -> int, n: nat)
    requires |ts| > 0 && n > 0
    ensures BucketCounts(ts, key, n) - BucketCounts(ts[1..], key, n) ==
      BucketCounts(ts, key, n - 1) - BucketCounts(ts[1..], key, n - 1)
      + (if key(ts[0]) == n - 1 then 1 else 0)
  {
    BucketCons(ts, key, n - 1, Income);
  }

  /** The arithmetic of one counting step, with the counts as plain numbers. */
  lemma CountStep(whole: int, rest: int, whole1: int, rest1: int, kt: int, n: int)
    requires n > 0
    requires whole1 == rest1 + (if 0 <= kt < n - 1 then 1 else 0)
    requires whole - rest == whole1 - rest1 + (if kt == n - 1 then 1 else 0)
    ensures whole == rest + (if 0 <= kt < n then 1 else 0)
  {
  }

  lemma {:induction false} BucketCountsCons(ts: seq<Transaction>, key: Transaction -> int, n: nat)
    requires |ts| > 0
    ensures BucketCounts(ts, key, n) == BucketCounts(ts[1..], key, n) + (if 0 <= key(ts[0]) < n then 1 else 0)
    decreases n, 1
  {
    if n > 0 {
      BucketCountsConsFrom(ts, key, n);
    }
  }

  /** The inductive step of `BucketCountsCons`, from n - 1 buckets to n. */
  lemma {:induction false} BucketCountsConsFrom(ts: seq<Transaction>, key: Transaction -> int, n: nat)
    requires |ts| > 0 && n > 0
    ensures BucketCounts(ts, key, n) == BucketCounts(ts[1..], key, n) + (if 0 <= key(ts[0]) < n then 1 else 0)
    decreases n, 0
  {
    BucketCountsCons(ts, key, n - 1);
    BucketCountsStep(ts, key, n);
    CountStep(BucketCounts(ts, key, n), BucketCounts(ts[1..], key, n),
      BucketCounts(ts, key, n - 1), BucketCounts(ts[1..], key, n - 1), key(ts[0]), n);
  }

  /** When every entry falls in one of the buckets 0 .. n-1, the buckets' totals add up to the
      total of the whole list, and their sizes to its length. */
  lemma {:induction false} BucketsPartition(ts: seq<Transaction>, key: Transaction -> int, k: Kind, n: nat)
    requires forall i :: 0 <= i < |ts| ==> 0 <= key(ts[i]) < n
    ensures BucketTotals(ts, key, k, n) == TotalOf(ts, k)
    ensures BucketCounts(ts, key, n) == |ts|
    decreases |ts|
  {
    if |ts| == 0 {
      BucketsEmpty(key, k, n);
    } else {
      BucketsPartition(ts[1..], key, k, n);
      BucketTotalsCons(ts, key, k, n);
      BucketCountsCons(ts, key, n);
      TotalCons(ts, k);
    }
  }

  lemma {:induction false} BucketsEmpty(key: Transaction -> int, k: Kind, n: nat)
    ensures BucketTotals([], key, k, n) == 0.0 && BucketCounts([], key, n) == 0
    decreases n
  {
    if n > 0 {
      BucketsEmpty(key, k, n - 1);
    }
  }

  function MonthKey(t: Transaction): int {
    t.date.month
  }

  /** The totals of kind `k` of the months 0 .. n-1 of year `y`. */
  function MonthlyTotals(ts: seq<Transaction>, y: int, k: Kind, n: nat): real
    requires n <= 12
  {
    if n == 0 then 0.0 else MonthlyTotals(ts, y, k, n - 1) + TotalOf(MonthlyTransactions(ts, y, n - 1), k)
  }

  /** The number of transactions in the months 0 .. n-1 of year `y`. */
  function MonthlyCounts(ts: seq<Transaction>, y: int, n: nat): nat
    requires n <= 12
  {
    if n == 0 then 0 else MonthlyCounts(ts, y, n - 1) + |MonthlyTransactions(ts, y, n - 1)|
  }

  /** A month's transactions are the year's bucket for that month. */
  lemma MonthIsBucket(ts: seq<Transaction>, y: int, m: Month)
    ensures MonthlyTransactions(ts, y, m) == Filter(YearlyTransactions(ts, y), KeyIs(MonthKey, m))
  {
    MonthlyWithinYearly(ts, y, m);
    var year := YearlyTransactions(ts, y);
    forall i | 0 <= i < |year|
      ensures MonthIs(m)(year[i]) == KeyIs(MonthKey, m)(year[i])
    {
      assert MonthKey(year[i]) == year[i].date.month;
    }
    FilterAgree(year, MonthIs(m), KeyIs(MonthKey, m));
  }

  lemma MonthTotalIsBucket(ts: seq<Transaction>, y: int, k: Kind, m: Month)
    ensures TotalOf(MonthlyTransactions(ts, y, m), k) == TotalOf(Filter(YearlyTransactions(ts, y), KeyIs(MonthKey, m)), k)
  {
    MonthIsBucket(ts, y, m);
  }

  lemma {:induction false} MonthlyTotalsAsBuckets(ts: seq<Transaction>, y: int, k: Kind, n: nat)
    requires n <= 12
    ensures MonthlyTotals(ts, y, k, n) == BucketTotals(YearlyTransactions(ts, y), MonthKey, k, n)
    decreases n
  {
    if n > 0 {
      var m: Month := n - 1;
      var year := YearlyTransactions(ts, y);
      var month := TotalOf(MonthlyTransactions(ts, y, m), k);
      assert MonthlyTotals(ts, y, k, m) == BucketTotals(year, MonthKey, k, m) by {
        MonthlyTotalsAsBuckets(ts, y, k, m);
      }
      assert BucketTotals(year, MonthKey, k, n) == BucketTotals(year, MonthKey, k, m) + month by {
        MonthTotalIsBucket(ts, y, k, m);
      }
      assert MonthlyTotals(ts, y, k, n) == MonthlyTotals(ts, y, k, m) + month;
    }
  }

  lemma {:induction false} MonthlyCountsAsBuckets(ts: seq<Transaction>, y: int, n: nat)
    requires n <= 12
    ensures MonthlyCounts(ts, y, n) == BucketCounts(YearlyTransactions(ts, y), MonthKey, n)
    decreases n
  {
    if n > 0 {
      var m: Month := n - 1;
      var year := YearlyTransactions(ts, y);
      var month := MonthlyTransactions(ts, y, m);
      assert MonthlyCounts(ts, y, m) == BucketCounts(year, MonthKey, m) by {
        MonthlyCountsAsBuckets(ts, y, m);
      }
      assert BucketCounts(year, MonthKey, n) == BucketCounts(year, MonthKey, m) + |month| by {
        MonthIsBucket(ts, y, m);
      }
      assert MonthlyCounts(ts, y, n) == MonthlyCounts(ts, y, m) + |month|;
    }
  }

  /** The twelve months of a year split its transactions: their counts add up to the year's
      count and their totals, of either kind, to the year's total. */
  lemma MonthsPartitionYear(ts: seq<Transaction>, y: int, k: Kind)
    ensures MonthlyTotals(ts, y, k, 12) == TotalOf(YearlyTransactions(ts, y), k)
    ensures MonthlyCounts(ts, y, 12) == |YearlyTransactions(ts, y)|
  {
    MonthlyTotalsAsBuckets(ts, y, k, 12);
    MonthlyCountsAsBuckets(ts, y, 12);
    BucketsPartition(YearlyTransactions(ts, y), MonthKey, k, 12);
  }
}
