/** How the store meets the browser's key-value storage: one key per collection, written after
    every change, read once at start-up. JSON encoding is not modelled: a key either is absent,
    holds text that fails to parse into the expected shape, or holds a value. */
module Persistence {
  import opened Finance

  datatype Cell<T> = Absent | Corrupt | Stored(value: T) {
    /** The value a successful parse yields, or `default` when the key is missing or fails to
        parse. */
    function LoadOr(default: T): T {
      if Stored? then value else default
    }
  }

  datatype Storage = Storage(
    transactions: Cell<seq<Transaction>>, cards: Cell<seq<Card>>,
    categories: Cell<seq<Category>>, settings: Cell<Settings>)

  /** `localStorage.clear()`. */
  const Cleared := Storage(Absent, Absent, Absent, Absent)

  /** The start-up effect: each key is read on its own; a missing key or a failed parse leaves
      that part of the store at its initial value and never affects the other keys. */
  function Load(st: Storage): (s: State)
    ensures st.transactions.Stored? ==> s.transactions == st.transactions.value
    ensures !st.transactions.Stored? ==> s.transactions == []
    ensures st.cards.Stored? ==> s.cards == st.cards.value
    ensures !st.cards.Stored? ==> s.cards == []
    ensures st.categories.Stored? ==> s.categories == st.categories.value
    ensures !st.categories.Stored? ==> s.categories == DefaultCategories
    ensures st.settings.Stored? ==> s.settings == st.settings.value
    ensures !st.settings.Stored? ==> s.settings == DefaultSettings
  {
    State(
      st.transactions.LoadOr(InitialState.transactions),
      st.cards.LoadOr(InitialState.cards),
      st.categories.LoadOr(InitialState.categories),
      st.settings.LoadOr(InitialState.settings))
  }

  /** The write effects after a change: categories and settings are always written, but the
      transaction and card lists only when they are non-empty, so an emptied list leaves the
      previous one in storage. */
  function Persist(st: Storage, s: State): (r: Storage)
    ensures |s.transactions| > 0 ==> r.transactions == Stored(s.transactions)
    ensures |s.transactions| == 0 ==> r.transactions == st.transactions
    ensures |s.cards| > 0 ==> r.cards == Stored(s.cards)
    ensures |s.cards| == 0 ==> r.cards == st.cards
    ensures r.categories == Stored(s.categories) && r.settings == Stored(s.settings)
  {
    Storage(
      if |s.transactions| > 0 then Stored(s.transactions) else st.transactions,
      if |s.cards| > 0 then Stored(s.cards) else st.cards,
      Stored(s.categories),
      Stored(s.settings))
  }

  /** Writing a state into freshly cleared storage and reading it back gives the same state:
      an empty list that is not written reads back as empty anyway. */
  lemma LoadAfterPersistFromCleared(s: State)
    ensures Load(Persist(Cleared, s)) == s
  {
  }

  /** `resetAllData` wipes the storage, and afterwards the write effects run for the lists that
      changed. React skips an effect whose dependency is the very same object as before, so when
      the store still holds the `defaultCategories` or `defaultUserSettings` object itself (a
      second reset with no edit in between, or a reset before anything was loaded or edited),
      that key stays absent. `keptCategories` and `keptSettings` say whether that is the case.
      Either way, reading the storage back gives the initial store. */
  function ResetStorage(s: State, keptCategories: bool, keptSettings: bool): (r: Storage)
    requires keptCategories ==> s.categories == DefaultCategories
    requires keptSettings ==> s.settings == DefaultSettings
    ensures r.transactions == Absent && r.cards == Absent
    ensures r.categories == (if keptCategories then Absent else Stored(DefaultCategories))
    ensures r.settings == (if keptSettings then Absent else Stored(DefaultSettings))
    ensures Load(r) == ResetAllData(s)
  {
    var written := Persist(Cleared, ResetAllData(s));
    written.(categories := if keptCategories then Absent else written.categories,
             settings := if keptSettings then Absent else written.settings)
  }

  /** Deleting the only transaction and reloading brings it back: the emptied list was never
      written, so the storage still holds the one-entry list. */
  lemma ReloadResurrectsDeletedLast(s: State, t: Transaction)
    requires s.transactions == [t]
    ensures DeleteTransaction(s, t.id).transactions == []
    ensures Load(Persist(Persist(Cleared, s), DeleteTransaction(s, t.id))).transactions == [t]
  {
  }

  /** In general, once a list has been written non-empty, emptying it in the store leaves the
      old list in storage, and a reload brings back that old list. */
  lemma EmptiedListsReloadStale(st: Storage, s: State, later: State)
    requires later.transactions == [] && later.cards == []
    ensures |s.transactions| > 0 ==> Load(Persist(Persist(st, s), later)).transactions == s.transactions
    ensures |s.cards| > 0 ==> Load(Persist(Persist(st, s), later)).cards == s.cards
  {
  }

  /** The write rule with the emptiness test removed: every list is written, empty or not. */
  function PersistAlways(st: Storage, s: State): (r: Storage)
    ensures r.transactions == Stored(s.transactions) && r.cards == Stored(s.cards)
    ensures r.categories == Stored(s.categories) && r.settings == Stored(s.settings)
  {
    Storage(Stored(s.transactions), Stored(s.cards), Stored(s.categories), Stored(s.settings))
  }

  /** Under that rule a reload always gives back the state last written, whatever the storage
      held before, including after deleting the last transaction or card. */
  lemma LoadAfterPersistAlways(st: Storage, s: State)
    ensures Load(PersistAlways(st, s)) == s
  {
  }

  /** Under the corrected rule, deleting the only transaction survives a reload. */
  lemma ReloadKeepsDeletion(s: State, t: Transaction)
    requires s.transactions == [t]
    ensures Load(PersistAlways(PersistAlways(Cleared, s), DeleteTransaction(s, t.id))).transactions == []
  {
    LoadAfterPersistAlways(PersistAlways(Cleared, s), DeleteTransaction(s, t.id));
  }
}
