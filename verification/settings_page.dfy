/** The settings page: adding a category with its two checks, and the backup file that can be
    fed back to `restoreData`. */
module SettingsPage {
  import opened Wrappers
  import opened Seqs
  import opened Text
  import opened Finance

  /** Why `handleAddCategory` did not add the category. */
  datatype CategoryError = Blank | Duplicate

  /** `categories.some(cat => cat.name === name && cat.type === kind)`. */
  predicate HasCategory(cs: seq<Category>, name: string, kind: Kind) {
    exists i :: 0 <= i < |cs| && cs[i].name == name && cs[i].kind == kind
  }

  /** `handleAddCategory`: a name that trims to nothing is ignored, a name already used for the
      same type is refused, and anything else is added as typed, untrimmed. */
  function AddCategoryGuarded(s: State, name: string, kind: Kind, now: nat): (r: Result<State, CategoryError>)
    ensures r == Failure(Blank) <==> IsBlank(name)
    ensures r == Failure(Duplicate) <==> !IsBlank(name) && HasCategory(s.categories, name, kind)
    ensures r.Success? ==> r.value == AddCategory(s, name, kind, now)
    ensures r.Success? ==> HasCategory(r.value.categories, name, kind)
  {
    if IsBlank(name) then Failure(Blank)
    else if HasCategory(s.categories, name, kind) then Failure(Duplicate)
    else
      var r := AddCategory(s, name, kind, now);
      assert r.categories[|s.categories|].name == name;
      Success(r)
  }

  /** Two categories clash when they have the same name and the same type. */
  predicate Clash(a: Category, b: Category) {
    a.name == b.name && a.kind == b.kind
  }

  function NoClash(a: Category, b: Category): bool {
    !Clash(a, b)
  }

  /** No two categories share a name and a type. */
  predicate UniqueCategories(cs: seq<Category>) {
    forall i, j :: 0 <= i < j < |cs| ==> NoClash(cs[i], cs[j])
  }

  /** The default set is free of clashes, so a fresh or reset store starts unique. */
  lemma DefaultCategoriesUnique()
    ensures UniqueCategories(DefaultCategories)
  {
    var d := DefaultCategories;
    forall i, j | 0 <= i < j < |d|
      ensures NoClash(d[i], d[j])
    {
      if d[i].kind == d[j].kind {
        assert d[i].name != d[j].name;
      }
    }
  }

  /** Adding through the page's checks never creates a clash. */
  lemma AddCategoryKeepsUnique(s: State, name: string, kind: Kind, now: nat)
    requires UniqueCategories(s.categories)
    ensures AddCategoryGuarded(s, name, kind, now).Success? ==>
      UniqueCategories(AddCategoryGuarded(s, name, kind, now).value.categories)
  {
    var r := AddCategoryGuarded(s, name, kind, now);
    if r.Success? {
      var cs := r.value.categories;
      var n := |s.categories|;
      forall i, j | 0 <= i < j < |cs|
        ensures NoClash(cs[i], cs[j])
      {
        assert cs[i] == s.categories[i];
        if j < n {
          assert cs[j] == s.categories[j];
        } else {
          assert !HasCategory(s.categories, name, kind);
          assert !(s.categories[i].name == name && s.categories[i].kind == kind);
        }
      }
    }
  }

  /** The blank test trims the name but the duplicate test does not: an existing name typed with
      a trailing space passes both tests and is stored with the space. This is why uniqueness is
      over the names as typed. */
  lemma PaddedNameIsNoDuplicate(s: State, name: string, kind: Kind, now: nat)
    requires HasCategory(s.categories, name, kind) && !IsBlank(name)
    requires forall i :: 0 <= i < |s.categories| ==> s.categories[i].name != name + " "
    ensures AddCategoryGuarded(s, name + " ", kind, now).Success?
    ensures AddCategoryGuarded(s, name, kind, now) == Failure(Duplicate)
  {
    var i :| 0 <= i < |name| && !IsSpace(name[i]);
    assert (name + " ")[i] == name[i];
  }

  /** Deleting a category never creates a clash. */
  lemma DeleteCategoryKeepsUnique(s: State, id: Id)
    requires UniqueCategories(s.categories)
    ensures UniqueCategories(DeleteCategory(s, id).categories)
  {
    FilterPairwise(s.categories, CategoryIdIsNot(id), NoClash);
  }

  /** The object `backupData` writes to the file: the three lists and a time stamp; the
      settings are not part of it. */
  datatype Backup = Backup(
    transactions: seq<Transaction>, cards: seq<Card>, categories: seq<Category>, backupDate: string)

  function BackupData(s: State, backupDate: string): (b: Backup)
    ensures b.transactions == s.transactions && b.cards == s.cards && b.categories == s.categories
  {
    Backup(s.transactions, s.cards, s.categories, backupDate)
  }

  /** The backup file read back as `restoreData`'s argument: the three arrays are present
      (arrays are truthy, even empty ones), there is no settings key, and `backupDate` is not
      looked at. */
  function AsRestoreInput(b: Backup): RestoreInput {
    RestoreInput(Some(b.transactions), Some(b.cards), Some(b.categories), None)
  }

  /** Restoring a backup, into any store, brings back the three lists of the store it was taken
      from and keeps the settings of the store it is restored into. */
  lemma BackupRestoreRoundTrip(s: State, into: State, backupDate: string)
    ensures RestoreData(into, AsRestoreInput(BackupData(s, backupDate))) == s.(settings := into.settings)
    ensures RestoreData(s, AsRestoreInput(BackupData(s, backupDate))) == s
  {
  }
}
