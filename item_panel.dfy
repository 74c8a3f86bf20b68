/** The item management screen: a form that adds a catalogue item after a
    chain of checks, a table of the listed items, and a delete action per
    row that refuses while the item still has stock. Dialog answers are
    inputs; the messages themselves are left out. */
module ItemManagement {
  import opened Wrappers
  import opened Text
  import opened Seqs
  import opened ItemEntity
  import opened ItemDao
  import StockBatchDao
  import JavaNumbers
  import StringSimilarity

  /** `itemName.length() < 2` is refused. */
  const MIN_NAME_LENGTH: nat := 2
  /** The threshold `addItem` passes to `findSimilarItems`. */
  const SIMILARITY_THRESHOLD: real := 75.0

  /** Why `addItem` stopped. `SimilarNameDeclined` is the user declining to add a
      name that resembles stored ones; `SaveFailed` is the exception of
      `save`, reported in a dialog. */
  datatype AddItemError =
    | EmptyName
    | ShortName
    | DuplicateName
    | SimilarNameDeclined
    | SaveFailed(saveError: SaveError)

  /** Why `deleteItem` stopped. `RowOutOfRange` and `DeleteDeclined` end it
      silently; the other two show a dialog. */
  datatype DeleteItemError =
    | RowOutOfRange
    | ItemNotFound
    | StockRemaining(totalStock: int)
    | DeleteDeclined

  /** The checks of `deleteItem`, in its order: the row must be in the
      table, its item still stored and without stock, and the user must
      confirm. `DeleteRefusals` spells out each outcome. */
  function DeleteCheck(rows: seq<ItemRow>, shown: seq<ItemRow>, batchRows: seq<StockBatchDao.BatchRow>,
                       row: int, confirm: bool): Outcome<DeleteItemError>
  {
    if !(0 <= row < |shown|) then Fail(RowOutOfRange)
    else if FindById(rows, shown[row].id).None? then Fail(ItemNotFound)
    else if StockBatchDao.GetTotalQuantity(batchRows, shown[row].id) > 0 then
      Fail(StockRemaining(StockBatchDao.GetTotalQuantity(batchRows, shown[row].id)))
    else if !confirm then Fail(DeleteDeclined)
    else Pass
  }

  /** The stored items resembling `itemName`, as `findSimilarItems` lists them. */
  ghost function SimilarItems(rows: seq<ItemRow>, itemName: string): seq<ItemRow>
  {
    Filter(SimilarTo(itemName, SIMILARITY_THRESHOLD), FindAll(rows))
  }

  /** The row `save` inserts for a new item built from the form. */
  function NewRow(id: nat, itemName: string, description: string, now: int): ItemRow
  {
    ItemRow(id, itemName, NameKey(itemName), Some(description), now)
  }

  class ItemManagementPanel {
    var itemNameText: string
    var descriptionText: string
    var searchText: string
    /** The table: one row per listed item, in the order listed. */
    var shown: seq<ItemRow>

    /** The panel as built: empty fields, then `loadAllItems`. */
    constructor (store: ItemStore)
      ensures itemNameText == [] && descriptionText == [] && searchText == [] && shown == FindAll(store.rows)
    {
      itemNameText := [];
      descriptionText := [];
      searchText := [];
      shown := [];
      new;
      LoadAllItems(store);
    }

    /** `searchItems`: a blank term lists every item, any other term the
        items whose name contains it; either way the table shows exactly
        what `searchItems` of the DAO returns for the field's text. */
    method SearchItems(store: ItemStore)
      modifies this`shown
      ensures shown == ItemDao.SearchItems(store.rows, searchText)
      ensures forall r :: r in shown <==> r in store.rows && NameContains(searchText)(r)
    {
      var searchTerm := Trim(searchText);
      if |searchTerm| == 0 {
        BlankSearchFindsAll(store.rows, searchText);
        shown := FindAll(store.rows);
      } else {
        shown := ItemDao.SearchItems(store.rows, searchText);
      }
      SearchListsMatches(store.rows, searchText);
    }

    /** `loadAllItems`: clears the search field and lists every item. */
    method LoadAllItems(store: ItemStore)
      modifies this`searchText, this`shown
      ensures searchText == [] && shown == FindAll(store.rows)
    {
      searchText := [];
      SearchItems(store);
      BlankSearchFindsAll(store.rows, searchText);
    }

    /** `addItem`: the trimmed name must be non-blank, at least two
        characters long and not already stored under any casing; a name
        that resembles stored ones needs the user's `confirm`. Then one new
        item with the trimmed name and description is saved, the form is
        cleared and the table reloaded. Every refusal leaves the store and
        the form as they were. */
    method AddItem(store: ItemStore, confirm: bool, now: int) returns (outcome: Outcome<AddItemError>)
      requires store.Valid()
      modifies this`itemNameText, this`descriptionText, this`searchText, this`shown, store
      ensures store.Valid()
      ensures |Trim(old(itemNameText))| == 0 ==> outcome == Fail(EmptyName)
      ensures |Trim(old(itemNameText))| == 1 ==> outcome == Fail(ShortName)
      ensures |Trim(old(itemNameText))| >= MIN_NAME_LENGTH && ExistsByName(old(store.rows), Trim(old(itemNameText))) ==>
        outcome == Fail(DuplicateName)
      ensures |Trim(old(itemNameText))| >= MIN_NAME_LENGTH && !ExistsByName(old(store.rows), Trim(old(itemNameText))) &&
              |SimilarItems(old(store.rows), Trim(old(itemNameText)))| > 0 && !confirm ==>
        outcome == Fail(SimilarNameDeclined)
      ensures outcome.Fail? ==> store.rows == old(store.rows) && store.nextId == old(store.nextId)
      ensures outcome.Fail? ==>
        itemNameText == old(itemNameText) && descriptionText == old(descriptionText) &&
        searchText == old(searchText) && shown == old(shown)
      ensures outcome.Fail? && outcome.error.SaveFailed? ==>
        outcome.error.saveError == DuplicateItemName && KeyTaken(old(store.rows), NameKey(Trim(old(itemNameText))))
      ensures outcome.Pass? ==>
        |Trim(old(itemNameText))| >= MIN_NAME_LENGTH &&
        !ExistsByName(old(store.rows), Trim(old(itemNameText))) &&
        (|SimilarItems(old(store.rows), Trim(old(itemNameText)))| == 0 || confirm) &&
        store.rows == old(store.rows) +
          [NewRow(old(store.nextId), Trim(old(itemNameText)), Trim(old(descriptionText)), now)]
      ensures outcome.Pass? ==>
        itemNameText == [] && descriptionText == [] && searchText == [] && shown == FindAll(store.rows)
    {
      var itemName := Trim(itemNameText);
      var description := Trim(descriptionText);
      if |itemName| == 0 {
        return Fail(EmptyName);
      }
      if |itemName| < MIN_NAME_LENGTH {
        return Fail(ShortName);
      }
      if |Filter(NameIs(itemName), store.rows)| > 0 {
        return Fail(DuplicateName);
      }
      var similarItems := store.FindSimilarItems(itemName, SIMILARITY_THRESHOLD);
      if |similarItems| > 0 && !confirm {
        return Fail(SimilarNameDeclined);
      }
      outcome := SaveNew(store, itemName, description, now);
    }

    /** The `try` block of `addItem`: builds the item, saves it and, when
        the store takes it, clears the form and reloads the table. */
    method SaveNew(store: ItemStore, itemName: string, description: string, now: int)
      returns (outcome: Outcome<AddItemError>)
      requires store.Valid()
      modifies this`itemNameText, this`descriptionText, this`searchText, this`shown, store
      ensures store.Valid()
      ensures outcome == if KeyTaken(old(store.rows), NameKey(itemName)) then Fail(SaveFailed(DuplicateItemName)) else Pass
      ensures outcome.Fail? ==> store.rows == old(store.rows) && store.nextId == old(store.nextId)
      ensures outcome.Fail? ==>
        itemNameText == old(itemNameText) && descriptionText == old(descriptionText) &&
        searchText == old(searchText) && shown == old(shown)
      ensures outcome.Pass? ==>
        store.rows == old(store.rows) + [NewRow(old(store.nextId), itemName, description, now)]
      ensures outcome.Pass? ==>
        itemNameText == [] && descriptionText == [] && searchText == [] && shown == FindAll(store.rows)
    {
      var item := new Item(itemName, Some(description), now);
      var saved := store.Save(item);
      if saved.Fail? {
        return Fail(SaveFailed(saved.error));
      }
      assert store.rows == old(store.rows) + [NewRow(old(store.nextId), itemName, description, now)];
      ResetForm(store);
      outcome := Pass;
    }

    /** What `addItem` does after a save: empties both fields and reloads
        the table. */
    method ResetForm(store: ItemStore)
      modifies this`itemNameText, this`descriptionText, this`searchText, this`shown
      ensures itemNameText == [] && descriptionText == [] && searchText == [] && shown == FindAll(store.rows)
    {
      itemNameText := [];
      descriptionText := [];
      LoadAllItems(store);
    }

    /** `deleteItem(row)`: a row outside the table or an item no longer
        stored is ignored; an item with stock left is refused; otherwise the
        item is deleted once the user confirms and the table is reloaded. */
    method DeleteItem(store: ItemStore, batches: StockBatchDao.BatchStore, row: int, confirm: bool)
      returns (outcome: Outcome<DeleteItemError>)
      requires store.Valid()
      modifies this, store
      ensures store.Valid() && store.nextId == old(store.nextId)
      ensures itemNameText == old(itemNameText) && descriptionText == old(descriptionText)
      ensures outcome == DeleteCheck(old(store.rows), old(shown), batches.rows, row, confirm)
      ensures outcome.Fail? ==> store.rows == old(store.rows) && shown == old(shown) && searchText == old(searchText)
      ensures outcome.Pass? ==>
        0 <= row < |old(shown)| &&
        store.rows == Filter(IdIsNot(old(shown)[row].id), old(store.rows)) &&
        searchText == [] && shown == FindAll(store.rows)
    {
      outcome := DeleteCheck(store.rows, shown, batches.rows, row, confirm);
      if outcome.Pass? {
        DeleteAndReload(store, shown[row].id);
      }
    }

    /** The confirmed branch of `deleteItem`: deletes the item and reloads
        the table. */
    method DeleteAndReload(store: ItemStore, itemId: nat)
      requires store.Valid()
      modifies this`searchText, this`shown, store
      ensures store.Valid() && store.nextId == old(store.nextId)
      ensures store.rows == Filter(IdIsNot(itemId), old(store.rows))
      ensures searchText == [] && shown == FindAll(store.rows)
    {
      store.Delete(itemId);
      LoadAllItems(store);
    }
  }

  // ---------------------------------------------------------------------
  // Properties of the two actions

  /** Each refusal of `deleteItem` and the one way through: a row outside
      the table, an item no longer stored, stock left (with its total), and
      no confirmation, in that order; the item is deleted exactly when none
      of them applies. */
  lemma DeleteRefusals(rows: seq<ItemRow>, shown: seq<ItemRow>, batchRows: seq<StockBatchDao.BatchRow>,
                       row: int, confirm: bool)
    ensures !(0 <= row < |shown|) ==> DeleteCheck(rows, shown, batchRows, row, confirm) == Fail(RowOutOfRange)
    ensures 0 <= row < |shown| && FindById(rows, shown[row].id).None? ==>
      DeleteCheck(rows, shown, batchRows, row, confirm) == Fail(ItemNotFound)
    ensures 0 <= row < |shown| && FindById(rows, shown[row].id).Some? &&
            StockBatchDao.GetTotalQuantity(batchRows, shown[row].id) > 0 ==>
      DeleteCheck(rows, shown, batchRows, row, confirm) ==
        Fail(StockRemaining(StockBatchDao.GetTotalQuantity(batchRows, shown[row].id)))
    ensures 0 <= row < |shown| && FindById(rows, shown[row].id).Some? &&
            StockBatchDao.GetTotalQuantity(batchRows, shown[row].id) <= 0 && !confirm ==>
      DeleteCheck(rows, shown, batchRows, row, confirm) == Fail(DeleteDeclined)
    ensures DeleteCheck(rows, shown, batchRows, row, confirm).Pass? <==>
      0 <= row < |shown| && FindById(rows, shown[row].id).Some? &&
      StockBatchDao.GetTotalQuantity(batchRows, shown[row].id) <= 0 && confirm
  {
  }

  /** Only an item whose stock is used up can be deleted: a stored item
      with batches holding units is never deleted. */
  lemma StockedItemKept(rows: seq<ItemRow>, shown: seq<ItemRow>, batchRows: seq<StockBatchDao.BatchRow>,
                        row: int, confirm: bool)
    requires 0 <= row < |shown|
    requires JavaNumbers.IsInt32(StockBatchDao.ItemTotal(batchRows, shown[row].id))
    requires StockBatchDao.ItemTotal(batchRows, shown[row].id) > 0
    ensures DeleteCheck(rows, shown, batchRows, row, confirm).Fail?
  {
  }

  /** The search lists exactly the stored items matching the term. */
  lemma SearchListsMatches(rows: seq<ItemRow>, searchTerm: string)
    ensures forall r :: r in ItemDao.SearchItems(rows, searchTerm) <==> r in rows && NameContains(searchTerm)(r)
  {
    FilterIn(NameContains(searchTerm), rows);
    SortIn(ItemDao.ByName, Filter(NameContains(searchTerm), rows));
  }

  /** Once added, a name counts as existing, so adding it again under any
      casing or surrounding white space is refused as a duplicate. */
  lemma AddedNameExists(rows: seq<ItemRow>, id: nat, itemName: string, description: string, now: int, again: string)
    requires IsTrimmed(itemName)
    requires ToLower(Trim(again)) == ToLower(itemName)
    ensures ExistsByName(rows + [NewRow(id, itemName, description, now)], again)
  {
    var rs := rows + [NewRow(id, itemName, description, now)];
    FilterMembers(NameIs(again), rs);
    assert rs[|rows|] == NewRow(id, itemName, description, now);
    assert NameIs(again)(rs[|rows|]);
  }

  /** The panel stores trimmed names only; while that holds, a name whose
      key is taken also counts as existing, so a name that passes the
      `existsByName` check never trips the unique key and `SaveFailed`
      does not happen. */
  lemma TrimmedStoreClashIsDuplicate(rows: seq<ItemRow>, itemName: string)
    requires forall k :: 0 <= k < |rows| ==> IsTrimmed(rows[k].itemName)
    requires forall k :: 0 <= k < |rows| ==> rows[k].itemNameLower == NameKey(rows[k].itemName)
    requires IsTrimmed(itemName)
    requires KeyTaken(rows, NameKey(itemName))
    ensures ExistsByName(rows, itemName)
  {
    var k :| 0 <= k < |rows| && rows[k].itemNameLower == NameKey(itemName);
    var r := rows[k];
    assert NameIs(itemName)(r) by {
      SameKeySameLower(r.itemName, itemName);
      TrimOfTrimmed(itemName);
    }
    assert r in Filter(NameIs(itemName), rows) by {
      FilterMembers(NameIs(itemName), rows);
    }
  }

  /** Two trimmed names with the same key differ only in case. */
  lemma SameKeySameLower(a: string, b: string)
    requires IsTrimmed(a) && IsTrimmed(b)
    requires NameKey(a) == NameKey(b)
    ensures ToLower(a) == ToLower(b)
  {
    TrimOfTrimmed(a);
    TrimOfTrimmed(b);
    NameKeyIsLowerOfTrim(a);
    NameKeyIsLowerOfTrim(b);
  }

  /** A name that normalises like a stored one is always among the
      similar items, so adding it needs confirmation. */
  lemma SameNormalFormNeedsConfirmation(rows: seq<ItemRow>, itemName: string, r: ItemRow)
    requires r in rows
    requires StringSimilarity.Normalize(Some(itemName)) == StringSimilarity.Normalize(Some(r.itemName))
    ensures |SimilarItems(rows, itemName)| > 0
  {
    SimilarIncludesSameNormalForm(rows, itemName, SIMILARITY_THRESHOLD, r);
  }

  /** A delete removes the item with that identity and keeps every other
      stored item. */
  lemma DeleteKeepsOthers(rows: seq<ItemRow>, id: nat)
    ensures forall r :: r in Filter(IdIsNot(id), rows) <==> r in rows && r.id != id
  {
    var kept := Filter(IdIsNot(id), rows);
    FilterMembers(IdIsNot(id), rows);
    forall r | r in rows && r.id != id ensures r in kept {
      var k :| 0 <= k < |rows| && rows[k] == r;
    }
    forall r | r in kept ensures r in rows && r.id != id {
      var k :| 0 <= k < |kept| && kept[k] == r;
    }
  }
}
