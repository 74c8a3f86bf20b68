/** The item table and its queries. The table is an in-memory sequence of
    rows in insertion order, each with the identity the database assigned;
    every HQL query becomes a filter followed by a stable sort. */
module ItemDao {
  import opened Wrappers
  import opened Text
  import opened Seqs
  import opened ItemEntity
  import StringSimilarity

  /** A stored item. */
  datatype ItemRow = ItemRow(
    id: nat,
    itemName: string,
    itemNameLower: string,
    description: Option<string>,
    createdDate: int)

  /** Why `save` failed: an entity that already has an identity, a null
      name (`nullable = false`), or a key that is already taken (the unique
      constraint on `item_name_lower`). */
  datatype SaveError = AlreadyPersisted | NullItemName | DuplicateItemName

  /** No two rows share a case-folded name. */
  predicate KeysUnique(rows: seq<ItemRow>)
  {
    forall i, j :: 0 <= i < j < |rows| ==> rows[i].itemNameLower != rows[j].itemNameLower
  }

  /** Some row already holds the case-folded name `key`. */
  predicate KeyTaken(rows: seq<ItemRow>, key: string)
  {
    exists k :: 0 <= k < |rows| && rows[k].itemNameLower == key
  }

  /** `ORDER BY i.itemName`. */
  predicate ByName(a: ItemRow, b: ItemRow)
  {
    StrLeq(a.itemName, b.itemName)
  }

  /** `LOWER(i.itemName) = LOWER(:name)` with `:name` the trimmed input. */
  function NameIs(itemName: string): ItemRow -> bool
  {
    (r: ItemRow) => ToLower(r.itemName) == ToLower(Trim(itemName))
  }

  /** `LOWER(i.itemName) LIKE LOWER('%' + term + '%')` with the trimmed term. */
  function NameContains(searchTerm: string): ItemRow -> bool
  {
    (r: ItemRow) => Contains(ToLower(r.itemName), ToLower(Trim(searchTerm)))
  }

  /** The `areSimilar` test of a stored item against a candidate name. */
  ghost function SimilarTo(itemName: string, threshold: real): ItemRow -> bool
  {
    (r: ItemRow) => StringSimilarity.Similar(Some(itemName), Some(r.itemName), threshold)
  }

  /** `i.id <> :id`: every row but the one with identity `id`. */
  function IdIsNot(id: nat): ItemRow -> bool
  {
    (r: ItemRow) => r.id != id
  }

  function FindById(rows: seq<ItemRow>, id: nat): (r: Option<ItemRow>)
    ensures r.Some? ==> r.value in rows && r.value.id == id
    ensures r.None? ==> forall k :: 0 <= k < |rows| ==> rows[k].id != id
  {
    if |rows| == 0 then None
    else if rows[0].id == id then Some(rows[0])
    else FindById(rows[1..], id)
  }

  /** `findByName`: the item whose lower-cased name equals the lower-cased
      trimmed input, or null. */
  function FindByName(rows: seq<ItemRow>, itemName: string): (r: Option<ItemRow>)
    ensures r.Some? ==> r.value in rows && NameIs(itemName)(r.value)
    ensures r.None? ==> forall k :: 0 <= k < |rows| ==> !NameIs(itemName)(rows[k])
  {
    if |rows| == 0 then None
    else if NameIs(itemName)(rows[0]) then Some(rows[0])
    else FindByName(rows[1..], itemName)
  }

  /** `existsByName`: `COUNT(..) > 0` over the same condition. */
  predicate ExistsByName(rows: seq<ItemRow>, itemName: string)
  {
    |Filter(NameIs(itemName), rows)| > 0
  }

  /** `findAll`: every item, by name. */
  function FindAll(rows: seq<ItemRow>): seq<ItemRow>
  {
    Sort(ByName, rows)
  }

  /** `searchItems`: the items whose name contains the term, by name. */
  function SearchItems(rows: seq<ItemRow>, searchTerm: string): seq<ItemRow>
  {
    Sort(ByName, Filter(NameContains(searchTerm), rows))
  }

  class ItemStore {
    var rows: seq<ItemRow>
    var nextId: nat

    /** Identities are assigned in increasing order, every row carries the
        key of its own name, and keys are unique. */
    ghost predicate Valid()
      reads this
    {
      (forall i :: 0 <= i < |rows| ==> rows[i].id < nextId) &&
      (forall i, j :: 0 <= i < j < |rows| ==> rows[i].id < rows[j].id) &&
      (forall i :: 0 <= i < |rows| ==> rows[i].itemNameLower == NameKey(rows[i].itemName)) &&
      KeysUnique(rows)
    }

    constructor ()
      ensures Valid() && rows == [] && nextId == 0
    {
      rows := [];
      nextId := 0;
    }

    /** `save`: persist runs the hook, then inserts the row under a fresh
        identity unless a constraint refuses it. */
    method Save(item: Item) returns (outcome: Outcome<SaveError>)
      requires Valid()
      modifies this, item`id, item`itemNameLower
      ensures Valid()
      ensures old(item.id).Some? ==>
        outcome == Fail(AlreadyPersisted) && item.itemNameLower == old(item.itemNameLower)
      ensures old(item.id).None? ==> item.NameInSync()
      ensures old(item.id).None? && item.itemName.None? ==> outcome == Fail(NullItemName)
      ensures old(item.id).None? && item.itemName.Some? ==>
        outcome == if KeyTaken(old(rows), NameKey(item.itemName.value)) then Fail(DuplicateItemName) else Pass
      ensures outcome.Fail? ==> rows == old(rows) && nextId == old(nextId)
      ensures outcome.Fail? ==> item.id == old(item.id)
      ensures outcome.Pass? ==>
        item.id == Some(old(nextId)) &&
        rows == old(rows) + [ItemRow(old(nextId), item.itemName.value, NameKey(item.itemName.value),
                                     item.description, item.createdDate)]
    {
      if item.id.Some? {
        return Fail(AlreadyPersisted);
      }
      outcome := Persist(item);
    }

    /** `save` of an entity without an identity: the hook, then the insert. */
    method Persist(item: Item) returns (outcome: Outcome<SaveError>)
      requires Valid() && item.id.None?
      modifies this, item`id, item`itemNameLower
      ensures Valid() && item.NameInSync()
      ensures item.itemName.None? ==> outcome == Fail(NullItemName)
      ensures item.itemName.Some? ==>
        outcome == if KeyTaken(old(rows), NameKey(item.itemName.value)) then Fail(DuplicateItemName) else Pass
      ensures outcome.Fail? ==> rows == old(rows) && nextId == old(nextId) && item.id.None?
      ensures outcome.Pass? ==>
        item.id == Some(old(nextId)) &&
        rows == old(rows) + [ItemRow(old(nextId), item.itemName.value, NameKey(item.itemName.value),
                                     item.description, item.createdDate)]
    {
      item.UpdateItemNameLower();
      if item.itemName.None? {
        return Fail(NullItemName);
      }
      var inserted := Insert(item.itemName.value, item.description, item.createdDate);
      if inserted.Failure? {
        return Fail(inserted.error);
      }
      item.id := Some(inserted.value);
      outcome := Pass;
    }

    /** The INSERT statement: a new row under the next identity, refused
        when its key is already taken. */
    method Insert(itemName: string, description: Option<string>, createdDate: int)
      returns (r: Result<nat, SaveError>)
      requires Valid()
      modifies this
      ensures Valid()
      ensures r == if KeyTaken(old(rows), NameKey(itemName)) then Failure(DuplicateItemName)
                   else Success(old(nextId))
      ensures r.Failure? ==> rows == old(rows) && nextId == old(nextId)
      ensures r.Success? ==>
        rows == old(rows) + [ItemRow(old(nextId), itemName, NameKey(itemName), description, createdDate)]
    {
      var key := NameKey(itemName);
      if KeyTaken(rows, key) {
        return Failure(DuplicateItemName);
      }
      var row := ItemRow(nextId, itemName, key, description, createdDate);
      AppendKeepsValid(rows, nextId, row);
      r := Success(nextId);
      rows := rows + [row];
      nextId := nextId + 1;
    }

    /** `delete`: removes the row with the item's identity; every other row
        stays, in order. */
    method Delete(id: nat)
      requires Valid()
      modifies this
      ensures Valid() && nextId == old(nextId)
      ensures rows == Filter(IdIsNot(id), old(rows))
    {
      DeleteKeepsValid(rows, nextId, id);
      rows := Filter(IdIsNot(id), rows);
    }

    /** `findSimilarItems`: walks `findAll` and keeps the similar names. */
    method FindSimilarItems(itemName: string, similarityThreshold: real) returns (similarItems: seq<ItemRow>)
      ensures similarItems == Filter(SimilarTo(itemName, similarityThreshold), FindAll(rows))
    {
      var allItems := FindAll(rows);
      similarItems := [];
      var i := 0;
      while i < |allItems|
        invariant 0 <= i <= |allItems|
        invariant similarItems == Filter(SimilarTo(itemName, similarityThreshold), allItems[..i])
      {
        similarItems := KeepIfSimilar(itemName, similarityThreshold, allItems, i, similarItems);
        i := i + 1;
      }
      assert allItems[..i] == allItems;
    }
  }

  /** One turn of the loop in `findSimilarItems`: the item at `i` is added
      to the similar items found so far exactly when its name is similar. */
  method KeepIfSimilar(itemName: string, similarityThreshold: real, allItems: seq<ItemRow>, i: nat,
                       similarItems: seq<ItemRow>) returns (r: seq<ItemRow>)
    requires i < |allItems|
    requires similarItems == Filter(SimilarTo(itemName, similarityThreshold), allItems[..i])
    ensures r == Filter(SimilarTo(itemName, similarityThreshold), allItems[..i + 1])
  {
    var item := allItems[i];
    var similar := StringSimilarity.AreSimilar(Some(itemName), Some(item.itemName), similarityThreshold);
    FilterStep(SimilarTo(itemName, similarityThreshold), allItems, i, similarItems, similar);
    r := similarItems;
    if similar {
      r := r + [item];
    }
  }

  /** Appending a row with a fresh identity and a fresh key keeps the
      invariant of the table. */
  lemma AppendKeepsValid(rows: seq<ItemRow>, nextId: nat, row: ItemRow)
    requires forall i :: 0 <= i < |rows| ==> rows[i].id < nextId
    requires forall i, j :: 0 <= i < j < |rows| ==> rows[i].id < rows[j].id
    requires forall i :: 0 <= i < |rows| ==> rows[i].itemNameLower == NameKey(rows[i].itemName)
    requires KeysUnique(rows)
    requires row.id == nextId && row.itemNameLower == NameKey(row.itemName)
    requires !KeyTaken(rows, row.itemNameLower)
    ensures var rs := rows + [row];
      (forall i :: 0 <= i < |rs| ==> rs[i].id < nextId + 1) &&
      (forall i, j :: 0 <= i < j < |rs| ==> rs[i].id < rs[j].id) &&
      (forall i :: 0 <= i < |rs| ==> rs[i].itemNameLower == NameKey(rs[i].itemName)) &&
      KeysUnique(rs)
  {
    var rs := rows + [row];
    forall i | 0 <= i < |rs| ensures rs[i].id < nextId + 1 && rs[i].itemNameLower == NameKey(rs[i].itemName) {
      if i < |rows| {
        assert rs[i] == rows[i];
      } else {
        assert rs[i] == row;
      }
    }
    forall i, j | 0 <= i < j < |rs| ensures rs[i].id < rs[j].id && rs[i].itemNameLower != rs[j].itemNameLower {
      assert rs[i] == rows[i];
      if j == |rows| {
        assert rs[j] == row;
        assert rows[i].itemNameLower != row.itemNameLower;
      } else {
        assert rs[j] == rows[j];
      }
    }
  }

  /** Removing the rows of one identity keeps the invariant of the table. */
  lemma DeleteKeepsValid(rows: seq<ItemRow>, nextId: nat, id: nat)
    requires forall i :: 0 <= i < |rows| ==> rows[i].id < nextId
    requires forall i, j :: 0 <= i < j < |rows| ==> rows[i].id < rows[j].id
    requires forall i :: 0 <= i < |rows| ==> rows[i].itemNameLower == NameKey(rows[i].itemName)
    requires KeysUnique(rows)
    ensures var kept := Filter(IdIsNot(id), rows);
      (forall i :: 0 <= i < |kept| ==> kept[i].id < nextId) &&
      (forall i, j :: 0 <= i < j < |kept| ==> kept[i].id < kept[j].id) &&
      (forall i :: 0 <= i < |kept| ==> kept[i].itemNameLower == NameKey(kept[i].itemName)) &&
      KeysUnique(kept)
  {
    FilterMembers(IdIsNot(id), rows);
    SubsequenceKeepsOrder(id, rows);
  }

  /** Removing rows keeps the others in their order, so every property of
      the store that holds pairwise or row by row survives a delete. */
  lemma SubsequenceKeepsOrder(id: nat, rows: seq<ItemRow>)
    requires (forall i, j :: 0 <= i < j < |rows| ==> rows[i].id < rows[j].id)
    requires KeysUnique(rows)
    ensures var kept := Filter(IdIsNot(id), rows);
      (forall i, j :: 0 <= i < j < |kept| ==> kept[i].id < kept[j].id) && KeysUnique(kept)
  {
    SubsequencePairs(id, rows);
  }

  lemma {:induction false} SubsequencePairs(id: nat, rows: seq<ItemRow>)
    requires (forall i, j :: 0 <= i < j < |rows| ==> rows[i].id < rows[j].id)
    requires KeysUnique(rows)
    ensures var kept := Filter(IdIsNot(id), rows);
      (forall i, j :: 0 <= i < j < |kept| ==> kept[i].id < kept[j].id) && KeysUnique(kept)
    decreases |rows|
  {
    if |rows| > 0 {
      var init, last := rows[..|rows| - 1], rows[|rows| - 1];
      SubsequencePairs(id, init);
      var p := IdIsNot(id);
      var ki := Filter(p, init);
      FilterMembers(p, init);
      if p(last) {
        var kept := ki + [last];
        forall i | 0 <= i < |ki| ensures ki[i].id < last.id && ki[i].itemNameLower != last.itemNameLower {
          var k :| 0 <= k < |init| && init[k] == ki[i];
          assert init[k] == rows[k];
        }
        forall i, j | 0 <= i < j < |kept|
          ensures kept[i].id < kept[j].id && kept[i].itemNameLower != kept[j].itemNameLower
        {
          assert kept[i] == ki[i];
          if j < |ki| {
            assert kept[j] == ki[j];
          }
        }
        assert Filter(p, rows) == kept;
      } else {
        assert Filter(p, rows) == ki;
      }
    }
  }

  // ---------------------------------------------------------------------
  // Properties of the queries

  /** Under unique keys at most one row matches a name, so `uniqueResult`
      never sees two rows: the match that `findByName` returns is the only one. */
  lemma FindByNameUnique(rows: seq<ItemRow>, itemName: string, k: nat)
    requires forall i :: 0 <= i < |rows| ==> rows[i].itemNameLower == NameKey(rows[i].itemName)
    requires KeysUnique(rows)
    requires k < |rows| && NameIs(itemName)(rows[k])
    ensures FindByName(rows, itemName) == Some(rows[k])
  {
    var r := FindByName(rows, itemName);
    var j :| 0 <= j < |rows| && rows[j] == r.value;
    SameLowerSameKey(rows[j].itemName, rows[k].itemName);
    assert rows[j].itemNameLower == rows[k].itemNameLower;
    assert j == k;
  }

  /** `existsByName` holds exactly when `findByName` finds something. */
  lemma ExistsIffFound(rows: seq<ItemRow>, itemName: string)
    ensures ExistsByName(rows, itemName) <==> FindByName(rows, itemName).Some?
  {
    var matches := Filter(NameIs(itemName), rows);
    FilterMembers(NameIs(itemName), rows);
    if FindByName(rows, itemName).Some? {
      var k :| 0 <= k < |rows| && rows[k] == FindByName(rows, itemName).value;
      assert rows[k] in matches;
    }
    if |matches| > 0 {
      var k :| 0 <= k < |rows| && rows[k] == matches[0];
      assert NameIs(itemName)(rows[k]);
    }
  }

  lemma ByNameTotalPreorder()
    ensures TotalPreorder(ByName)
  {
    forall a: ItemRow, b: ItemRow ensures ByName(a, b) || ByName(b, a) {
      StrLeqTotal(a.itemName, b.itemName);
    }
    forall a: ItemRow, b: ItemRow, c: ItemRow | ByName(a, b) && ByName(b, c) ensures ByName(a, c) {
      StrLeqTransitive(a.itemName, b.itemName, c.itemName);
    }
  }

  /** `findAll` lists every stored item exactly once, ordered by name. */
  lemma FindAllSortedPermutation(rows: seq<ItemRow>)
    ensures multiset(FindAll(rows)) == multiset(rows)
    ensures SortedBy(ByName, FindAll(rows))
  {
    ByNameTotalPreorder();
    SortPermutation(ByName, rows);
    SortSorted(ByName, rows);
  }

  /** `searchItems` is `findAll` restricted to the names containing the
      term, and it keeps exactly those items. */
  lemma SearchIsFilteredFindAll(rows: seq<ItemRow>, searchTerm: string)
    ensures SearchItems(rows, searchTerm) == Filter(NameContains(searchTerm), FindAll(rows))
    ensures multiset(SearchItems(rows, searchTerm)) == multiset(Filter(NameContains(searchTerm), rows))
    ensures SortedBy(ByName, SearchItems(rows, searchTerm))
  {
    ByNameTotalPreorder();
    FilterSort(ByName, NameContains(searchTerm), rows);
    SortPermutation(ByName, Filter(NameContains(searchTerm), rows));
    SortSorted(ByName, Filter(NameContains(searchTerm), rows));
  }

  /** An empty search term matches every item, so the search lists them all. */
  lemma BlankSearchFindsAll(rows: seq<ItemRow>, searchTerm: string)
    requires Trim(searchTerm) == []
    ensures SearchItems(rows, searchTerm) == FindAll(rows)
  {
    forall r: ItemRow ensures NameContains(searchTerm)(r) {
      assert StartsWith(ToLower(r.itemName), []);
    }
    FilterAll(NameContains(searchTerm), rows);
  }

  /** Every stored item whose name normalises like the candidate is among
      the similar items, whatever the threshold. */
  lemma SimilarIncludesSameNormalForm(rows: seq<ItemRow>, itemName: string, threshold: real, r: ItemRow)
    requires r in rows
    requires StringSimilarity.Normalize(Some(itemName)) == StringSimilarity.Normalize(Some(r.itemName))
    ensures r in Filter(SimilarTo(itemName, threshold), FindAll(rows))
  {
    FindAllSortedPermutation(rows);
    assert r in multiset(FindAll(rows));
    var k :| 0 <= k < |FindAll(rows)| && FindAll(rows)[k] == r;
    FilterMembers(SimilarTo(itemName, threshold), FindAll(rows));
  }
}
