/** The catalogue entry of a part or service item. Its display name and the
    case-folded copy that carries the uniqueness constraint are kept in step
    by the constructor, by `setItemName` and by the persistence hook. */
module ItemEntity {
  import opened Wrappers
  import opened Text

  /** The case-folded name stored in `item_name_lower`:
      `itemName.toLowerCase().trim()`. */
  function NameKey(itemName: string): (k: string)
    ensures |k| <= |itemName|
    ensures forall i :: 0 <= i < |k| ==> !IsUpper(k[i])
    ensures IsTrimmed(k)
  {
    TrimIsTrimmed(ToLower(itemName));
    Trim(ToLower(itemName))
  }

  /** A case-folded name folds to itself. */
  lemma NameKeyIdempotent(itemName: string)
    ensures NameKey(NameKey(itemName)) == NameKey(itemName)
  {
    var k := NameKey(itemName);
    assert ToLower(k) == k;
    TrimOfTrimmed(k);
  }

  /** Trimming before or after lower-casing gives the same key, so the key
      of a name is the lower-cased trimmed name that the name queries use. */
  lemma NameKeyIsLowerOfTrim(itemName: string)
    ensures NameKey(itemName) == ToLower(Trim(itemName))
  {
    TrimLowerCommute(itemName);
  }

  /** Two names with the same key differ at most in case and surrounding
      white space; in particular equal lower-cased names share a key. */
  lemma SameLowerSameKey(a: string, b: string)
    requires ToLower(a) == ToLower(b)
    ensures NameKey(a) == NameKey(b)
  {
  }

  class Item {
    var id: Option<nat>
    var itemName: Option<string>
    var itemNameLower: Option<string>
    var description: Option<string>
    var createdDate: int

    /** The relation that the constructor, `setItemName` and the hook keep. */
    ghost predicate NameInSync()
      reads this
    {
      itemName.Some? ==> itemNameLower == Some(NameKey(itemName.value))
    }

    /** `Item()`: only the creation time is set. */
    constructor Blank(now: int)
      ensures id == None && itemName == None && itemNameLower == None
      ensures description == None && createdDate == now
      ensures NameInSync()
    {
      id := None;
      itemName := None;
      itemNameLower := None;
      description := None;
      createdDate := now;
    }

    /** `Item(itemName, description)`. */
    constructor (itemName: string, description: Option<string>, now: int)
      ensures id == None
      ensures this.itemName == Some(itemName) && itemNameLower == Some(NameKey(itemName))
      ensures this.description == description && createdDate == now
      ensures NameInSync()
    {
      id := None;
      this.itemName := Some(itemName);
      itemNameLower := Some(NameKey(itemName));
      this.description := description;
      createdDate := now;
    }

    /** The pre-persist and pre-update hook. */
    method UpdateItemNameLower()
      modifies this`itemNameLower
      ensures NameInSync()
      ensures itemName.None? ==> itemNameLower == old(itemNameLower)
    {
      if itemName.Some? {
        itemNameLower := Some(NameKey(itemName.value));
      }
    }

    method SetItemName(itemName: string)
      modifies this`itemName, this`itemNameLower
      ensures this.itemName == Some(itemName) && itemNameLower == Some(NameKey(itemName))
      ensures NameInSync()
    {
      this.itemName := Some(itemName);
      itemNameLower := Some(NameKey(itemName));
    }

    method SetDescription(description: Option<string>)
      modifies this`description
      ensures this.description == description
    {
      this.description := description;
    }

    method SetCreatedDate(createdDate: int)
      modifies this`createdDate
      ensures this.createdDate == createdDate
    {
      this.createdDate := createdDate;
    }
  }
}
