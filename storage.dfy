/** The device key-value store the screens share. Each slot holds a list of
    recipes; the JSON encoding written with `JSON.stringify` and read back
    with `JSON.parse` is taken to be the identity. Whether a call to the
    store (or the parse of what it returned) throws is decided outside the
    program, so it comes in as a parameter. */
module Storage {
  import opened Records

  const RecipesKey: string := "recipes"
  const FavoritesKey: string := "favorites"

  /** What a `getItem` followed by `JSON.parse` yields: a thrown error, the
      `null` of an absent key, or the stored list. */
  datatype Fetched = Failed | Missing | Found(list: seq<Recipe>)

  /** The slot under `key`, if any. */
  function Lookup(items: map<string, seq<Recipe>>, key: string): (slot: Option<seq<Recipe>>)
  {
    if key in items then Some(items[key]) else None
  }

  /** `after` differs from `before` at most in the slot under `key`. */
  ghost predicate OnlySlotChanged(before: map<string, seq<Recipe>>, after: map<string, seq<Recipe>>, key: string)
  {
    after - {key} == before - {key}
  }

  /** Another key than the one written keeps its slot, present or not. */
  lemma OtherSlotKept(before: map<string, seq<Recipe>>, after: map<string, seq<Recipe>>, key: string, other: string)
    requires OnlySlotChanged(before, after, key)
    requires other != key
    ensures Lookup(after, other) == Lookup(before, other)
  {
    assert other in after <==> other in after - {key};
    assert other in before <==> other in before - {key};
    if other in after {
      assert after[other] == (after - {key})[other];
    }
  }

  class AsyncStorage {
    var items: map<string, seq<Recipe>>

    /** A store with no prior writes. */
    constructor ()
      ensures items == map[]
    {
      items := map[];
    }

    /** `JSON.parse(await AsyncStorage.getItem(key))`. */
    method GetItem(key: string, fails: bool) returns (r: Fetched)
      ensures r.Failed? <==> fails
      ensures r.Missing? <==> !fails && key !in items
      ensures r.Found? ==> key in items && r.list == items[key]
    {
      if fails {
        r := Failed;
      } else if key in items {
        r := Found(items[key]);
      } else {
        r := Missing;
      }
    }

    /** `await AsyncStorage.setItem(key, JSON.stringify(value))`: the slot is
        replaced whole, or nothing changes when the write throws. */
    method SetItem(key: string, value: seq<Recipe>, fails: bool) returns (ok: bool)
      modifies this
      ensures ok <==> !fails
      ensures ok ==> items == old(items)[key := value]
      ensures !ok ==> items == old(items)
      ensures OnlySlotChanged(old(items), items, key)
    {
      ok := !fails;
      if ok {
        items := items[key := value];
      }
    }
  }
}
