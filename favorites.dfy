/** The favorites screen: its list, loaded from the "favorites" slot, and
    delete-with-confirmation. */
module Favorites {
  import opened Records
  import opened Storage

  /** `getImageSource` of this screen, whose records type `image` as an
      optional string: only an "http" string becomes a `{uri}`. */
  function GetImageSource(image: Image): (r: Option<ImageSource>)
    requires !image.Asset?
    ensures r.Some? <==> image.Str? && "http" <= image.s
    ensures r.Some? ==> r.value == Uri(image.s)
  {
    if !Truthy(image) then None
    else if "http" <= image.s then Some(Uri(image.s))
    else None
  }

  class FavoritesScreen {
    const storage: AsyncStorage
    var favorites: seq<Recipe>

    constructor (storage: AsyncStorage)
      ensures this.storage == storage && favorites == []
    {
      this.storage := storage;
      favorites := [];
    }

    /** "Henüz favori tarif eklenmemiş!" replaces the list exactly when the
        list has no entry. */
    function ShowsEmptyText(): (empty: bool)
      reads this
      ensures empty <==> forall x :: x !in favorites
    {
      assert |favorites| > 0 ==> favorites[0] in favorites;
      |favorites| == 0
    }

    /** `loadFavorites`, run on every focus: the list is replaced only when
        the slot is present; an absent slot or a thrown error keeps it. */
    method LoadFavorites(readFails: bool)
      modifies this`favorites
      ensures !readFails && FavoritesKey in storage.items ==> favorites == storage.items[FavoritesKey]
      ensures readFails || FavoritesKey !in storage.items ==> favorites == old(favorites)
    {
      var stored := storage.GetItem(FavoritesKey, readFails);
      if stored.Found? {
        favorites := stored.list;
      }
    }

    /** `handleDeleteFavorite`: on "Sil" the list loses every entry with `id`
        and the new list is written over the "favorites" slot; on "Vazgeç"
        nothing happens. A failing write leaves the store as it was but the
        list updated. */
    method HandleDeleteFavorite(id: string, confirmed: bool, writeFails: bool)
      modifies this`favorites, storage
      ensures !confirmed ==> favorites == old(favorites) && storage.items == old(storage.items)
      ensures confirmed ==> favorites == RemoveById(old(favorites), id)
      ensures confirmed && !writeFails ==> storage.items == old(storage.items)[FavoritesKey := favorites]
      ensures writeFails ==> storage.items == old(storage.items)
      ensures OnlySlotChanged(old(storage.items), storage.items, FavoritesKey)
    {
      if confirmed {
        var updated := RemoveById(favorites, id);
        favorites := updated;
        var _ := storage.SetItem(FavoritesKey, updated, writeFails);
      }
    }
  }
}
