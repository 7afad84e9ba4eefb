/** The home screen: the category tiles, the filtered recipe list and
    delete-with-confirmation, over the "recipes" slot of the store. */
module Home {
  import opened Records
  import opened Storage

  /** The distinguished "all" category. */
  const All: string := "Tümü"

  /** The names of the category tiles, in display order. */
  const Categories: seq<string> := ["Tümü", "Ana Yemek", "Tatlı", "İçecek", "Hamur İşi", "Atıştırmalık"]

  /** `getImageSource`: only an "http" string becomes a `{uri}`; a bundled
      asset passes through; anything else (absent, "", a local file path)
      gives `undefined`. */
  function GetImageSource(image: Image): (r: Option<ImageSource>)
    ensures image.Asset? ==> r == Some(Bundled(image.handle))
    ensures image.Str? && "http" <= image.s ==> r == Some(Uri(image.s))
    ensures r.None? <==> !image.Asset? && !(image.Str? && "http" <= image.s)
  {
    if !Truthy(image) then None
    else match image
      case Str(s) => if "http" <= s then Some(Uri(s)) else None
      case Asset(h) => Some(Bundled(h))
  }

  /** `filteredRecipes`: the whole list for "all", otherwise exactly the
      recipes of the selected category, each as often as in the list and in
      list order. */
  function FilterByCategory(recipes: seq<Recipe>, selected: string): (r: seq<Recipe>)
    ensures selected == All ==> r == recipes
    ensures forall x :: x in r <==> x in recipes && (selected == All || x.category == selected)
    ensures selected != All ==>
      forall x :: multiset(r)[x] == if x.category == selected then multiset(recipes)[x] else 0
    ensures IsSubsequence(r, recipes)
  {
    if selected == All then
      SubsequenceReflexive(recipes);
      recipes
    else
      var inCategory := (x: Recipe) => x.category == selected;
      FilterCounts(recipes, inCategory);
      FilterIsSubsequence(recipes, inCategory);
      Filter(recipes, inCategory)
  }

  class HomeScreen {
    const storage: AsyncStorage
    var recipes: seq<Recipe>
    var selectedCategory: string

    constructor (storage: AsyncStorage)
      ensures this.storage == storage
      ensures recipes == [] && selectedCategory == All
    {
      this.storage := storage;
      recipes := [];
      selectedCategory := All;
    }

    /** The list the screen shows. */
    function FilteredRecipes(): (r: seq<Recipe>)
      reads this
      ensures selectedCategory == All ==> r == recipes
      ensures forall x :: x in r <==> x in recipes && (selectedCategory == All || x.category == selectedCategory)
      ensures selectedCategory != All ==>
        forall x :: multiset(r)[x] == if x.category == selectedCategory then multiset(recipes)[x] else 0
      ensures IsSubsequence(r, recipes)
    {
      FilterByCategory(recipes, selectedCategory)
    }

    /** The "no recipes yet" text replaces the list exactly when the filtered
        list is empty. */
    function ShowsEmptyText(): (empty: bool)
      reads this
      ensures empty <==> forall x :: x in recipes ==> selectedCategory != All && x.category != selectedCategory
    {
      var shown := FilteredRecipes();
      assert |shown| > 0 ==> shown[0] in shown;
      |shown| == 0
    }

    /** Tapping a category tile. */
    method SelectCategory(name: string)
      requires name in Categories
      modifies this`selectedCategory
      ensures selectedCategory == name
    {
      selectedCategory := name;
    }

    /** `loadRecipes`, run on every focus: the snapshot is replaced only when
        the slot is present; an absent slot or a thrown error keeps it. */
    method LoadRecipes(readFails: bool)
      modifies this`recipes
      ensures !readFails && RecipesKey in storage.items ==> recipes == storage.items[RecipesKey]
      ensures readFails || RecipesKey !in storage.items ==> recipes == old(recipes)
    {
      var stored := storage.GetItem(RecipesKey, readFails);
      if stored.Found? {
        recipes := stored.list;
      }
    }

    /** `handleDelete`: on "Sil" the snapshot loses every recipe with `id`
        and the new snapshot is written over the "recipes" slot; on
        "Vazgeç" nothing happens. The write is not awaited inside a try, so
        a failing write leaves the store as it was but the snapshot updated. */
    method HandleDelete(id: string, confirmed: bool, writeFails: bool)
      modifies this`recipes, storage
      ensures !confirmed ==> recipes == old(recipes) && storage.items == old(storage.items)
      ensures confirmed ==> recipes == RemoveById(old(recipes), id)
      ensures confirmed && !writeFails ==> storage.items == old(storage.items)[RecipesKey := recipes]
      ensures writeFails ==> storage.items == old(storage.items)
      ensures OnlySlotChanged(old(storage.items), storage.items, RecipesKey)
    {
      if confirmed {
        var updated := RemoveById(recipes, id);
        recipes := updated;
        var _ := storage.SetItem(RecipesKey, updated, writeFails);
      }
    }
  }
}
