/** Properties that tie the screens together through the shared store. */
module App {
  import opened Records
  import opened Storage
  import Text
  import Home
  import AddRecipe
  import Favorites
  import Detail

  /** Every chip of the add form is a category tile of the home screen and
      none of them is the "all" tile. */
  lemma ChipsAreHomeTiles()
    ensures forall c :: c in AddRecipe.Categories ==> c in Home.Categories && c != Home.All
  {
  }

  /** On the values its records can hold, the favorites screen turns an
      image into the same source as the home screen. */
  lemma FavoritesImageAgreesWithHome(image: Image)
    requires !image.Asset?
    ensures Favorites.GetImageSource(image) == Home.GetImageSource(image)
  {
  }

  /** A recipe in the list is shown under "all" and under its own
      category's tile. */
  lemma ShownUnderItsCategory(recipes: seq<Recipe>, r: Recipe)
    requires r in recipes
    ensures r in Home.FilterByCategory(recipes, Home.All)
    ensures r in Home.FilterByCategory(recipes, r.category)
  {
  }

  /** A record the add form can save opens on the detail screen with every
      section filled: bulleted ingredients, the instructions verbatim and
      both cooking boxes. */
  lemma SavedRecipeRendersFully(id: string, d: AddRecipe.Draft)
    requires AddRecipe.Complete(d)
    ensures var v := Detail.Render(AddRecipe.NewRecipe(id, d));
      && Text.Split(v.ingredients) == Detail.Bulleted(Text.Split(d.ingredients))
      && v.instructions == d.instructions
      && v.temperatureBox == Some(d.temperature + Detail.Celsius)
      && v.timeBox == Some(d.time + Detail.Minutes)
  {
  }

  /** Fill the form and save into a store with no prior writes: the
      "recipes" slot then holds exactly the new record. */
  method SaveIntoEmptyStore() returns (storage: AsyncStorage, soup: Recipe)
    ensures fresh(storage)
    ensures storage.items == map[RecipesKey := [soup]]
    ensures soup.id == "1" && soup.category == "Ana Yemek"
  {
    storage := new AsyncStorage();
    var form := new AddRecipe.AddRecipeScreen(storage);
    form.EditText(AddRecipe.Title, "Çorba");
    form.ChooseCategory("Ana Yemek");
    form.EditText(AddRecipe.Ingredients, "su\ntuz");
    form.EditText(AddRecipe.Instructions, "kaynat");
    form.EditText(AddRecipe.Temperature, "100");
    form.EditText(AddRecipe.Time, "20");
    var outcome := form.HandleSave("1", false, false);
    assert outcome == AddRecipe.Saved;
    soup := AddRecipe.NewRecipe("1", form.Form());
    assert [] + [soup] == [soup];
  }

  /** The saved recipe appears on the home screen, disappears under another
      category, and is gone from the store after a confirmed delete, which
      leaves "favorites" absent. */
  method ShowThenDelete()
  {
    var storage, soup := SaveIntoEmptyStore();
    var home := new Home.HomeScreen(storage);
    home.LoadRecipes(false);
    assert home.FilteredRecipes() == [soup];
    home.SelectCategory("Tatlı");
    assert home.ShowsEmptyText();
    home.HandleDelete("1", true, false);
    assert storage.items[RecipesKey] == [];
    assert FavoritesKey !in storage.items;
  }

  /** Three saves leave the three records in the order they were saved. */
  method SaveThreeInOrder()
  {
    var storage := new AsyncStorage();
    var form := new AddRecipe.AddRecipeScreen(storage);
    form.EditText(AddRecipe.Title, "Kek");
    form.ChooseCategory("Tatlı");
    form.EditText(AddRecipe.Ingredients, "un");
    form.EditText(AddRecipe.Instructions, "pişir");
    form.EditText(AddRecipe.Temperature, "180");
    form.EditText(AddRecipe.Time, "40");
    var first := form.HandleSave("1", false, false);
    var second := form.HandleSave("2", false, false);
    var third := form.HandleSave("3", false, false);
    var draft := form.Form();
    assert storage.items[RecipesKey] ==
      [AddRecipe.NewRecipe("1", draft), AddRecipe.NewRecipe("2", draft), AddRecipe.NewRecipe("3", draft)];
  }
}
