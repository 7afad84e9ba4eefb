# Kitchenary recipe store, modelled in Dafny

Kitchenary is a React Native recipe app. Its logic is a small recipe
collection kept in the device's key-value store under two keys: `"recipes"`
and `"favorites"`. Each slot holds the whole list. The screens use the
collection as follows:

- The add screen validates a form, builds a record and appends it to
  `"recipes"` with a read-append-write.
- The home screen loads `"recipes"` on focus and filters it by category.
  Its delete removes every record with a given id from its in-memory list
  and writes that list back.
- The favorites screen loads `"favorites"` on focus and deletes the same way.
- The detail screen formats one record for display. It puts a bullet on
  each ingredient line, shows placeholders for empty fields, and adds unit
  suffixes to temperature and time.

The model has one module per screen plus three shared modules:

- `Records`: the `Recipe` record, the `Image` variant, and the
  order-preserving `filter` with its properties.
- `Text`: `split("\n")` and `join("\n")`, and the proof that each undoes
  the other.
- `Storage`: the key-value store as a class over a map from keys to recipe
  lists.
- `Home`, `AddRecipe`, `Favorites`: classes whose fields are the screens'
  React state and whose methods are the screens' handlers.
- `Detail`: pure functions from a recipe to what the detail screen shows.
- `App`: properties that link the screens through the shared store, and two
  walk-throughs.

The code behaves as follows where one might expect otherwise:

- Loading does not propagate a read or parse error. The load handlers catch
  it and keep the list they had.
- Delete does not re-read the store. It writes the screen's own snapshot
  over the slot.
- Nothing checks that ids are unique. The id is the save-time timestamp,
  taken as a parameter.
- The category labels are the app's Turkish ones. `"Tümü"` is the
  distinguished "all" tile.

## Model

| member | source | states |
|---|---|---|
| Records.Truthy | src/screens/HomeScreen.tsx:45 | an `image` value is falsy exactly when it is absent or the empty string; every asset and every other string is truthy |
| Records.Filter | src/screens/HomeScreen.tsx:87 | an element is in `s.filter(p)` exactly when it is in `s` and passes `p`; the result is never longer than `s` |
| Records.FilterIsSubsequence | src/screens/HomeScreen.tsx:87 | the filtered list is a subsequence of the original (relative order kept) |
| Records.FilterCounts | src/screens/HomeScreen.tsx:87 | every element that passes occurs in the result as often as in the input; no element that fails occurs at all |
| Records.FilterAllPass | src/screens/FavoritesScreen.tsx:54 | a filter that rejects no element returns the list unchanged |
| Records.RemoveById | src/screens/HomeScreen.tsx:76 | `filter((r) => r.id !== id)` leaves no record with that id, keeps every other record with its multiplicity, and keeps their order |
| Records.RemoveAbsentId | src/screens/HomeScreen.tsx:76 | removing an id no record carries gives back the same list |
| Records.RemoveIdempotent | src/screens/FavoritesScreen.tsx:54 | removing the same id twice equals removing it once |
| Text.Split | src/screens/RecipeDetailScreen.tsx:66 | `split("\n")` yields at least one piece, and no piece contains a newline |
| Text.Join | src/screens/RecipeDetailScreen.tsx:68 | `join("\n")` of no lines is ""; the text starts with the first line, and a newline follows it when there are two or more lines |
| Text.JoinSplit | src/screens/RecipeDetailScreen.tsx:66-68 | joining the pieces of a split with "\n" gives back the original string |
| Text.SplitJoin | src/screens/RecipeDetailScreen.tsx:66-68 | splitting a "\n"-join of at least one newline-free line gives back those lines |
| Storage.OtherSlotKept | src/screens/AddRecipeScreen.tsx:85 | after a write that changes only one key, every other key is present or absent as before, with the same list |
| Storage.AsyncStorage.constructor | src/screens/AddRecipeScreen.tsx:81-82 | a store with no prior writes holds no key, so every read of it answers null |
| Storage.AsyncStorage.GetItem | src/screens/HomeScreen.tsx:59-60 | a read either throws, finds the key absent (null), or returns exactly the stored list |
| Storage.AsyncStorage.SetItem | src/screens/AddRecipeScreen.tsx:85 | a write replaces the whole slot under its key and changes no other key; a failing write changes nothing |
| Home.GetImageSource | src/screens/HomeScreen.tsx:42-50 | an asset passes through unchanged; a string starting with "http" becomes `{uri: s}`; an absent image, "" or any other string (a local path) gives `undefined` |
| Home.FilterByCategory | src/screens/HomeScreen.tsx:84-87 | "Tümü" gives the whole list unchanged; any other category gives exactly the recipes of that category, each as often as in the list, as a subsequence of it |
| Home.HomeScreen.constructor | src/screens/HomeScreen.tsx:53-54 | the screen starts with an empty list and the "Tümü" tile selected |
| Home.HomeScreen.FilteredRecipes | src/screens/HomeScreen.tsx:84-87 | the shown list holds exactly the recipes of the selected category (all recipes for "Tümü"), each as often as in the list, in list order |
| Home.HomeScreen.ShowsEmptyText | src/screens/HomeScreen.tsx:163-164 | the "no recipes yet" text appears exactly when no recipe belongs to the selected category |
| Home.HomeScreen.SelectCategory | src/screens/HomeScreen.tsx:124-128 | tapping a tile selects that tile's name |
| Home.HomeScreen.LoadRecipes | src/screens/HomeScreen.tsx:57-64 | the list becomes the stored "recipes" list when that key is present; an absent key or a thrown error keeps the list |
| Home.HomeScreen.HandleDelete | src/screens/HomeScreen.tsx:69-82 | cancel changes nothing; confirm removes the id from the in-memory list and, unless the write throws, stores that list under "recipes"; no other key changes |
| AddRecipe.Complete | src/screens/AddRecipeScreen.tsx:64 | the save check passes exactly when title, category, ingredients, instructions, temperature and time are all non-empty; the image is not checked |
| AddRecipe.NewRecipe | src/screens/AddRecipeScreen.tsx:69-78 | the record carries the given id and copies the form's title, category, ingredients, instructions, temperature, time and image verbatim |
| AddRecipe.StoredOrEmpty | src/screens/AddRecipeScreen.tsx:81-82 | an absent "recipes" key counts as the empty list; a present one gives the stored list |
| AddRecipe.AddRecipeScreen.constructor | src/screens/AddRecipeScreen.tsx:20-26 | the form starts with six empty text fields and no image |
| AddRecipe.AddRecipeScreen.EditText | src/screens/AddRecipeScreen.tsx:123-179 | typing in one input changes that field only |
| AddRecipe.AddRecipeScreen.ChooseCategory | src/screens/AddRecipeScreen.tsx:132-136 | a chip sets the category to one of the five chip labels and changes nothing else |
| AddRecipe.AddRecipeScreen.SetPickedImage | src/screens/AddRecipeScreen.tsx:41-43 | a picked or captured photo sets the image to its uri and changes nothing else |
| AddRecipe.AddRecipeScreen.HandleSave | src/screens/AddRecipeScreen.tsx:63-93 | an empty required field rejects the save with nothing written; otherwise, when neither the read nor the write throws, "recipes" becomes the old list (or []) plus the new record at the end and the save reports success; a thrown read or write leaves the store unchanged and reports the error; only "recipes" is ever written; a saved record has every required field and a chip category |
| Favorites.GetImageSource | src/screens/FavoritesScreen.tsx:25-28 | a string starting with "http" becomes `{uri: s}`; an absent image, "" or any other string gives `undefined` |
| Favorites.FavoritesScreen.constructor | src/screens/FavoritesScreen.tsx:31 | the favorites list starts empty |
| Favorites.FavoritesScreen.ShowsEmptyText | src/screens/FavoritesScreen.tsx:105-106 | the empty-state message appears exactly when the list has no entry |
| Favorites.FavoritesScreen.LoadFavorites | src/screens/FavoritesScreen.tsx:34-41 | the list becomes the stored "favorites" list when that key is present; an absent key or a thrown error keeps the list |
| Favorites.FavoritesScreen.HandleDeleteFavorite | src/screens/FavoritesScreen.tsx:47-60 | cancel changes nothing; confirm removes the id from the list and, unless the write throws, stores that list under "favorites"; "recipes" and every other key are untouched |
| Detail.Bulleted | src/screens/RecipeDetailScreen.tsx:67 | each line gets the "• " prefix: as many lines as before, each starting with the bullet, and stripping the bullets gives the lines back |
| Detail.IngredientsText | src/screens/RecipeDetailScreen.tsx:64-69 | empty ingredients give the placeholder, which has no bullet; otherwise the output's lines are the input's lines, as many and in order, each prefixed with "• " |
| Detail.IngredientsRoundTrip | src/screens/RecipeDetailScreen.tsx:64-68 | stripping "• " from each displayed line and rejoining recovers the ingredients text exactly |
| Detail.InstructionsText | src/screens/RecipeDetailScreen.tsx:76 | empty instructions give the placeholder; others are shown verbatim; the text is never empty |
| Detail.InfoBox | src/screens/RecipeDetailScreen.tsx:83-94 | a box appears exactly for a non-empty value, showing the value followed by its unit suffix |
| Detail.Render | src/screens/RecipeDetailScreen.tsx:48-94 | the photo is shown exactly when the image is truthy (else the camera placeholder); title and category verbatim; the ingredients section is the bulleted text or its placeholder; the instructions section is the text or its placeholder; the temperature box ("t °C") exactly for a non-empty temperature and the time box ("m dk") exactly for a non-empty time |
| App.ChipsAreHomeTiles | src/screens/AddRecipeScreen.tsx:17 | every chip of the add form is a home-screen tile other than "Tümü" |
| App.FavoritesImageAgreesWithHome | src/screens/FavoritesScreen.tsx:25-28 | on absent and string images the two screens' `getImageSource` agree |
| App.ShownUnderItsCategory | src/screens/HomeScreen.tsx:84-87 | a recipe in the list is shown under "Tümü" and under its own category |
| App.SavedRecipeRendersFully | src/screens/RecipeDetailScreen.tsx:64-94 | a record from a complete form shows bulleted ingredients, its instructions verbatim, "t °C" and "m dk" on the detail screen |
| App.SaveIntoEmptyStore | src/screens/AddRecipeScreen.tsx:80-85 | saving a complete form into a store with no prior writes leaves "recipes" holding exactly the new record and no other key |

## Left out

- Asynchrony and the lost-update race are not modelled. Every handler runs to completion before the next one starts. Two overlapping read-modify-write calls are not modelled.
- `JSON.stringify` and `JSON.parse` are not modelled. Serialisation is the identity on lists of recipes. A stored value that parses to something other than a list is not modelled. A parse that throws is merged with a failing read into one `readFails` parameter.
- The outcome of each storage call is a parameter (`readFails`, `writeFails`), because the store is foreign code.
- `Date.now().toString()` is the `id` parameter of `HandleSave`, because it depends on the clock. The code has no uniqueness check, so the model claims none.
- `pickImage` and `takePhoto` (permission requests, picker, camera) are not modelled, because they are platform I/O. Only their non-cancelled result is modelled, as `SetPickedImage`.
- Navigation, alerts, `console` logging and focus listeners are not modelled, because they are framework wiring. The confirmation dialog is the `confirmed` parameter. The alerts of `handleSave` are the `SaveOutcome` values. Focus is a call to `LoadRecipes` or `LoadFavorites`.
- Nothing in the app adds to `"favorites"`; there is no add-to-favorites action. The only write to that key is the delete's write-back of the filtered list.
- Home.HomeScreen.HandleDelete and Favorites.FavoritesScreen.HandleDeleteFavorite: a write that throws is an unhandled promise rejection in the app. The model states only its effect on state: the in-memory list is already updated and the store is unchanged.
- Favorites.GetImageSource: the favorites screen types `image` as a string. Its `requires` excludes the bundled-asset case, on which the app would throw a `TypeError`.
- Records.AssetId: handles start at 1, as the bundler's asset registry hands them out. A falsy asset value of 0 cannot be represented.
- Optional text fields that are absent in a stored object (`ingredients?`, `instructions?`) are represented by "". JavaScript treats both alike here: both are falsy.
- The image tiles of the home screen's category list are not modelled. Only their names, and the pass-through of their asset images, are.
- `RecipeCard`, `CategoryChips`, `AddRecipeButton`, `SplashScreen`, the tab layout and all style sheets are presentation only.
