/** The add-recipe form: its field state, the required-field check, the new
    record and the read-append-write of the "recipes" slot. */
module AddRecipe {
  import opened Records
  import opened Storage

  /** The category chips, in display order; they are the only way to set
      the category. */
  const Categories: seq<string> := ["Ana Yemek", "Tatlı", "İçecek", "Hamur İşi", "Atıştırmalık"]

  /** The free-text inputs of the form. */
  datatype TextField = Title | Ingredients | Instructions | Temperature | Time

  /** The form values at the moment "Kaydet" is pressed. */
  datatype Draft = Draft(
    title: string,
    category: string,
    ingredients: string,
    instructions: string,
    temperature: string,
    time: string,
    image: Image)

  /** How `handleSave` ends: the "Eksik Alan" alert, the success alert
      followed by navigation to Home, or the "Hata" alert. */
  datatype SaveOutcome = MissingFields | Saved | SaveError

  /** The save check: a record built from the form would have every required
      field, so none of the six text fields is empty; the photo is optional. */
  function Complete(d: Draft): (ok: bool)
    ensures ok <==> d.title != "" && d.category != "" && d.ingredients != "" &&
                    d.instructions != "" && d.temperature != "" && d.time != ""
  {
    HasRequiredFields(NewRecipe("", d))
  }

  /** `newRecipe`: the form values copied verbatim under the timestamp id. */
  function NewRecipe(id: string, d: Draft): (r: Recipe)
    ensures r.id == id && r.image == d.image
    ensures r.title == d.title && r.category == d.category
    ensures r.ingredients == d.ingredients && r.instructions == d.instructions
    ensures r.temperature == d.temperature && r.time == d.time
  {
    Recipe(id, d.title, d.image, d.category, d.ingredients, d.instructions, d.temperature, d.time)
  }

  /** `storedData ? JSON.parse(storedData) : []`. */
  function StoredOrEmpty(stored: Fetched): (list: seq<Recipe>)
    requires !stored.Failed?
    ensures stored.Missing? ==> list == []
    ensures stored.Found? ==> list == stored.list
  {
    if stored.Found? then stored.list else []
  }

  class AddRecipeScreen {
    const storage: AsyncStorage
    var title: string
    var category: string
    var ingredients: string
    var instructions: string
    var temperature: string
    var time: string
    var image: Image

    /** The category is unset or one of the chips, and the image is unset or
        a picked file's uri. */
    ghost predicate Valid()
      reads this
    {
      (category == "" || category in Categories) && (image.NoImage? || image.Str?)
    }

    function Form(): (form: Draft)
      reads this
    {
      Draft(title, category, ingredients, instructions, temperature, time, image)
    }

    constructor (storage: AsyncStorage)
      ensures Valid()
      ensures this.storage == storage
      ensures Form() == Draft("", "", "", "", "", "", NoImage)
    {
      this.storage := storage;
      title, category, ingredients, instructions, temperature, time := "", "", "", "", "", "";
      image := NoImage;
    }

    /** `onChangeText` of one of the text inputs. */
    method EditText(field: TextField, value: string)
      requires Valid()
      modifies this
      ensures Valid()
      ensures Form() == match field
        case Title => old(Form()).(title := value)
        case Ingredients => old(Form()).(ingredients := value)
        case Instructions => old(Form()).(instructions := value)
        case Temperature => old(Form()).(temperature := value)
        case Time => old(Form()).(time := value)
    {
      match field
      case Title => title := value;
      case Ingredients => ingredients := value;
      case Instructions => instructions := value;
      case Temperature => temperature := value;
      case Time => time := value;
    }

    /** Tapping a category chip. */
    method ChooseCategory(chip: string)
      requires Valid()
      requires chip in Categories
      modifies this
      ensures Valid()
      ensures Form() == old(Form()).(category := chip)
    {
      category := chip;
    }

    /** `setImage(result.assets[0].uri)` after a picker or camera result that
        was not cancelled. */
    method SetPickedImage(uri: string)
      requires Valid()
      modifies this
      ensures Valid()
      ensures Form() == old(Form()).(image := Str(uri))
    {
      image := Str(uri);
    }

    /** `handleSave`. An incomplete form is rejected before the store is
        touched. Otherwise the "recipes" slot is read (absent counts as []),
        the new record is put at the end and the whole list is written back;
        a thrown read or write leaves the store as it was. */
    method HandleSave(id: string, readFails: bool, writeFails: bool) returns (outcome: SaveOutcome)
      requires Valid()
      modifies storage
      ensures outcome == MissingFields <==> !Complete(Form())
      ensures outcome == Saved <==> Complete(Form()) && !readFails && !writeFails
      ensures outcome == Saved ==>
        var before := if RecipesKey in old(storage.items) then old(storage.items)[RecipesKey] else [];
        storage.items == old(storage.items)[RecipesKey := before + [NewRecipe(id, Form())]]
      ensures outcome == Saved ==>
        HasRequiredFields(NewRecipe(id, Form())) && NewRecipe(id, Form()).category in Categories
      ensures outcome != Saved ==> storage.items == old(storage.items)
      ensures OnlySlotChanged(old(storage.items), storage.items, RecipesKey)
    {
      if !Complete(Form()) {
        return MissingFields;
      }
      var newRecipe := NewRecipe(id, Form());
      var stored := storage.GetItem(RecipesKey, readFails);
      if stored.Failed? {
        return SaveError;
      }
      var updated := StoredOrEmpty(stored) + [newRecipe];
      var ok := storage.SetItem(RecipesKey, updated, writeFails);
      outcome := if ok then Saved else SaveError;
    }
  }
}
