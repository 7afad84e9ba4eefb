/** The recipe detail screen: what it shows for a recipe passed to it by
    value. Nothing here changes state. */
module Detail {
  import opened Records
  import opened Text

  const IngredientsPlaceholder: string := "Malzeme bilgisi eklenmemiş."
  const InstructionsPlaceholder: string := "Yapılış bilgisi eklenmemiş."
  const Bullet: string := "• "
  const Celsius: string := " °C"
  const Minutes: string := " dk"

  /** The photo area: the image, or the camera placeholder. */
  datatype PhotoView = Photo(uri: Image) | CameraPlaceholder

  datatype DetailView = DetailView(
    photo: PhotoView,
    title: string,
    category: string,
    ingredients: string,
    instructions: string,
    temperatureBox: Option<string>,
    timeBox: Option<string>)

  /** The inverse of one bullet: drop a leading "• " if there is one. */
  function StripBullet(line: string): (stripped: string)
  {
    if Bullet <= line then line[|Bullet|..] else line
  }

  function Unbulleted(lines: seq<string>): (stripped: seq<string>)
  {
    seq(|lines|, i requires 0 <= i < |lines| => StripBullet(lines[i]))
  }

  /** `lines.map((line) => `• ${line}`)`: as many lines, each starting with
      the bullet, and stripping the bullets gives the lines back. */
  function Bulleted(lines: seq<string>): (bulleted: seq<string>)
    ensures |bulleted| == |lines|
    ensures forall i :: 0 <= i < |bulleted| ==> Bullet <= bulleted[i]
    ensures Unbulleted(bulleted) == lines
  {
    var bulleted := seq(|lines|, i requires 0 <= i < |lines| => Bullet + lines[i]);
    assert forall i :: 0 <= i < |lines| ==> StripBullet(bulleted[i]) == lines[i] by {
      forall i | 0 <= i < |lines| ensures StripBullet(bulleted[i]) == lines[i] {
        assert bulleted[i][|Bullet|..] == lines[i];
      }
    }
    bulleted
  }

  /** The ingredients text: every line of a non-empty text gets a bullet,
      and there are as many lines as before; an empty text gives the
      placeholder, which has no bullet. */
  function IngredientsText(ingredients: string): (r: string)
    ensures ingredients == "" ==> r == IngredientsPlaceholder && '•' !in r
    ensures ingredients != "" ==> Split(r) == Bulleted(Split(ingredients))
    ensures ingredients != "" ==> Bullet <= r
  {
    if ingredients == "" then IngredientsPlaceholder
    else
      var lines := Bulleted(Split(ingredients));
      assert forall i :: 0 <= i < |lines| ==> Newline !in lines[i] by {
        assert Newline !in Bullet;
      }
      SplitJoin(lines);
      Join(lines)
  }

  /** `recipe.instructions || "Yapılış bilgisi eklenmemiş."`. */
  function InstructionsText(instructions: string): (r: string)
    ensures instructions != "" ==> r == instructions
    ensures instructions == "" ==> r == InstructionsPlaceholder
    ensures r != ""
  {
    if instructions != "" then instructions else InstructionsPlaceholder
  }

  /** The value text of an info box, shown only for a non-empty value. */
  function InfoBox(value: string, unit: string): (box: Option<string>)
    ensures box.Some? <==> value != ""
    ensures box.Some? ==> |box.value| == |value| + |unit| && value <= box.value && box.value[|value|..] == unit
  {
    if value != "" then Some(value + unit) else None
  }

  /** The whole screen for one recipe. */
  function Render(recipe: Recipe): (v: DetailView)
    ensures v.photo.Photo? <==> Truthy(recipe.image)
    ensures v.photo.Photo? ==> v.photo.uri == recipe.image
    ensures v.title == recipe.title && v.category == recipe.category
    ensures v.ingredients == IngredientsText(recipe.ingredients)
    ensures v.instructions == InstructionsText(recipe.instructions)
    ensures v.temperatureBox == InfoBox(recipe.temperature, Celsius)
    ensures v.timeBox == InfoBox(recipe.time, Minutes)
    ensures v.temperatureBox.Some? <==> recipe.temperature != ""
    ensures v.timeBox.Some? <==> recipe.time != ""
  {
    DetailView(
      if Truthy(recipe.image) then Photo(recipe.image) else CameraPlaceholder,
      recipe.title,
      recipe.category,
      IngredientsText(recipe.ingredients),
      InstructionsText(recipe.instructions),
      InfoBox(recipe.temperature, Celsius),
      InfoBox(recipe.time, Minutes))
  }

  /** Stripping the bullet from each displayed line and joining again gives
      back the ingredients text exactly. */
  lemma IngredientsRoundTrip(ingredients: string)
    requires ingredients != ""
    ensures Join(Unbulleted(Split(IngredientsText(ingredients)))) == ingredients
  {
    JoinSplit(ingredients);
  }
}
