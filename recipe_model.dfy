/**
  The Pydantic shapes of app/models/recipe.py and the documents they become.

  A `Recipe` has three required fields and an optional `image_url` that
  defaults to None. A `RecipeUpdate` has the same four fields, each optional;
  every one of them is either left out of the request (Absent) or sent, and a
  sent field may be an explicit JSON null (Present(None)).

  Documents are what `.dict()` produces and what MongoDB stores: a map from
  field name to value.
*/
module RecipeModel {
  import opened Wrappers

  /** A field value in a document: JSON null, a string or a list of strings. */
  datatype Value = Null | Str(s: string) | StrList(items: seq<string>)

  /** A document (a Python dict / a MongoDB document): field name to value. */
  type Doc = map<string, Value>

  const TitleKey := "title"
  const IngredientsKey := "ingredients"
  const InstructionsKey := "instructions"
  const ImageUrlKey := "image_url"

  /** The fields a Recipe declares, in the dict keys Pydantic uses. */
  const FieldNames: set<string> := {TitleKey, IngredientsKey, InstructionsKey, ImageUrlKey}

  /** `Recipe`: title, ingredients and instructions are required; image_url defaults to None. */
  datatype Recipe = Recipe(
    title: string,
    ingredients: seq<string>,
    instructions: string,
    imageUrl: Option<string> := None)

  /** One field of a partial update: not sent at all, or sent with a value that may be null. */
  datatype Field<T> = Absent | Present(value: Option<T>)

  /** `RecipeUpdate`: every field optional, so `RecipeUpdate()` is the empty update. */
  datatype RecipeUpdate = RecipeUpdate(
    title: Field<string> := Absent,
    ingredients: Field<seq<string>> := Absent,
    instructions: Field<string> := Absent,
    imageUrl: Field<string> := Absent)

  function NullableStr(o: Option<string>): Value {
    match o
    case None => Null
    case Some(s) => Str(s)
  }

  function NullableList(o: Option<seq<string>>): Value {
    match o
    case None => Null
    case Some(items) => StrList(items)
  }

  /** `recipe.dict()`: all four fields, image_url as null when it was not given. */
  function Dict(r: Recipe): (d: Doc)
    ensures d.Keys == FieldNames
  {
    map[TitleKey := Str(r.title),
        IngredientsKey := StrList(r.ingredients),
        InstructionsKey := Str(r.instructions),
        ImageUrlKey := NullableStr(r.imageUrl)]
  }

  /** Reads a document back as a Recipe, as Pydantic validation would: None if a required field is missing or not of its type. */
  function AsRecipe(d: Doc): Option<Recipe> {
    if && TitleKey in d && d[TitleKey].Str?
       && IngredientsKey in d && d[IngredientsKey].StrList?
       && InstructionsKey in d && d[InstructionsKey].Str?
       && (ImageUrlKey !in d || !d[ImageUrlKey].StrList?)
    then Some(Recipe(d[TitleKey].s, d[IngredientsKey].items, d[InstructionsKey].s,
                     if ImageUrlKey in d && d[ImageUrlKey].Str? then Some(d[ImageUrlKey].s) else None))
    else None
  }

  function SentStr(f: Field<string>): Option<Value> {
    match f
    case Absent => None
    case Present(o) => Some(NullableStr(o))
  }

  function SentList(f: Field<seq<string>>): Option<Value> {
    match f
    case Absent => None
    case Present(o) => Some(NullableList(o))
  }

  /** The value `recipe.dict(exclude_unset=True)` holds under `name`, or None when the field was not sent. */
  function Supplied(p: RecipeUpdate, name: string): Option<Value> {
    if name == TitleKey then SentStr(p.title)
    else if name == IngredientsKey then SentList(p.ingredients)
    else if name == InstructionsKey then SentStr(p.instructions)
    else if name == ImageUrlKey then SentStr(p.imageUrl)
    else None
  }

  /**
    `recipe.dict(exclude_unset=True)`: exactly the fields the request sent,
    an explicit null kept as null.
  */
  function UpdateData(p: RecipeUpdate): (u: Doc)
    ensures u.Keys <= FieldNames
    ensures TitleKey in u <==> p.title.Present?
    ensures IngredientsKey in u <==> p.ingredients.Present?
    ensures InstructionsKey in u <==> p.instructions.Present?
    ensures ImageUrlKey in u <==> p.imageUrl.Present?
    ensures p.title == Present(None) ==> u[TitleKey] == Null
    ensures p.ingredients == Present(None) ==> u[IngredientsKey] == Null
    ensures p.instructions == Present(None) ==> u[InstructionsKey] == Null
    ensures p.imageUrl == Present(None) ==> u[ImageUrlKey] == Null
    ensures forall t :: p.title == Present(Some(t)) ==> u[TitleKey] == Str(t)
    ensures forall items :: p.ingredients == Present(Some(items)) ==> u[IngredientsKey] == StrList(items)
    ensures forall t :: p.instructions == Present(Some(t)) ==> u[InstructionsKey] == Str(t)
    ensures forall t :: p.imageUrl == Present(Some(t)) ==> u[ImageUrlKey] == Str(t)
  {
    map name | name in FieldNames && Supplied(p, name).Some? :: Supplied(p, name).value
  }

  /** MongoDB's `$set`: each field of `u` overwrites (or adds) that field of `d`; the other fields of `d` stay. */
  function SetFields(d: Doc, u: Doc): (r: Doc)
    ensures r.Keys == d.Keys + u.Keys
    ensures forall name :: name in u ==> r[name] == u[name]
    ensures forall name :: name in d && name !in u ==> r[name] == d[name]
  {
    d + u
  }

  /** True when the update sends no explicit null for a required field. */
  predicate KeepsRequiredFields(p: RecipeUpdate) {
    p.title != Present(None) && p.ingredients != Present(None) && p.instructions != Present(None)
  }

  function Pick<T>(f: Field<T>, old_: T): T
    requires f != Present(None)
  {
    match f
    case Absent => old_
    case Present(o) => o.value
  }

  /** A typed merge of an update into a Recipe, field by field, independent of documents. */
  function Patched(r: Recipe, p: RecipeUpdate): Recipe
    requires KeepsRequiredFields(p)
  {
    Recipe(Pick(p.title, r.title),
           Pick(p.ingredients, r.ingredients),
           Pick(p.instructions, r.instructions),
           match p.imageUrl case Absent => r.imageUrl case Present(o) => o)
  }

  /** Every Recipe's document reads back as that same Recipe: all three required fields, the ingredients in their order, and the image URL. */
  lemma DictRoundTrip(r: Recipe)
    ensures AsRecipe(Dict(r)) == Some(r)
  {
  }

  /** A Recipe built without an image URL is stored with image_url null. */
  lemma ImageUrlDefaultsToNull(title: string, ingredients: seq<string>, instructions: string)
    ensures Recipe(title, ingredients, instructions).imageUrl == None
    ensures Dict(Recipe(title, ingredients, instructions))[ImageUrlKey] == Null
  {
  }

  /** The empty update sends nothing, and `$set` of nothing leaves a document as it was. */
  lemma EmptyUpdateSetsNothing(d: Doc)
    ensures UpdateData(RecipeUpdate()) == map[]
    ensures SetFields(d, UpdateData(RecipeUpdate())) == d
  {
  }

  /**
    Applying an update to a stored recipe leaves a document that still reads
    as a Recipe exactly when the update sends no null for a required field;
    that Recipe is then the typed field-by-field merge.
  */
  lemma UpdateKeepsRecipeShape(r: Recipe, p: RecipeUpdate)
    ensures AsRecipe(SetFields(Dict(r), UpdateData(p))).Some? <==> KeepsRequiredFields(p)
    ensures KeepsRequiredFields(p) ==> AsRecipe(SetFields(Dict(r), UpdateData(p))) == Some(Patched(r, p))
  {
  }

  /** Applying the same `$set` twice stores the same as applying it once. */
  lemma SetFieldsIdempotent(d: Doc, u: Doc)
    ensures SetFields(SetFields(d, u), u) == SetFields(d, u)
  {
  }
}
