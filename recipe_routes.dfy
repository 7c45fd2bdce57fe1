/**
  The recipe handlers of app/routes/recipes.py over the `db.recipes`
  collection.

  The collection is a class holding the stored documents by ObjectId and the
  order in which `find()` yields them. Each handler is a method on it. The
  same handlers are also written as functions on the collection's value
  (`CreateStep`, `Get`, `Listing`, `UpdateStep`, `DeleteStep`); each method is
  proved to do what its function says, and the lemmas relate the functions.

  Outcomes: a handler either succeeds, raises HTTPException(404, "Recipe not
  found"), or lets an exception escape: `ObjectId(recipe_id)` raising
  InvalidId on a malformed id (before the store is touched), or `insert_one`
  refusing an `_id` that is already stored.
*/
module RecipeRoutes {
  import opened Wrappers
  import opened ObjectIds
  import opened RecipeModel

  const IdKey := "_id"
  const NotFoundDetail := "Recipe not found"
  const CreatedMessage := "Recipe created"
  const UpdatedMessage := "Recipe updated"
  const DeletedMessage := "Recipe deleted"

  datatype Failure =
    | InvalidId(raw: string)                 // `ObjectId(recipe_id)` raised; not caught by the handler
    | HttpError(status: nat, detail: string) // raised by the handler itself
    | DuplicateKey(id: Id)                   // `insert_one` found the `_id` already stored

  const RecipeNotFound := HttpError(404, NotFoundDetail)

  datatype Result<T> = Ok(value: T) | Err(failure: Failure)

  /** The reply of `create_recipe`: a message and the stored fields with the new `_id` as a string. */
  datatype Created = Created(message: string, recipe: Doc)

  /** A stored document as the handlers return it: its fields plus `_id` as a string. */
  function WithId(id: Id, body: Doc): Doc {
    body[IdKey := Str(Render(id))]
  }

  predicate Distinct(s: seq<Id>) {
    forall i, j :: 0 <= i < j < |s| ==> s[i] != s[j]
  }

  /**
    The contents of `db.recipes`: the documents by ObjectId (without their
    `_id`, which is the key) and the order in which `find()` yields them.
  */
  datatype Collection = Collection(order: seq<Id>, docs: map<Id, Doc>) {
    /** Each stored id appears once in `order`, and every document has the four recipe fields. */
    ghost predicate Valid() {
      && Distinct(order)
      && (forall id :: id in order <==> id in docs)
      && (forall id :: id in docs ==> docs[id].Keys == FieldNames)
    }
  }

  /** What a state-changing handler does: its reply and the collection afterwards. */
  datatype Step<T> = Step(reply: Result<T>, next: Collection)

  /** `s` with `id` taken out, the rest in their order. */
  function Remove(s: seq<Id>, id: Id): (r: seq<Id>)
    ensures forall x :: x in r <==> x in s && x != id
  {
    if s == [] then []
    else if s[0] == id then Remove(s[1..], id)
    else [s[0]] + Remove(s[1..], id)
  }

  lemma {:induction false} RemoveKeepsDistinct(s: seq<Id>, id: Id)
    requires Distinct(s)
    ensures Distinct(Remove(s, id))
  {
    if s != [] {
      assert Distinct(s[1..]);
      RemoveKeepsDistinct(s[1..], id);
      if s[0] != id {
        assert s[0] !in s[1..];
        assert s[0] !in Remove(s[1..], id);
      }
    }
  }

  lemma {:induction false} RemoveAbsent(s: seq<Id>, id: Id)
    requires id !in s
    ensures Remove(s, id) == s
  {
    if s != [] {
      RemoveAbsent(s[1..], id);
    }
  }

  /** In a list without repeats, taking out the id at position `k` leaves the ids before and after it in their order. */
  lemma {:induction false} RemoveAt(s: seq<Id>, id: Id, k: nat)
    requires Distinct(s) && k < |s| && s[k] == id
    ensures Remove(s, id) == s[..k] + s[k + 1..]
  {
    if k == 0 {
      assert id !in s[1..];
      RemoveAbsent(s[1..], id);
    } else {
      assert s[0] != id;
      assert Distinct(s[1..]);
      RemoveAt(s[1..], id, k - 1);
      assert s[1..][..k - 1] == s[1..k] && s[1..][k..] == s[k + 1..];
      assert [s[0]] + s[1..k] == s[..k];
    }
  }

  /** `create_recipe` with `gen` the ObjectId the driver generates for `insert_one`. */
  function CreateStep(c: Collection, r: Recipe, gen: Id): Step<Created> {
    if gen in c.docs then Step(Err(DuplicateKey(gen)), c)
    else Step(Ok(Created(CreatedMessage, WithId(gen, Dict(r)))),
              Collection(c.order + [gen], c.docs[gen := Dict(r)]))
  }

  /** `get_recipes`: every stored document, in `find()` order, with its `_id` as a string. */
  function Listing(c: Collection): seq<Doc>
    requires c.Valid()
  {
    seq(|c.order|, k requires 0 <= k < |c.order| => WithId(c.order[k], c.docs[c.order[k]]))
  }

  /** `get_recipe`. */
  function Get(c: Collection, s: string): Result<Doc> {
    match Parse(s)
    case None => Err(InvalidId(s))
    case Some(id) => if id in c.docs then Ok(WithId(id, c.docs[id])) else Err(RecipeNotFound)
  }

  /** `update_recipe`: `$set` of the sent fields on the matching document. */
  function UpdateStep(c: Collection, s: string, p: RecipeUpdate): Step<string> {
    match Parse(s)
    case None => Step(Err(InvalidId(s)), c)
    case Some(id) =>
      if id !in c.docs then Step(Err(RecipeNotFound), c)
      else Step(Ok(UpdatedMessage), c.(docs := c.docs[id := SetFields(c.docs[id], UpdateData(p))]))
  }

  /** `delete_recipe`. */
  function DeleteStep(c: Collection, s: string): Step<string> {
    match Parse(s)
    case None => Step(Err(InvalidId(s)), c)
    case Some(id) =>
      if id !in c.docs then Step(Err(RecipeNotFound), c)
      else Step(Ok(DeletedMessage), Collection(Remove(c.order, id), c.docs - {id}))
  }

  /** `create_recipe` keeps the collection valid. */
  lemma CreateKeepsValid(c: Collection, r: Recipe, gen: Id)
    requires c.Valid()
    ensures CreateStep(c, r, gen).next.Valid()
  {
  }

  /** `update_recipe` keeps the collection valid: every document still has exactly the four recipe fields. */
  lemma UpdateKeepsValid(c: Collection, s: string, p: RecipeUpdate)
    requires c.Valid()
    ensures UpdateStep(c, s, p).next.Valid()
  {
  }

  /** `delete_recipe` keeps the collection valid. */
  lemma DeleteKeepsValid(c: Collection, s: string)
    requires c.Valid()
    ensures DeleteStep(c, s).next.Valid()
  {
    if Parse(s).Some? && Parse(s).value in c.docs {
      RemoveKeepsDistinct(c.order, Parse(s).value);
    }
  }

  lemma {:induction false} DistinctSize(s: seq<Id>)
    requires Distinct(s)
    ensures |set x | x in s| == |s|
  {
    if s != [] {
      DistinctSize(s[1..]);
      assert (set x | x in s) == {s[0]} + (set x | x in s[1..]);
      assert s[0] !in s[1..];
    }
  }

  /** `get_recipes` returns one entry per stored document. */
  lemma ListingSize(c: Collection)
    requires c.Valid()
    ensures |Listing(c)| == |c.docs|
  {
    DistinctSize(c.order);
    assert (set x | x in c.order) == c.docs.Keys;
  }

  /**
    `create_recipe` with a fresh id stores exactly one new document, holding
    the recipe's fields (image_url null when omitted), and replies with those
    fields plus the id as a string that parses back to the id; with an id
    already stored it fails and stores nothing.
  */
  lemma CreateAddsOne(c: Collection, r: Recipe, gen: Id)
    requires c.Valid()
    ensures var st := CreateStep(c, r, gen);
      gen in c.docs ==> st == Step(Err(DuplicateKey(gen)), c)
    ensures var st := CreateStep(c, r, gen);
      gen !in c.docs ==>
        && st.reply.Ok? && st.reply.value.message == CreatedMessage
        && AsRecipe(st.reply.value.recipe) == Some(r)
        && st.reply.value.recipe[IdKey] == Str(Render(gen))
        && Parse(Render(gen)) == Some(gen)
        && st.next.docs.Keys == c.docs.Keys + {gen}
        && |st.next.docs| == |c.docs| + 1
        && AsRecipe(st.next.docs[gen]) == Some(r)
        && (r.imageUrl == None ==> st.next.docs[gen][ImageUrlKey] == Null)
        && (forall id :: id in c.docs ==> st.next.docs[id] == c.docs[id])
  {
    ParseRender(gen);
    DictRoundTrip(r);
  }

  /** After `create_recipe`, `get_recipe` on the reply's id returns the same object the create replied with. */
  lemma GetAfterCreate(c: Collection, r: Recipe, gen: Id)
    requires gen !in c.docs
    ensures var st := CreateStep(c, r, gen);
      && Get(st.next, Render(gen)) == Ok(st.reply.value.recipe)
      && AsRecipe(st.reply.value.recipe) == Some(r)
  {
    ParseRender(gen);
    DictRoundTrip(r);
  }

  /** `get_recipes` after a successful create lists what it listed before, then the new document. */
  lemma ListingAfterCreate(c: Collection, r: Recipe, gen: Id)
    requires c.Valid() && gen !in c.docs
    ensures CreateStep(c, r, gen).next.Valid()
    ensures Listing(CreateStep(c, r, gen).next) == Listing(c) + [WithId(gen, Dict(r))]
  {
  }

  /** `get_recipe` on the string form of a stored id returns that document with its `_id` as that string. */
  lemma GetStored(c: Collection, id: Id)
    requires id in c.docs
    ensures Get(c, Render(id)) == Ok(WithId(id, c.docs[id]))
    ensures Get(c, Render(id)).value[IdKey] == Str(Render(id))
  {
    ParseRender(id);
  }

  /** `get_recipe` on a well-formed id that is not stored raises 404 "Recipe not found". */
  lemma GetAbsent(c: Collection, s: string)
    requires IsObjectIdString(s) && Parse(s).value !in c.docs
    ensures Get(c, s) == Err(RecipeNotFound)
  {
  }

  /**
    `update_recipe` on a stored id overwrites exactly the fields the request
    sent; the other fields of that document, the other documents and the
    order stay as they were.
  */
  lemma UpdateOverwritesSentFields(c: Collection, s: string, p: RecipeUpdate)
    requires c.Valid() && IsObjectIdString(s) && Parse(s).value in c.docs
    ensures var id, st := Parse(s).value, UpdateStep(c, s, p);
      && st.reply == Ok(UpdatedMessage)
      && st.next.order == c.order
      && st.next.docs.Keys == c.docs.Keys
      && st.next.docs[id].Keys == FieldNames
      && (forall name :: name in FieldNames ==>
            st.next.docs[id][name] == (if Supplied(p, name).Some? then Supplied(p, name).value else c.docs[id][name]))
      && (forall other :: other in c.docs && other != id ==> st.next.docs[other] == c.docs[other])
  {
  }

  /** Sending the same update to the same id twice gives the same reply and collection as sending it once. */
  lemma UpdateTwiceSameAsOnce(c: Collection, s: string, p: RecipeUpdate)
    ensures UpdateStep(UpdateStep(c, s, p).next, s, p) == UpdateStep(c, s, p)
  {
    if Parse(s).Some? && Parse(s).value in c.docs {
      var id := Parse(s).value;
      SetFieldsIdempotent(c.docs[id], UpdateData(p));
    }
  }

  /** The empty update on a stored id reports success and changes nothing. */
  lemma EmptyUpdateIsNoop(c: Collection, s: string)
    requires IsObjectIdString(s) && Parse(s).value in c.docs
    ensures UpdateStep(c, s, RecipeUpdate()) == Step(Ok(UpdatedMessage), c)
  {
    var id := Parse(s).value;
    EmptyUpdateSetsNothing(c.docs[id]);
    assert c.docs[id := c.docs[id]] == c.docs;
  }

  /** `update_recipe` on a well-formed id that is not stored raises 404 and changes nothing. */
  lemma UpdateAbsent(c: Collection, s: string, p: RecipeUpdate)
    requires IsObjectIdString(s) && Parse(s).value !in c.docs
    ensures UpdateStep(c, s, p) == Step(Err(RecipeNotFound), c)
  {
  }

  /**
    Changing only the title of a stored recipe: `get_recipe` afterwards reads
    as the same recipe with the new title, ingredients, instructions and
    image_url as before.
  */
  lemma UpdateTitleThenGet(c: Collection, s: string, r: Recipe, title: string)
    requires IsObjectIdString(s) && Parse(s).value in c.docs && c.docs[Parse(s).value] == Dict(r)
    ensures var after := UpdateStep(c, s, RecipeUpdate(title := Present(Some(title)))).next;
      && Get(after, s).Ok?
      && AsRecipe(Get(after, s).value) == Some(r.(title := title))
  {
  }

  /**
    `delete_recipe` on a stored id removes exactly that document, keeps the
    others in their order, and a later `get_recipe` on it raises 404.
  */
  lemma DeleteRemovesOne(c: Collection, s: string)
    requires c.Valid() && IsObjectIdString(s) && Parse(s).value in c.docs
    ensures var id, st := Parse(s).value, DeleteStep(c, s);
      && st.reply == Ok(DeletedMessage)
      && st.next.docs.Keys == c.docs.Keys - {id}
      && |st.next.docs| == |c.docs| - 1
      && (forall other :: other in st.next.docs ==> st.next.docs[other] == c.docs[other])
      && st.next.order == Remove(c.order, id)
      && Get(st.next, s) == Err(RecipeNotFound)
  {
  }

  lemma ListingWithout(c: Collection, n: Collection, k: nat)
    requires c.Valid() && n.Valid() && k < |c.order|
    requires n.order == c.order[..k] + c.order[k + 1..]
    requires forall x :: x in n.docs ==> x in c.docs && n.docs[x] == c.docs[x]
    ensures Listing(n) == Listing(c)[..k] + Listing(c)[k + 1..]
  {
    var l, l' := Listing(c), Listing(n);
    var want := l[..k] + l[k + 1..];
    forall i | 0 <= i < |l'|
      ensures l'[i] == want[i]
    {
      var j := if i < k then i else i + 1;
      assert n.order[i] == c.order[j];
    }
  }

  /** After deleting the document listed at position `k`, the listing is the old one with exactly that entry taken out. */
  lemma ListingAfterDelete(c: Collection, k: nat)
    requires c.Valid() && k < |c.order|
    ensures DeleteStep(c, Render(c.order[k])).next.Valid()
    ensures var l := Listing(c);
      Listing(DeleteStep(c, Render(c.order[k])).next) == l[..k] + l[k + 1..]
  {
    var id := c.order[k];
    ParseRender(id);
    DeleteKeepsValid(c, Render(id));
    RemoveAt(c.order, id, k);
    ListingWithout(c, DeleteStep(c, Render(id)).next, k);
  }

  /** `delete_recipe` on a well-formed id that is not stored raises 404 and changes nothing. */
  lemma DeleteAbsent(c: Collection, s: string)
    requires IsObjectIdString(s) && Parse(s).value !in c.docs
    ensures DeleteStep(c, s) == Step(Err(RecipeNotFound), c)
  {
  }

  /** After any `delete_recipe`, `get_recipe` on the same string fails: 404 if the id is well formed. */
  lemma GetAfterDelete(c: Collection, s: string)
    ensures Get(DeleteStep(c, s).next, s).Err?
    ensures IsObjectIdString(s) ==> Get(DeleteStep(c, s).next, s) == Err(RecipeNotFound)
  {
  }

  /**
    A malformed id fails in `ObjectId(...)` before any store call: the
    collection is untouched and the failure is InvalidId, not the handler's 404.
  */
  lemma MalformedIdNeverReachesStore(c: Collection, s: string, p: RecipeUpdate)
    requires !IsObjectIdString(s)
    ensures Get(c, s) == Err(InvalidId(s))
    ensures UpdateStep(c, s, p) == Step(Err(InvalidId(s)), c)
    ensures DeleteStep(c, s) == Step(Err(InvalidId(s)), c)
    ensures InvalidId(s) != RecipeNotFound
  {
  }

  /**
    Create a recipe, read it back, delete it, read it again: the create
    replies with a non-empty string id and the three fields, the read returns
    the same object, the delete succeeds and the second read raises 404.
  */
  lemma CreateGetDeleteGet(c: Collection, r: Recipe, gen: Id)
    requires c.Valid() && gen !in c.docs
    ensures var created := CreateStep(c, r, gen);
      var s := Render(gen);
      var deleted := DeleteStep(created.next, s);
      && created.reply.Ok?
      && created.reply.value.recipe[IdKey] == Str(s) && |s| > 0
      && created.reply.value.recipe[TitleKey] == Str(r.title)
      && created.reply.value.recipe[IngredientsKey] == StrList(r.ingredients)
      && created.reply.value.recipe[InstructionsKey] == Str(r.instructions)
      && Get(created.next, s) == Ok(created.reply.value.recipe)
      && deleted.reply == Ok(DeletedMessage)
      && Get(deleted.next, s) == Err(RecipeNotFound)
  {
    GetAfterCreate(c, r, gen);
    CreateKeepsValid(c, r, gen);
    DeleteRemovesOne(CreateStep(c, r, gen).next, Render(gen));
  }

  /** The `db.recipes` collection, changed in place by the handlers. */
  class RecipeCollection {
    var order: seq<Id>
    var docs: map<Id, Doc>

    function State(): Collection
      reads this
    {
      Collection(order, docs)
    }

    ghost predicate Valid()
      reads this
    {
      State().Valid()
    }

    constructor ()
      ensures Valid() && State() == Collection([], map[])
    {
      order := [];
      docs := map[];
    }

    /** `create_recipe`: `gen` is the ObjectId `insert_one` assigns. */
    method Create(recipe: Recipe, gen: Id) returns (r: Result<Created>)
      requires Valid()
      modifies this
      ensures Valid()
      ensures Step(r, State()) == CreateStep(old(State()), recipe, gen)
    {
      CreateKeepsValid(State(), recipe, gen);
      var recipeDict := Dict(recipe);
      if gen in docs {
        return Err(DuplicateKey(gen));
      }
      docs := docs[gen := recipeDict];
      order := order + [gen];
      recipeDict := recipeDict[IdKey := Str(Render(gen))];
      return Ok(Created(CreatedMessage, recipeDict));
    }

    /** `get_recipes`: walks the documents in `find()` order, appending each with its `_id` as a string. */
    method ListAll() returns (recipes: seq<Doc>)
      requires Valid()
      ensures recipes == Listing(State())
    {
      recipes := [];
      var i := 0;
      while i < |order|
        invariant 0 <= i <= |order|
        invariant |recipes| == i
        invariant forall k :: 0 <= k < i ==> recipes[k] == WithId(order[k], docs[order[k]])
      {
        var id := order[i];
        var recipe := docs[id];
        recipe := recipe[IdKey := Str(Render(id))];
        recipes := recipes + [recipe];
        i := i + 1;
      }
    }

    /** `get_recipe`. */
    method GetByID(recipeId: string) returns (r: Result<Doc>)
      ensures r == Get(State(), recipeId)
    {
      var parsed := Parse(recipeId);
      if parsed.None? {
        return Err(InvalidId(recipeId));
      }
      var id := parsed.value;
      if id in docs {
        var recipe := docs[id];
        recipe := recipe[IdKey := Str(Render(id))];
        return Ok(recipe);
      }
      return Err(RecipeNotFound);
    }

    /** `update_recipe`. */
    method UpdatePartial(recipeId: string, update: RecipeUpdate) returns (r: Result<string>)
      requires Valid()
      modifies this
      ensures Valid()
      ensures Step(r, State()) == UpdateStep(old(State()), recipeId, update)
    {
      UpdateKeepsValid(State(), recipeId, update);
      var updateData := UpdateData(update);
      var parsed := Parse(recipeId);
      if parsed.None? {
        return Err(InvalidId(recipeId));
      }
      var id := parsed.value;
      if id !in docs {
        return Err(RecipeNotFound);
      }
      docs := docs[id := SetFields(docs[id], updateData)];
      return Ok(UpdatedMessage);
    }

    /** `delete_recipe`. */
    method Delete(recipeId: string) returns (r: Result<string>)
      requires Valid()
      modifies this
      ensures Valid()
      ensures Step(r, State()) == DeleteStep(old(State()), recipeId)
    {
      DeleteKeepsValid(State(), recipeId);
      var parsed := Parse(recipeId);
      if parsed.None? {
        return Err(InvalidId(recipeId));
      }
      var id := parsed.value;
      if id !in docs {
        return Err(RecipeNotFound);
      }
      docs := docs - {id};
      order := Remove(order, id);
      return Ok(DeletedMessage);
    }
  }
}
