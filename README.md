# Recipe manager backend: the recipe handlers and their collection, in Dafny

This project models the recipe CRUD layer of a FastAPI + MongoDB recipe
manager: the five handlers of `app/routes/recipes.py` (create, list, get by
id, partial update, delete) acting on the shared `db.recipes` collection, and
the two Pydantic shapes of `app/models/recipe.py` (`Recipe`, `RecipeUpdate`).

- `wrappers.dfy` (`Wrappers`): `Option`, for Python's `None`.
- `object_ids.dfy` (`ObjectIds`): BSON ObjectIds. An `Id` is twelve bytes;
  `Render` is `str(oid)` (24 lower-case hexadecimal digits) and `Parse` is
  `ObjectId(s)` for a string (24 hexadecimal digits of either case, otherwise
  the `InvalidId` exception, modelled as `None`). The round trip
  `Parse(Render(id)) == Some(id)` is proved.
- `recipe_model.dfy` (`RecipeModel`): documents as maps from field name to a
  `Value` (null, string, list of strings); `Recipe` with `image_url`
  defaulting to `None`; `RecipeUpdate` whose fields are each `Absent` (not
  sent) or `Present(v)` with `v` possibly an explicit null;
  `Dict` (`recipe.dict()`), `UpdateData` (`recipe.dict(exclude_unset=True)`),
  `SetFields` (MongoDB `$set`) and `AsRecipe` (reading a document back as a
  `Recipe`).
- `recipe_routes.dfy` (`RecipeRoutes`): the collection's value
  (`Collection`: documents by id plus the order `find()` yields them in), the
  handlers as functions on that value (`CreateStep`, `Listing`, `Get`,
  `UpdateStep`, `DeleteStep`), the lemmas relating them, and the class
  `RecipeCollection` whose methods change the collection in place and are
  proved to do what those functions say.

Outcomes are `Ok`, `HttpError(404, "Recipe not found")` (raised by the
handler), `InvalidId(s)` (raised by `ObjectId(recipe_id)` before the store is
queried and not caught, so FastAPI answers with a server error, not 404) and
`DuplicateKey(id)` (`insert_one` given an `_id` already stored). A malformed
id makes `ObjectId(recipe_id)` raise InvalidId, which the handler does not
catch, so it is a failure distinct from the 404.

## Model

| member | source | states |
|---|---|---|
| `ObjectIds.Render` | app/routes/recipes.py:30 | the string form of an id is always 24 lower-case hexadecimal digits, a string `ObjectId` accepts |
| `ObjectIds.Parse` | app/routes/recipes.py:63 | `ObjectId(s)` succeeds exactly on strings of 24 hexadecimal digits and fails with InvalidId on every other string |
| `ObjectIds.UnhexHex` | app/routes/recipes.py:44 | decoding the hexadecimal form of any byte string gives back those bytes |
| `ObjectIds.HexUnhex` | app/routes/recipes.py:63 | encoding the bytes decoded from hexadecimal digits gives the same digits in lower case |
| `ObjectIds.ParseRender` | app/routes/recipes.py:65 | parsing the string form of an id gives back that id |
| `ObjectIds.RenderParse` | app/routes/recipes.py:63 | a string that parses to an id is that id's string form up to letter case |
| `ObjectIds.RenderInjective` | app/routes/recipes.py:44 | distinct ids never share a string form |
| `RecipeModel.Dict` | app/models/recipe.py:4-8 | `recipe.dict()` always holds exactly the four recipe fields |
| `RecipeModel.UpdateData` | app/routes/recipes.py:84 | `dict(exclude_unset=True)` holds a field exactly when the request sent it, only recipe fields, each sent value as that value and an explicitly sent null as null |
| `RecipeModel.SetFields` | app/routes/recipes.py:85 | `$set` overwrites or adds every field it names and leaves every other field of the document as it was |
| `RecipeModel.DictRoundTrip` | app/models/recipe.py:4-8 | every Recipe's document reads back as the same Recipe: title, ingredients (in order), instructions and image URL |
| `RecipeModel.ImageUrlDefaultsToNull` | app/models/recipe.py:8 | a Recipe built without an image URL has none, and its dict stores image_url as null |
| `RecipeModel.EmptyUpdateSetsNothing` | app/models/recipe.py:10-14 | the empty RecipeUpdate is valid, sends no field, and `$set` of it leaves a document unchanged |
| `RecipeModel.UpdateKeepsRecipeShape` | app/models/recipe.py:5-14 | an update applied to a stored recipe leaves a valid Recipe if and only if it sends no null for title, ingredients or instructions, and then that Recipe is the field-by-field typed merge |
| `RecipeModel.SetFieldsIdempotent` | app/routes/recipes.py:85 | applying the same `$set` twice stores the same as applying it once |
| `RecipeRoutes.CreateKeepsValid` | app/routes/recipes.py:27-31 | create keeps every id listed once in find order and every document with exactly the four fields |
| `RecipeRoutes.UpdateKeepsValid` | app/routes/recipes.py:84-88 | update keeps every id listed once in find order and every document with exactly the four fields |
| `RecipeRoutes.DeleteKeepsValid` | app/routes/recipes.py:104-107 | delete keeps every id listed once in find order and every document with exactly the four fields |
| `RecipeRoutes.ListingSize` | app/routes/recipes.py:42-46 | the listing has exactly one entry per stored document |
| `RecipeRoutes.CreateAddsOne` | app/routes/recipes.py:27-31 | with a fresh id, create stores exactly one new document holding the recipe (image_url null when omitted), changes no other document, grows the collection by one and replies "Recipe created" with the recipe's fields plus the id as a string that parses back to it; with an id already stored it fails and changes nothing |
| `RecipeRoutes.GetAfterCreate` | app/routes/recipes.py:27-31 | get on the id a create replied with returns the very object the create replied with, which reads as the created Recipe |
| `RecipeRoutes.ListingAfterCreate` | app/routes/recipes.py:42-46 | after a create the listing is the previous listing followed by the new document |
| `RecipeRoutes.GetStored` | app/routes/recipes.py:63-66 | get on the string form of a stored id returns that document with its `_id` as that string |
| `RecipeRoutes.GetAbsent` | app/routes/recipes.py:63-67 | get on a well-formed id that is not stored raises 404 "Recipe not found" |
| `RecipeRoutes.UpdateOverwritesSentFields` | app/routes/recipes.py:84-88 | update on a stored id replies "Recipe updated", overwrites exactly the sent fields of that document, and leaves its other fields, all other documents and the order unchanged |
| `RecipeRoutes.UpdateTwiceSameAsOnce` | app/routes/recipes.py:84-88 | sending the same update to the same id twice gives the same reply and the same collection as sending it once |
| `RecipeRoutes.EmptyUpdateIsNoop` | app/routes/recipes.py:84-88 | the empty update on a stored id reports success and leaves the collection unchanged |
| `RecipeRoutes.UpdateAbsent` | app/routes/recipes.py:85-87 | update on a well-formed id that is not stored raises 404 and leaves the collection unchanged |
| `RecipeRoutes.UpdateTitleThenGet` | app/routes/recipes.py:84-88 | after an update sending only a title, get returns the same recipe with only the title changed |
| `RecipeRoutes.DeleteRemovesOne` | app/routes/recipes.py:104-107 | delete on a stored id replies "Recipe deleted", removes exactly that document, shrinks the collection by one, keeps the other documents and their order, and a later get on it raises 404 |
| `RecipeRoutes.RemoveAt` | app/routes/recipes.py:104 | taking a stored id out of the find order leaves the ids before it and after it in their order |
| `RecipeRoutes.ListingWithout` | app/routes/recipes.py:42-46 | a collection whose find order drops the k-th id and whose documents are unchanged lists exactly the old listing without its k-th entry |
| `RecipeRoutes.ListingAfterDelete` | app/routes/recipes.py:104-107 | after deleting the k-th listed document the listing is the old listing with exactly that entry taken out |
| `RecipeRoutes.DeleteAbsent` | app/routes/recipes.py:104-106 | delete on a well-formed id that is not stored raises 404 and leaves the collection unchanged |
| `RecipeRoutes.GetAfterDelete` | app/routes/recipes.py:104-107 | after any delete, get on the same string fails, with 404 whenever the id is well formed |
| `RecipeRoutes.MalformedIdNeverReachesStore` | app/routes/recipes.py:63 | for get, update and delete a malformed id fails with InvalidId, which is not the handler's 404, and leaves the collection untouched |
| `RecipeRoutes.CreateGetDeleteGet` | app/routes/recipes.py:27-31 | create replies with a non-empty string id and the three fields, get returns that same object, delete succeeds and a second get raises 404 |
| `RecipeRoutes.RecipeCollection.Create` | app/routes/recipes.py:27-31 | the method's reply and new collection are those of `CreateStep`, and the collection stays valid |
| `RecipeRoutes.RecipeCollection.ListAll` | app/routes/recipes.py:42-46 | the loop returns every stored document in find order with `_id` rendered as a string, and changes nothing |
| `RecipeRoutes.RecipeCollection.GetByID` | app/routes/recipes.py:63-67 | the reply is that of `Get`, and the collection is not changed |
| `RecipeRoutes.RecipeCollection.UpdatePartial` | app/routes/recipes.py:84-88 | the method's reply and new collection are those of `UpdateStep`, and the collection stays valid |
| `RecipeRoutes.RecipeCollection.Delete` | app/routes/recipes.py:104-107 | the method's reply and new collection are those of `DeleteStep`, and the collection stays valid |

## Left out

- The upload handler (app/routes/recipes.py:109-132) and `upload_image_to_cloudinary`: a call into the Cloudinary SDK; the handler only maps a missing URL to a 500.
- `main.py` (router prefix, CORS, the root greeting) and `app/db/mongodb.py` (the Motor client built from environment variables): wiring and I/O.
- `async`/`await` and concurrent requests: the handlers are modelled as running one after another; races between requests (last writer wins) are not modelled.
- ObjectId generation: the id `insert_one` assigns is a parameter of `Create`; the timestamp and counter layout of its twelve bytes is not modelled. A generated id that is already stored is the `DuplicateKey` failure.
- `ObjectId(s)` is modelled as accepting exactly 24 hexadecimal digits; `bytes.fromhex` also skips ASCII whitespace between digit pairs, and that corner is not modelled. Construction from 12 raw bytes is not reachable from a URL path and is not modelled.
- The order `find()` yields documents in is unspecified by MongoDB; the model keeps insertion order and removes a deleted id in place, and no lemma relies on a particular order beyond that.
- The empty update sends `{"$set": {}}`; MongoDB servers before 5.0 reject an empty `$set`. The model treats it as a successful no-op, as servers from 5.0 on do.
- Failures of the store itself (connection loss, timeouts) and how FastAPI turns an uncaught exception into a 500 reply; Pydantic's parsing of the request body and JSON serialisation of the replies.
