# API-Produit: a verified model of its CRUD and authorization core

API-Produit is a small REST service over two related entities, products (`produit`) and
locations (`lieu`), with a join table `produit_lieu` holding the stock of a product at a
location. Product endpoints sit behind a token check delegated to an external authentication
service; location endpoints do not. This project models, in Dafny:

- **the persistence model** (`models.dfy`, module `Models`): the three tables' rows, the two
  primary keys, the composite key and foreign keys of `produit_lieu`, and the delete-orphan
  cascade from both owning sides, stated as the store invariant `Integrity`;
- **the data-access layer** (`actions.dfy`, module `Actions`): a `Store` class holding the tables
  (`produits` and `lieux` as sequences of rows in storage order, `stock` as a map keyed by
  `(id_produit, lieu_id)`) and the AUTO_INCREMENT counters; list, get, create, delete (with the
  cascade) and the partial update, whose `for` loop applies `setattr` for each item of
  `model_dump(exclude_unset=True)` and is proved to implement the sparse-update law
  `PatchedProduit`/`PatchedLieu`; generic table operations (`tables.dfy`, module `Tables`);
- **the transfer schemas** (`schemas.dfy`, module `Schemas`): create payloads (all fields
  required), update payloads (every field optional, sent-null distinct from unset, no id), how a
  JSON body is read into them, and the dumped field/value items of an update;
- **the authorization gate** (`auth.dfy`, module `Auth`): the ordered verdict over the token, the
  upstream status and the upstream `validation` member, with the upstream POST as a parameter;
- **the request handlers** (`produit_router.dfy`, `lieu_router.dfy`): each endpoint as a method
  returning a `Response` (a body with its status, or a raised `HttpError`), with the 404 pass-through,
  the `"Connection failed: "` 500 mapping, the 201 on create, `{"deleted": id}` on delete, and the
  gate on product endpoints only.

A database fault is an input of each data-access step (`failure: Option<DbError>`) that runs
inside a handler's `try` block. A fault up to and at the commit leaves the store unchanged, since
the request's session is then closed without a commit. Create has a second fault input, for the
`refresh` that follows its commit: a fault there still answers 500 "Connection failed: ...", with
the new row already stored. Handlers with a lookup and a write take one fault input for each.
Faults that arise after the handler has returned, while the response is serialized, are outside
the model (see "Left out").

The location operations of the data-access layer (`get_lieux`, `get_lieu`, `create_lieu`,
`delete_lieu`, `update_lieu`) and the schemas `Lieu`, `LieuCreate`, `LieuUpdate` are called by
`app/routers/lieu.py` but defined nowhere in `app/actions.py` or `app/schemas.py`. The model
assumes they mirror the product ones, field for field (`nom`, `adresse`, `code_postal`, `ville`).

## Model

| member | source | states |
|---|---|---|
| Tables.First | app/actions.py:15-16 | the `where(...).first()` scan returns a row carrying the id, the first such in storage order, and None exactly when no row carries it |
| Tables.KeyDeterminesRow | app/models.py:22 | under the primary-key constraint two stored rows with the same key are the same row |
| Tables.RemoveKey | app/actions.py:32 | deleting the row with an id keeps exactly the rows with another id, and the key set loses exactly that id |
| Tables.RemoveKeyKeepsDistinct | app/models.py:22 | deletion keeps the primary-key constraint |
| Tables.AppendKeepsDistinct | app/actions.py:23-25 | inserting a row with a new key keeps the primary-key constraint and adds exactly that key |
| Tables.ReplaceKeyKeeps | app/actions.py:41-44 | an in-place update of the row with an id keeps every key, keeps the constraint, stores the new row and keeps every other row |
| Models.Integrity | app/models.py:22-55 | defines the store invariant: both primary keys hold and every `produit_lieu` row refers to a stored product and a stored location; `Actions.Store.Valid` includes it and every state-changing operation keeps it |
| Models.DropProduitLinks | app/models.py:28-29 | deleting a product removes exactly the `produit_lieu` rows whose `id_produit` is that product, every other link keeps its stock |
| Models.DropLieuLinks | app/models.py:45-46 | deleting a location removes exactly the `produit_lieu` rows whose `lieu_id` is that location, every other link keeps its stock |
| Models.DeleteProduitKeepsIntegrity | app/models.py:28-29 | deleting a product with the cascade keeps both primary keys and leaves no orphan link |
| Models.DeleteLieuKeepsIntegrity | app/models.py:45-46 | deleting a location with the cascade keeps both primary keys and leaves no orphan link |
| Models.DeleteWithoutCascadeOrphans | app/models.py:54-55 | without the cascade, deleting a product that has stock rows breaks the foreign key of `produit_lieu` |
| Models.ProduitWithId | app/models.py:22 | the stored product with a given id, when the id is stored |
| Models.LieuWithId | app/models.py:39 | the stored location with a given id, when the id is stored |
| Schemas.ParseProduitCreate | app/schemas.py:4-22 | a create body is accepted exactly when nom, description, prix and provenance are all present with their types, and the payload holds the sent values |
| Schemas.ParseLieuCreate | app/routers/lieu.py:39-50 | a location create body is accepted exactly when nom, adresse, code_postal and ville are all present as strings, and the payload holds the sent values |
| Schemas.ProduitCreateBody | app/schemas.py:4-11 | the JSON body of a create payload has exactly the four base members |
| Schemas.LieuCreateBody | app/routers/lieu.py:45-50 | the JSON body of a location create payload has exactly the four base members |
| Schemas.ProduitCreateRoundTrip | app/schemas.py:19-22 | reading the body of a create payload gives that payload back |
| Schemas.LieuCreateRoundTrip | app/routers/lieu.py:39-50 | reading the body of a location create payload gives that payload back |
| Schemas.ProduitCreateMissingFieldRejected | app/schemas.py:4-11 | a create body missing any one of the four fields is refused (the 422 case) |
| Schemas.LieuCreateMissingFieldRejected | app/routers/lieu.py:40 | a location create body missing any one of the four fields is refused |
| Schemas.ParseProduitUpdate | app/schemas.py:24-31 | any subset of the four fields is accepted, each of its type or null; for each field the payload records what the body sent: unset when absent, set-to-null for an explicit null, and otherwise the sent string or number |
| Schemas.ParseLieuUpdate | app/routers/lieu.py:76-77 | any subset of the four location fields is accepted, each a string or null; for each field the payload records what the body sent: unset, null or the sent string |
| Schemas.ProduitUpdateBody | app/schemas.py:24-31 | the JSON body a client sends for an update has a member only for sent fields, all among the four base fields |
| Schemas.LieuUpdateBody | app/routers/lieu.py:76-77 | the JSON body of a location update has a member only for sent fields, all among the four base fields |
| Schemas.ProduitUpdateRoundTrip | app/schemas.py:24-31 | reading the body of any update payload gives that payload back, unset and null fields included |
| Schemas.LieuUpdateRoundTrip | app/routers/lieu.py:76-77 | reading the body of any location update payload gives that payload back |
| Schemas.ProduitUpdateIgnoresId | app/schemas.py:24-31 | the update shape has no `id_produit`: such a member in the body changes nothing |
| Schemas.LieuUpdateIgnoresId | app/routers/lieu.py:76-77 | the location update shape has no `id_lieu`: such a member in the body changes nothing |
| Schemas.EmptyUpdateAccepted | app/schemas.py:28-31 | an empty body is a valid update that sets no field |
| Schemas.DumpProduitUpdate | app/actions.py:40 | `model_dump(exclude_unset=True)` yields exactly the sent fields with their sent values (null included), each field once, in declaration order |
| Schemas.DumpLieuUpdate | app/routers/lieu.py:86 | the dump of a location update yields exactly the sent fields with their values, each once |
| Actions.SetProduitAttrs | app/actions.py:41-42 | defines the row after the `setattr` loop has run over the dumped items, first to last; its meaning is proved by `Actions.SetAttrsOfDumpIsPatchedProduit` |
| Actions.SetLieuAttrs | app/routers/lieu.py:86 | the same for the location loop |
| Actions.PatchedProduit | app/actions.py:35-46 | defines the sparse-update law: each sent field, null included, takes the sent value, every other field and the id keep theirs; its laws are `Actions.PatchedProduitFields`, `Actions.PatchedProduitIdempotent` and `Actions.EmptyPatchIsIdentity` |
| Actions.PatchedLieu | app/routers/lieu.py:86 | the same law for locations |
| Actions.NewProduit | app/routers/produit.py:49-54 | defines the row built from a create payload: the four submitted values, and the id the database generates |
| Actions.NewLieu | app/routers/lieu.py:45-50 | the same for locations |
| Actions.SetProduitAttrsConcat | app/actions.py:41-42 | running the setattr loop over `a + b` is running it over `a` then over `b` |
| Actions.SetLieuAttrsConcat | app/routers/lieu.py:86 | the same for the location loop |
| Actions.SetAttrsOfDumpIsPatchedProduit | app/actions.py:40-42 | the setattr loop over the dumped payload yields the sparse update of the row |
| Actions.SetAttrsOfDumpIsPatchedLieu | app/routers/lieu.py:86 | the same for locations |
| Actions.PatchedProduitFields | app/actions.py:40-42 | after an update, each sent field holds the sent value (an explicit null is written), each unsent field and the id keep theirs |
| Actions.PatchedLieuFields | app/routers/lieu.py:86 | the same for locations (sending only adresse changes only adresse) |
| Actions.PatchedProduitIdempotent | app/actions.py:40-46 | applying the same payload twice gives the same row as applying it once |
| Actions.PatchedLieuIdempotent | app/routers/lieu.py:86 | the same for locations |
| Actions.EmptyPatchIsIdentity | app/actions.py:40-42 | an update that sends no field leaves the row as it was |
| Actions.Store.GetProduits | app/actions.py:4-9 | returns every stored product and nothing else, in storage order, or the database error |
| Actions.Store.GetProduit | app/actions.py:11-17 | returns the stored row with that id, or None exactly when no row has it, or the database error |
| Actions.Store.CreateProduit | app/actions.py:19-26 | a fault at the commit leaves the store unchanged; otherwise the row built from the payload is appended under a fresh id not used by any stored row, the counter advances, nothing else changes, and the row is returned, or the fault of the reload after the commit |
| Actions.Store.DeleteProduit | app/actions.py:28-33 | removes exactly that product and its stock rows, everything else unchanged; unchanged on a fault |
| Actions.Store.UpdateProduit | app/actions.py:35-46 | the stored row becomes the sparse update of it, in place, and is the row returned; nothing else changes; unchanged on a fault |
| Actions.Store.GetLieux | app/routers/lieu.py:16 | returns every stored location and nothing else, or the database error |
| Actions.Store.GetLieu | app/routers/lieu.py:28 | returns the stored location with that id, or None exactly when no row has it |
| Actions.Store.CreateLieu | app/routers/lieu.py:51 | a fault at the commit leaves the store unchanged; otherwise the location is appended under a fresh id, nothing else changes, and the row is returned, or the fault of the reload after the commit |
| Actions.Store.DeleteLieu | app/routers/lieu.py:67 | removes exactly that location and its stock rows; unchanged on a fault |
| Actions.Store.UpdateLieu | app/routers/lieu.py:86 | the stored location becomes the sparse update of it, in place, and is returned; unchanged on a fault |
| Auth.Verdict | app/routers/auth.py:10-22 | passes exactly for a token with upstream status 200 and `validation` exactly true; otherwise, in this order, 401 "Authorization header missing", the upstream status with "Failed to send data to external API", 403 "UnAuthorized" |
| Auth.VerifyAuthorization | app/routers/auth.py:5-22 | the gate passes exactly when a token is given and the service answers it 200 with `validation: true`; every failure is a 401, a 403 or a mirrored non-200 status |
| Auth.NoCallWithoutToken | app/routers/auth.py:10-11 | without a token the outcome is 401 whatever the service would answer: no upstream call |
| Auth.OnlyTheReplyToThePayloadMatters | app/routers/auth.py:12-16 | the outcome depends on the service only through its reply to `{token, service_key}` |
| ProduitRouter.GetProduits | app/routers/produit.py:11-22 | a gate failure is the response; a database error is 500 "Connection failed: ..."; otherwise 200 with every stored product |
| ProduitRouter.GetProduit | app/routers/produit.py:24-40 | a gate failure is the response; 500 on a database error; 404 "Produit not found" for an absent id; otherwise 200 with the stored row with that id |
| ProduitRouter.PostProduit | app/routers/produit.py:42-59 | a gate failure or a fault at the commit leaves the store unchanged; otherwise the new row, carrying the submitted fields and a fresh id, is appended and the counter advances, and the answer is 201 with that row, or 500 "Connection failed: ..." for a fault at the reload after the commit |
| ProduitRouter.DeleteProduit | app/routers/produit.py:61-78 | a gate failure, a database error or an absent id (404) leaves the store unchanged; otherwise 200 `{"deleted": id}` with the product and its stock rows gone |
| ProduitRouter.PatchProduit | app/routers/produit.py:80-98 | a gate failure, a database error or an absent id (404) leaves the store unchanged; otherwise 200 with the stored row updated in place with exactly the sent fields |
| LieuRouter.GetLieux | app/routers/lieu.py:10-20 | no gate; 500 on a database error; otherwise 200 with every stored location |
| LieuRouter.GetLieu | app/routers/lieu.py:22-37 | no gate; 500 on a database error; 404 "Lieu not found" for an absent id; otherwise 200 with the stored location |
| LieuRouter.PostLieu | app/routers/lieu.py:39-55 | no gate; a fault at the commit is 500 with the store unchanged; otherwise the new row with a fresh id is appended, and the answer is 201 with it, or 500 for a fault at the reload after the commit |
| LieuRouter.DeleteLieu | app/routers/lieu.py:57-73 | no gate; 500 or 404 leave the store unchanged; otherwise 200 `{"deleted": id}` with the location and its stock rows gone |
| LieuRouter.PatchLieu | app/routers/lieu.py:75-92 | no gate; 500 or 404 leave the store unchanged; otherwise 200 with the stored location updated with exactly the sent fields |

## Left out

- Database configuration and the session lifecycle (`app/connexion.py`): environment variables, engine selection and `get_db` are configuration and I/O; the model has one in-memory store.
- Table creation (`app/routers/database.py`, `create_tables`): a database side effect only.
- Application wiring (`app/main.py`): routing and mounting are not modelled; note that as written it mounts only the database router.
- The network call of the gate: the URL and service key from the environment, `requests.post` and its 10-second timeout. The service is a function parameter; the source does not handle a transport exception, so no branch is invented for one. A reply body that is not a JSON object is not modelled.
- Framework machinery: how the 422 is produced and the order in which body validation and the gate are resolved. Body validation is the separate `Parse*` functions; handlers take an already validated payload. Pydantic's lax coercions (a numeric string accepted as a float, and the like) are not modelled: a `str` field takes a JSON string, `prix` a JSON number.
- Numerics of `prix`: a float in the schema and DECIMAL(5,2) in the column; it is an exact `real` here, with no rounding.
- Column length limits and NOT NULL constraints: the database enforces them, not the code. An explicit null in an update is written onto the row as the code does; a database that refuses it at commit is the commit's abstract failure.
- Output serialization (`response_model`): handlers return the stored rows themselves.
- ORM internals (commit, refresh, transactions): every database fault inside a handler's `try` block is one abstract `DbError` whose message the 500 detail carries.
- ProduitRouter.GetProduits, LieuRouter.GetLieux: `get_produits` returns an unexecuted query, and its SELECT runs while the response is serialized, after the handler has left its `try` block. A fault in that SELECT is the framework's unhandled 500, not "Connection failed: ...", and is not modelled; the `failure` input stands for a fault of the `query(...)` call itself.
- ProduitRouter.PatchProduit, LieuRouter.PatchLieu: the commit expires the row's attributes, which are reloaded while the response is serialized, outside the `try` block. A fault in that reload, with the change already committed, is not modelled.
- Actions.Store.CreateProduit, Actions.Store.CreateLieu: an insert whose commit fails may still consume an AUTO_INCREMENT value; the model's counter advances only on a successful commit, so ids of later rows may differ from the database's (they stay fresh).
- Creation of `produit_lieu` rows: no operation of the core creates them; `Store.Open` takes any database state that meets the schema's constraints.
- Concurrency between requests: each handler runs alone against the store.
- Row order: `query(...)` without ORDER BY has no guaranteed order; the model returns storage order.
