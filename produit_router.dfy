/** The `/produit` endpoints. Each first runs the authorization gate (a failure there is the
    response and nothing else happens), then one data-access step or two; an absent id raises
    404 "Produit not found", which passes through unchanged, and any database exception becomes
    500 "Connection failed: <message>". A database step that raises leaves the store as it was. */
module ProduitRouter {
  import opened Wrappers
  import opened Http
  import opened Tables
  import opened Models
  import opened Schemas
  import opened Actions
  import Auth

  const ProduitNotFound: HttpError := HttpError(404, "Produit not found")

  /** GET /produit */
  method GetProduits(store: Store, token: Option<string>, auth: Auth.Service, failure: Option<DbError>)
    returns (resp: Response<seq<Produit>>)
    ensures Auth.VerifyAuthorization(token, auth).Fail? ==> resp == Raised(Auth.VerifyAuthorization(token, auth).error)
    ensures Auth.VerifyAuthorization(token, auth).Pass? && failure.Some? ==>
              resp == Raised(ConnectionFailed(failure.value.message))
    ensures Auth.VerifyAuthorization(token, auth).Pass? && failure.None? ==> resp == Ok(200, store.produits)
  {
    var gate := Auth.VerifyAuthorization(token, auth);
    if gate.Fail? {
      return Raised(gate.error);
    }
    var all := store.GetProduits(failure);
    match all {
      case Failure(e) => resp := Raised(ConnectionFailed(e.message));
      case Success(rows) => resp := Ok(200, rows);
    }
  }

  /** GET /produit/{id_produit} */
  method GetProduit(store: Store, token: Option<string>, auth: Auth.Service, idProduit: int, failure: Option<DbError>)
    returns (resp: Response<Produit>)
    requires store.Valid()
    ensures Auth.VerifyAuthorization(token, auth).Fail? ==> resp == Raised(Auth.VerifyAuthorization(token, auth).error)
    ensures Auth.VerifyAuthorization(token, auth).Pass? && failure.Some? ==>
              resp == Raised(ConnectionFailed(failure.value.message))
    ensures Auth.VerifyAuthorization(token, auth).Pass? && failure.None? ==>
              if idProduit in ProduitIds(store.produits)
              then resp.Ok? && resp.statusCode == 200 && resp.body in store.produits && resp.body.idProduit == idProduit
              else resp == Raised(ProduitNotFound)
  {
    var gate := Auth.VerifyAuthorization(token, auth);
    if gate.Fail? {
      return Raised(gate.error);
    }
    var found := store.GetProduit(idProduit, failure);
    match found {
      case Failure(e) => resp := Raised(ConnectionFailed(e.message));
      case Success(None) => resp := Raised(ProduitNotFound);
      case Success(Some(row)) => resp := Ok(200, row);
    }
  }

  /** POST /produit: 201 with the stored row, which carries the submitted fields and a fresh id.
      A fault at the commit leaves the store as it was; a fault at the reload after the commit
      still answers 500, with the row stored. */
  method PostProduit(store: Store, token: Option<string>, auth: Auth.Service, payload: ProduitCreate,
                     commitFailure: Option<DbError>, refreshFailure: Option<DbError>)
    returns (resp: Response<Produit>)
    requires store.Valid()
    modifies store
    ensures store.Valid()
    ensures Auth.VerifyAuthorization(token, auth).Fail? ==>
              resp == Raised(Auth.VerifyAuthorization(token, auth).error) && unchanged(store)
    ensures Auth.VerifyAuthorization(token, auth).Pass? && commitFailure.Some? ==>
              resp == Raised(ConnectionFailed(commitFailure.value.message)) && unchanged(store)
    ensures Auth.VerifyAuthorization(token, auth).Pass? && commitFailure.None? ==>
              && old(store.nextProduitId) !in ProduitIds(old(store.produits))
              && store.produits == old(store.produits) + [NewProduit(old(store.nextProduitId), payload)]
              && store.nextProduitId == old(store.nextProduitId) + 1
              && store.lieux == old(store.lieux) && store.stock == old(store.stock)
              && store.nextLieuId == old(store.nextLieuId)
              && resp == if refreshFailure.Some? then Raised(ConnectionFailed(refreshFailure.value.message))
                         else Ok(201, NewProduit(old(store.nextProduitId), payload))
  {
    var gate := Auth.VerifyAuthorization(token, auth);
    if gate.Fail? {
      return Raised(gate.error);
    }
    var created := store.CreateProduit(payload, commitFailure, refreshFailure);
    match created {
      case Failure(e) => resp := Raised(ConnectionFailed(e.message));
      case Success(row) => resp := Ok(201, row);
    }
  }

  /** DELETE /produit/{id_produit}: `{"deleted": id_produit}`, the product and its stock rows gone. */
  method DeleteProduit(store: Store, token: Option<string>, auth: Auth.Service, idProduit: int,
                       lookupFailure: Option<DbError>, deleteFailure: Option<DbError>)
    returns (resp: Response<Deleted>)
    requires store.Valid()
    modifies store
    ensures store.Valid()
    ensures Auth.VerifyAuthorization(token, auth).Fail? ==>
              resp == Raised(Auth.VerifyAuthorization(token, auth).error) && unchanged(store)
    ensures Auth.VerifyAuthorization(token, auth).Pass? && lookupFailure.Some? ==>
              resp == Raised(ConnectionFailed(lookupFailure.value.message)) && unchanged(store)
    ensures Auth.VerifyAuthorization(token, auth).Pass? && lookupFailure.None? && idProduit !in ProduitIds(old(store.produits)) ==>
              resp == Raised(ProduitNotFound) && unchanged(store)
    ensures Auth.VerifyAuthorization(token, auth).Pass? && lookupFailure.None? && idProduit in ProduitIds(old(store.produits)) ==>
              if deleteFailure.Some?
              then resp == Raised(ConnectionFailed(deleteFailure.value.message)) && unchanged(store)
              else && resp == Ok(200, Deleted(idProduit))
                   && store.produits == RemoveKey(old(store.produits), ProduitKey, idProduit)
                   && store.stock == DropProduitLinks(old(store.stock), idProduit)
                   && store.lieux == old(store.lieux)
                   && store.nextProduitId == old(store.nextProduitId) && store.nextLieuId == old(store.nextLieuId)
  {
    var gate := Auth.VerifyAuthorization(token, auth);
    if gate.Fail? {
      return Raised(gate.error);
    }
    var found := store.GetProduit(idProduit, lookupFailure);
    match found {
      case Failure(e) => resp := Raised(ConnectionFailed(e.message));
      case Success(None) => resp := Raised(ProduitNotFound);
      case Success(Some(row)) =>
        var deleted := store.DeleteProduit(row, deleteFailure);
        match deleted {
          case Fail(e) => resp := Raised(ConnectionFailed(e.message));
          case Pass => resp := Ok(200, Deleted(idProduit));
        }
    }
  }

  /** PATCH /produit/{id_produit}: the stored row with exactly the sent fields changed. */
  method PatchProduit(store: Store, token: Option<string>, auth: Auth.Service, idProduit: int, payload: ProduitUpdate,
                      lookupFailure: Option<DbError>, commitFailure: Option<DbError>)
    returns (resp: Response<Produit>)
    requires store.Valid()
    modifies store
    ensures store.Valid()
    ensures Auth.VerifyAuthorization(token, auth).Fail? ==>
              resp == Raised(Auth.VerifyAuthorization(token, auth).error) && unchanged(store)
    ensures Auth.VerifyAuthorization(token, auth).Pass? && lookupFailure.Some? ==>
              resp == Raised(ConnectionFailed(lookupFailure.value.message)) && unchanged(store)
    ensures Auth.VerifyAuthorization(token, auth).Pass? && lookupFailure.None? && idProduit !in ProduitIds(old(store.produits)) ==>
              resp == Raised(ProduitNotFound) && unchanged(store)
    ensures Auth.VerifyAuthorization(token, auth).Pass? && lookupFailure.None? && idProduit in ProduitIds(old(store.produits)) ==>
              if commitFailure.Some?
              then resp == Raised(ConnectionFailed(commitFailure.value.message)) && unchanged(store)
              else && resp == Ok(200, PatchedProduit(ProduitWithId(old(store.produits), idProduit), payload))
                   && store.produits == ReplaceKey(old(store.produits), ProduitKey, idProduit, resp.body)
                   && store.lieux == old(store.lieux) && store.stock == old(store.stock)
                   && store.nextProduitId == old(store.nextProduitId) && store.nextLieuId == old(store.nextLieuId)
  {
    var gate := Auth.VerifyAuthorization(token, auth);
    if gate.Fail? {
      return Raised(gate.error);
    }
    var found := store.GetProduit(idProduit, lookupFailure);
    match found {
      case Failure(e) => resp := Raised(ConnectionFailed(e.message));
      case Success(None) => resp := Raised(ProduitNotFound);
      case Success(Some(row)) =>
        KeyDeterminesRow(store.produits, ProduitKey, row, ProduitWithId(store.produits, idProduit));
        var updated := store.UpdateProduit(row, payload, commitFailure);
        match updated {
          case Failure(e) => resp := Raised(ConnectionFailed(e.message));
          case Success(r) => resp := Ok(200, r);
        }
    }
  }

  /** DELETE /produit/1 on a store without product 1, with a valid token: 404 and nothing deleted. */
  method DeleteAbsentProduitScenario(auth: Auth.Service)
    requires auth.post(Auth.Request("valid-token", auth.serviceKey)) == Auth.Reply(200, map["validation" := Json.JBool(true)])
  {
    var store := new Store.Open([], [], map[], 1, 1);
    var resp := DeleteProduit(store, Some("valid-token"), auth, 1, None, None);
    assert resp == Raised(HttpError(404, "Produit not found"));
    assert store.produits == [];
  }
}
