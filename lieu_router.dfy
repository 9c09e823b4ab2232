/** The `/lieu` endpoints: the same outcome rules as `/produit` with detail "Lieu not found",
    and no authorization gate, so no outcome depends on a token. */
module LieuRouter {
  import opened Wrappers
  import opened Http
  import opened Tables
  import opened Models
  import opened Schemas
  import opened Actions

  const LieuNotFound: HttpError := HttpError(404, "Lieu not found")

  /** GET /lieu */
  method GetLieux(store: Store, failure: Option<DbError>) returns (resp: Response<seq<Lieu>>)
    ensures failure.Some? ==> resp == Raised(ConnectionFailed(failure.value.message))
    ensures failure.None? ==> resp == Ok(200, store.lieux)
  {
    var all := store.GetLieux(failure);
    match all {
      case Failure(e) => resp := Raised(ConnectionFailed(e.message));
      case Success(rows) => resp := Ok(200, rows);
    }
  }

  /** GET /lieu/{id_lieu} */
  method GetLieu(store: Store, idLieu: int, failure: Option<DbError>) returns (resp: Response<Lieu>)
    requires store.Valid()
    ensures failure.Some? ==> resp == Raised(ConnectionFailed(failure.value.message))
    ensures failure.None? ==>
              if idLieu in LieuIds(store.lieux)
              then resp.Ok? && resp.statusCode == 200 && resp.body in store.lieux && resp.body.idLieu == idLieu
              else resp == Raised(LieuNotFound)
  {
    var found := store.GetLieu(idLieu, failure);
    match found {
      case Failure(e) => resp := Raised(ConnectionFailed(e.message));
      case Success(None) => resp := Raised(LieuNotFound);
      case Success(Some(row)) => resp := Ok(200, row);
    }
  }

  /** POST /lieu: 201 with the stored row, which carries the submitted fields and a fresh id.
      A fault at the reload after the commit still answers 500, with the row stored. */
  method PostLieu(store: Store, payload: LieuCreate, commitFailure: Option<DbError>, refreshFailure: Option<DbError>)
    returns (resp: Response<Lieu>)
    requires store.Valid()
    modifies store
    ensures store.Valid()
    ensures commitFailure.Some? ==> resp == Raised(ConnectionFailed(commitFailure.value.message)) && unchanged(store)
    ensures commitFailure.None? ==>
              && old(store.nextLieuId) !in LieuIds(old(store.lieux))
              && store.lieux == old(store.lieux) + [NewLieu(old(store.nextLieuId), payload)]
              && store.nextLieuId == old(store.nextLieuId) + 1
              && store.produits == old(store.produits) && store.stock == old(store.stock)
              && store.nextProduitId == old(store.nextProduitId)
              && resp == if refreshFailure.Some? then Raised(ConnectionFailed(refreshFailure.value.message))
                         else Ok(201, NewLieu(old(store.nextLieuId), payload))
  {
    var created := store.CreateLieu(payload, commitFailure, refreshFailure);
    match created {
      case Failure(e) => resp := Raised(ConnectionFailed(e.message));
      case Success(row) => resp := Ok(201, row);
    }
  }

  /** DELETE /lieu/{id_lieu}: `{"deleted": id_lieu}`, the location and its stock rows gone. */
  method DeleteLieu(store: Store, idLieu: int, lookupFailure: Option<DbError>, deleteFailure: Option<DbError>)
    returns (resp: Response<Deleted>)
    requires store.Valid()
    modifies store
    ensures store.Valid()
    ensures lookupFailure.Some? ==> resp == Raised(ConnectionFailed(lookupFailure.value.message)) && unchanged(store)
    ensures lookupFailure.None? && idLieu !in LieuIds(old(store.lieux)) ==> resp == Raised(LieuNotFound) && unchanged(store)
    ensures lookupFailure.None? && idLieu in LieuIds(old(store.lieux)) ==>
              if deleteFailure.Some?
              then resp == Raised(ConnectionFailed(deleteFailure.value.message)) && unchanged(store)
              else && resp == Ok(200, Deleted(idLieu))
                   && store.lieux == RemoveKey(old(store.lieux), LieuKey, idLieu)
                   && store.stock == DropLieuLinks(old(store.stock), idLieu)
                   && store.produits == old(store.produits)
                   && store.nextProduitId == old(store.nextProduitId) && store.nextLieuId == old(store.nextLieuId)
  {
    var found := store.GetLieu(idLieu, lookupFailure);
    match found {
      case Failure(e) => resp := Raised(ConnectionFailed(e.message));
      case Success(None) => resp := Raised(LieuNotFound);
      case Success(Some(row)) =>
        var deleted := store.DeleteLieu(row, deleteFailure);
        match deleted {
          case Fail(e) => resp := Raised(ConnectionFailed(e.message));
          case Pass => resp := Ok(200, Deleted(idLieu));
        }
    }
  }

  /** PATCH /lieu/{id_lieu}: the stored row with exactly the sent fields changed. */
  method PatchLieu(store: Store, idLieu: int, payload: LieuUpdate,
                   lookupFailure: Option<DbError>, commitFailure: Option<DbError>)
    returns (resp: Response<Lieu>)
    requires store.Valid()
    modifies store
    ensures store.Valid()
    ensures lookupFailure.Some? ==> resp == Raised(ConnectionFailed(lookupFailure.value.message)) && unchanged(store)
    ensures lookupFailure.None? && idLieu !in LieuIds(old(store.lieux)) ==> resp == Raised(LieuNotFound) && unchanged(store)
    ensures lookupFailure.None? && idLieu in LieuIds(old(store.lieux)) ==>
              if commitFailure.Some?
              then resp == Raised(ConnectionFailed(commitFailure.value.message)) && unchanged(store)
              else && resp == Ok(200, PatchedLieu(LieuWithId(old(store.lieux), idLieu), payload))
                   && store.lieux == ReplaceKey(old(store.lieux), LieuKey, idLieu, resp.body)
                   && store.produits == old(store.produits) && store.stock == old(store.stock)
                   && store.nextProduitId == old(store.nextProduitId) && store.nextLieuId == old(store.nextLieuId)
  {
    var found := store.GetLieu(idLieu, lookupFailure);
    match found {
      case Failure(e) => resp := Raised(ConnectionFailed(e.message));
      case Success(None) => resp := Raised(LieuNotFound);
      case Success(Some(row)) =>
        KeyDeterminesRow(store.lieux, LieuKey, row, LieuWithId(store.lieux, idLieu));
        var updated := store.UpdateLieu(row, payload, commitFailure);
        match updated {
          case Failure(e) => resp := Raised(ConnectionFailed(e.message));
          case Success(r) => resp := Ok(200, r);
        }
    }
  }

  /** PATCH /lieu/1 with `{"adresse": "4 rue monnaie"}` on the stored location 1: 200, the address
      is the new one and every other field is the stored one. */
  method PatchAdresseScenario()
  {
    var row := Lieu(1, Some("test"), Some("3 rue monnaie"), Some("59000"), Some("France"));
    var store := new Store.Open([], [row], map[], 1, 2);
    var body := map["adresse" := Json.JString("4 rue monnaie")];
    var payload := ParseLieuUpdate(body);
    assert payload == Some(LieuUpdate(Unset, Set(Some("4 rue monnaie")), Unset, Unset));
    assert 1 in LieuIds(store.lieux) by { assert LieuKey(store.lieux[0]) == 1; }
    var resp := PatchLieu(store, 1, payload.value, None, None);
    assert resp == Ok(200, Lieu(1, Some("test"), Some("4 rue monnaie"), Some("59000"), Some("France")));
  }
}
