/** The data-access layer: an in-memory database holding the three tables, with the list, get,
    create, delete and partial-update operations for products and (mirrored) for locations.
    A database fault is an input: `failure == Some(e)` makes the step raise `e`. A fault up to
    and at the commit leaves the store in its old state, since the request's session is then
    closed without a commit; a fault at the reload that follows a commit leaves the committed
    change in place. */
module Actions {
  import opened Wrappers
  import opened Tables
  import opened Models
  import opened Schemas

  /** An exception of the database layer, with its message. */
  datatype DbError = DbError(message: string)

  // ---------------------------------------------------------------------------------------
  // Partial update: setattr for each dumped item, and the sparse-update law it implements

  /** `setattr(row, key, value)` for one dumped item. */
  function SetProduitAttr(row: Produit, a: ProduitItem): Produit
  {
    match a
    case NomTo(v) => row.(nom := v)
    case DescriptionTo(v) => row.(description := v)
    case PrixTo(v) => row.(prix := v)
    case ProvenanceTo(v) => row.(provenance := v)
  }

  function SetLieuAttr(row: Lieu, a: LieuItem): Lieu
  {
    match a
    case NomTo(v) => row.(nom := v)
    case AdresseTo(v) => row.(adresse := v)
    case CodePostalTo(v) => row.(codePostal := v)
    case VilleTo(v) => row.(ville := v)
  }

  /** The row after the loop has run over `items`, first to last. */
  function SetProduitAttrs(row: Produit, items: seq<ProduitItem>): Produit
  {
    if items == [] then row else SetProduitAttr(SetProduitAttrs(row, items[..|items| - 1]), items[|items| - 1])
  }

  function SetLieuAttrs(row: Lieu, items: seq<LieuItem>): Lieu
  {
    if items == [] then row else SetLieuAttr(SetLieuAttrs(row, items[..|items| - 1]), items[|items| - 1])
  }

  /** A field keeps its value unless it was sent. */
  function Overlay<T>(current: Option<T>, p: Patch<T>): Option<T>
  {
    match p
    case Unset => current
    case Set(v) => v
  }

  /** The sparse-update law: each field sent in the payload (null included) takes the sent value,
      every other field and the id keep theirs. */
  function PatchedProduit(row: Produit, u: ProduitUpdate): Produit
  {
    Produit(row.idProduit, Overlay(row.nom, u.nom), Overlay(row.description, u.description),
            Overlay(row.prix, u.prix), Overlay(row.provenance, u.provenance))
  }

  function PatchedLieu(row: Lieu, u: LieuUpdate): Lieu
  {
    Lieu(row.idLieu, Overlay(row.nom, u.nom), Overlay(row.adresse, u.adresse),
         Overlay(row.codePostal, u.codePostal), Overlay(row.ville, u.ville))
  }

  /** Running the loop over `a + b` is running it over `a`, then over `b`. */
  lemma {:induction false} SetProduitAttrsConcat(row: Produit, a: seq<ProduitItem>, b: seq<ProduitItem>)
    ensures SetProduitAttrs(row, a + b) == SetProduitAttrs(SetProduitAttrs(row, a), b)
    decreases |b|
  {
    if b != [] {
      var b' := b[..|b| - 1];
      assert (a + b)[..|a + b| - 1] == a + b';
      assert (a + b)[|a + b| - 1] == b[|b| - 1];
      SetProduitAttrsConcat(row, a, b');
    } else {
      assert a + b == a;
    }
  }

  lemma {:induction false} SetLieuAttrsConcat(row: Lieu, a: seq<LieuItem>, b: seq<LieuItem>)
    ensures SetLieuAttrs(row, a + b) == SetLieuAttrs(SetLieuAttrs(row, a), b)
    decreases |b|
  {
    if b != [] {
      var b' := b[..|b| - 1];
      assert (a + b)[..|a + b| - 1] == a + b';
      assert (a + b)[|a + b| - 1] == b[|b| - 1];
      SetLieuAttrsConcat(row, a, b');
    } else {
      assert a + b == a;
    }
  }

  /** The setattr loop over the dumped payload implements the sparse-update law. */
  lemma SetAttrsOfDumpIsPatchedProduit(row: Produit, u: ProduitUpdate)
    ensures SetProduitAttrs(row, DumpProduitUpdate(u)) == PatchedProduit(row, u)
  {
    var a := if u.nom.Set? then [ProduitItem.NomTo(u.nom.value)] else [];
    var b := if u.description.Set? then [DescriptionTo(u.description.value)] else [];
    var c := if u.prix.Set? then [PrixTo(u.prix.value)] else [];
    var d := if u.provenance.Set? then [ProvenanceTo(u.provenance.value)] else [];
    assert DumpProduitUpdate(u) == a + b + c + d;
    SetProduitAttrsConcat(row, a + b + c, d);
    SetProduitAttrsConcat(row, a + b, c);
    SetProduitAttrsConcat(row, a, b);
  }

  lemma SetAttrsOfDumpIsPatchedLieu(row: Lieu, u: LieuUpdate)
    ensures SetLieuAttrs(row, DumpLieuUpdate(u)) == PatchedLieu(row, u)
  {
    var a := if u.nom.Set? then [LieuItem.NomTo(u.nom.value)] else [];
    var b := if u.adresse.Set? then [AdresseTo(u.adresse.value)] else [];
    var c := if u.codePostal.Set? then [CodePostalTo(u.codePostal.value)] else [];
    var d := if u.ville.Set? then [VilleTo(u.ville.value)] else [];
    assert DumpLieuUpdate(u) == a + b + c + d;
    SetLieuAttrsConcat(row, a + b + c, d);
    SetLieuAttrsConcat(row, a + b, c);
    SetLieuAttrsConcat(row, a, b);
  }

  /** The sparse-update law field by field: sent fields hold the sent value (an explicit null is
      written), unsent fields and the id are unchanged. */
  lemma PatchedProduitFields(row: Produit, u: ProduitUpdate)
    ensures PatchedProduit(row, u).idProduit == row.idProduit
    ensures u.nom.Set? ==> PatchedProduit(row, u).nom == u.nom.value
    ensures u.nom.Unset? ==> PatchedProduit(row, u).nom == row.nom
    ensures u.description.Set? ==> PatchedProduit(row, u).description == u.description.value
    ensures u.description.Unset? ==> PatchedProduit(row, u).description == row.description
    ensures u.prix.Set? ==> PatchedProduit(row, u).prix == u.prix.value
    ensures u.prix.Unset? ==> PatchedProduit(row, u).prix == row.prix
    ensures u.provenance.Set? ==> PatchedProduit(row, u).provenance == u.provenance.value
    ensures u.provenance.Unset? ==> PatchedProduit(row, u).provenance == row.provenance
  {
  }

  lemma PatchedLieuFields(row: Lieu, u: LieuUpdate)
    ensures PatchedLieu(row, u).idLieu == row.idLieu
    ensures u.nom.Set? ==> PatchedLieu(row, u).nom == u.nom.value
    ensures u.nom.Unset? ==> PatchedLieu(row, u).nom == row.nom
    ensures u.adresse.Set? ==> PatchedLieu(row, u).adresse == u.adresse.value
    ensures u.adresse.Unset? ==> PatchedLieu(row, u).adresse == row.adresse
    ensures u.codePostal.Set? ==> PatchedLieu(row, u).codePostal == u.codePostal.value
    ensures u.codePostal.Unset? ==> PatchedLieu(row, u).codePostal == row.codePostal
    ensures u.ville.Set? ==> PatchedLieu(row, u).ville == u.ville.value
    ensures u.ville.Unset? ==> PatchedLieu(row, u).ville == row.ville
  {
  }

  /** Applying the same payload twice gives the row applying it once gives. */
  lemma PatchedProduitIdempotent(row: Produit, u: ProduitUpdate)
    ensures PatchedProduit(PatchedProduit(row, u), u) == PatchedProduit(row, u)
  {
  }

  lemma PatchedLieuIdempotent(row: Lieu, u: LieuUpdate)
    ensures PatchedLieu(PatchedLieu(row, u), u) == PatchedLieu(row, u)
  {
  }

  /** An empty payload leaves the row as it was. */
  lemma EmptyPatchIsIdentity(p: Produit, l: Lieu)
    ensures PatchedProduit(p, ProduitUpdate(Unset, Unset, Unset, Unset)) == p
    ensures PatchedLieu(l, LieuUpdate(Unset, Unset, Unset, Unset)) == l
  {
  }

  // ---------------------------------------------------------------------------------------
  // The database

  /** The new row `models.Produit(nom=..., description=..., prix=..., provenance=...)` built from
      a create payload, with the id the database generated. */
  function NewProduit(id: int, c: ProduitCreate): Produit
  {
    Produit(id, Some(c.nom), Some(c.description), Some(c.prix), Some(c.provenance))
  }

  function NewLieu(id: int, c: LieuCreate): Lieu
  {
    Lieu(id, Some(c.nom), Some(c.adresse), Some(c.codePostal), Some(c.ville))
  }

  class Store {
    var produits: seq<Produit>
    var lieux: seq<Lieu>
    var stock: StockTable
    /** The AUTO_INCREMENT counters of the two tables: the next id an insert receives. */
    var nextProduitId: int
    var nextLieuId: int

    /** The schema's constraints hold and every stored id was handed out by its counter. */
    ghost predicate Valid()
      reads this
    {
      && Integrity(produits, lieux, stock)
      && 0 < nextProduitId && 0 < nextLieuId
      && (forall id :: id in ProduitIds(produits) ==> 0 < id < nextProduitId)
      && (forall id :: id in LieuIds(lieux) ==> 0 < id < nextLieuId)
    }

    /** A database in any state the schema allows. */
    constructor Open(produits: seq<Produit>, lieux: seq<Lieu>, stock: StockTable, nextProduitId: int, nextLieuId: int)
      requires Integrity(produits, lieux, stock)
      requires 0 < nextProduitId && 0 < nextLieuId
      requires forall id :: id in ProduitIds(produits) ==> 0 < id < nextProduitId
      requires forall id :: id in LieuIds(lieux) ==> 0 < id < nextLieuId
      ensures Valid()
      ensures this.produits == produits && this.lieux == lieux && this.stock == stock
      ensures this.nextProduitId == nextProduitId && this.nextLieuId == nextLieuId
    {
      this.produits := produits;
      this.lieux := lieux;
      this.stock := stock;
      this.nextProduitId := nextProduitId;
      this.nextLieuId := nextLieuId;
    }

    // ----- produit (app/actions.py)

    /** get_produits: every stored product and nothing else, in storage order. */
    method GetProduits(failure: Option<DbError>) returns (r: Result<seq<Produit>, DbError>)
      ensures failure.Some? ==> r == Failure(failure.value)
      ensures failure.None? ==> r.Success? && r.value == produits
    {
      if failure.Some? {
        return Failure(failure.value);
      }
      return Success(produits);
    }

    /** get_produit: the stored row with that id, or None when no row has it. */
    method GetProduit(idProduit: int, failure: Option<DbError>) returns (r: Result<Option<Produit>, DbError>)
      requires Valid()
      ensures failure.Some? ==> r == Failure(failure.value)
      ensures failure.None? ==> r.Success?
      ensures r.Success? ==> (r.value.None? <==> idProduit !in ProduitIds(produits))
      ensures r.Success? && r.value.Some? ==> r.value.value in produits && r.value.value.idProduit == idProduit
    {
      if failure.Some? {
        return Failure(failure.value);
      }
      var found := First(produits, ProduitKey, idProduit);
      NotInKeys(produits, ProduitKey, idProduit);
      return Success(found);
    }

    /** create_produit: inserts the row under a fresh generated id, commits, then reloads the row
        and returns it. A fault at the reload comes after the commit: the row stays stored. */
    method CreateProduit(c: ProduitCreate, commitFailure: Option<DbError>, refreshFailure: Option<DbError>)
      returns (r: Result<Produit, DbError>)
      requires Valid()
      modifies this
      ensures Valid()
      ensures commitFailure.Some? ==> r == Failure(commitFailure.value) && unchanged(this)
      ensures commitFailure.None? ==> && produits == old(produits) + [NewProduit(old(nextProduitId), c)]
                                      && old(nextProduitId) !in ProduitIds(old(produits))
                                      && nextProduitId == old(nextProduitId) + 1
                                      && lieux == old(lieux) && stock == old(stock)
                                      && nextLieuId == old(nextLieuId)
      ensures commitFailure.None? ==>
                r == if refreshFailure.Some? then Failure(refreshFailure.value)
                     else Success(NewProduit(old(nextProduitId), c))
    {
      if commitFailure.Some? {
        return Failure(commitFailure.value);
      }
      var row := NewProduit(nextProduitId, c);
      assert nextProduitId !in ProduitIds(produits);
      AppendKeepsDistinct(produits, ProduitKey, row);
      assert ProduitIds(produits + [row]) == ProduitIds(produits) + {nextProduitId};
      produits := produits + [row];
      nextProduitId := nextProduitId + 1;
      if refreshFailure.Some? {
        return Failure(refreshFailure.value);
      }
      return Success(row);
    }

    /** delete_produit: removes the row and, by cascade, its stock rows. */
    method DeleteProduit(row: Produit, failure: Option<DbError>) returns (r: Outcome<DbError>)
      requires Valid() && row in produits
      modifies this
      ensures Valid()
      ensures failure.Some? ==> r == Fail(failure.value) && unchanged(this)
      ensures failure.None? ==> && r == Pass
                                && produits == RemoveKey(old(produits), ProduitKey, row.idProduit)
                                && stock == DropProduitLinks(old(stock), row.idProduit)
                                && lieux == old(lieux)
                                && nextProduitId == old(nextProduitId) && nextLieuId == old(nextLieuId)
    {
      if failure.Some? {
        return Fail(failure.value);
      }
      DeleteProduitKeepsIntegrity(produits, lieux, stock, row.idProduit);
      assert ProduitIds(RemoveKey(produits, ProduitKey, row.idProduit)) == ProduitIds(produits) - {row.idProduit};
      produits := RemoveKey(produits, ProduitKey, row.idProduit);
      stock := DropProduitLinks(stock, row.idProduit);
      return Pass;
    }

    /** update_produit: sets, on the stored row, each field the payload sent, then commits; the
        row returned is the row stored. */
    method UpdateProduit(row: Produit, payload: ProduitUpdate, failure: Option<DbError>)
      returns (r: Result<Produit, DbError>)
      requires Valid() && row in produits
      modifies this
      ensures Valid()
      ensures failure.Some? ==> r == Failure(failure.value) && unchanged(this)
      ensures failure.None? ==> && r == Success(PatchedProduit(row, payload))
                                && produits == ReplaceKey(old(produits), ProduitKey, row.idProduit, r.value)
                                && r.value in produits
                                && lieux == old(lieux) && stock == old(stock)
                                && nextProduitId == old(nextProduitId) && nextLieuId == old(nextLieuId)
    {
      var data := DumpProduitUpdate(payload);
      var updated := row;
      for i := 0 to |data|
        invariant updated == SetProduitAttrs(row, data[..i])
      {
        assert data[..i + 1][..i] == data[..i];
        updated := SetProduitAttr(updated, data[i]);
      }
      assert data[..|data|] == data;
      SetAttrsOfDumpIsPatchedProduit(row, payload);
      if failure.Some? {
        return Failure(failure.value);
      }
      assert row.idProduit in ProduitIds(produits);
      ReplaceKeyKeeps(produits, ProduitKey, row.idProduit, updated);
      produits := ReplaceKey(produits, ProduitKey, row.idProduit, updated);
      return Success(updated);
    }

    // ----- lieu: the same operations, mirrored from produit

    method GetLieux(failure: Option<DbError>) returns (r: Result<seq<Lieu>, DbError>)
      ensures failure.Some? ==> r == Failure(failure.value)
      ensures failure.None? ==> r.Success? && r.value == lieux
    {
      if failure.Some? {
        return Failure(failure.value);
      }
      return Success(lieux);
    }

    method GetLieu(idLieu: int, failure: Option<DbError>) returns (r: Result<Option<Lieu>, DbError>)
      requires Valid()
      ensures failure.Some? ==> r == Failure(failure.value)
      ensures failure.None? ==> r.Success?
      ensures r.Success? ==> (r.value.None? <==> idLieu !in LieuIds(lieux))
      ensures r.Success? && r.value.Some? ==> r.value.value in lieux && r.value.value.idLieu == idLieu
    {
      if failure.Some? {
        return Failure(failure.value);
      }
      var found := First(lieux, LieuKey, idLieu);
      NotInKeys(lieux, LieuKey, idLieu);
      return Success(found);
    }

    method CreateLieu(c: LieuCreate, commitFailure: Option<DbError>, refreshFailure: Option<DbError>)
      returns (r: Result<Lieu, DbError>)
      requires Valid()
      modifies this
      ensures Valid()
      ensures commitFailure.Some? ==> r == Failure(commitFailure.value) && unchanged(this)
      ensures commitFailure.None? ==> && lieux == old(lieux) + [NewLieu(old(nextLieuId), c)]
                                      && old(nextLieuId) !in LieuIds(old(lieux))
                                      && nextLieuId == old(nextLieuId) + 1
                                      && produits == old(produits) && stock == old(stock)
                                      && nextProduitId == old(nextProduitId)
      ensures commitFailure.None? ==>
                r == if refreshFailure.Some? then Failure(refreshFailure.value)
                     else Success(NewLieu(old(nextLieuId), c))
    {
      if commitFailure.Some? {
        return Failure(commitFailure.value);
      }
      var row := NewLieu(nextLieuId, c);
      assert nextLieuId !in LieuIds(lieux);
      AppendKeepsDistinct(lieux, LieuKey, row);
      assert LieuIds(lieux + [row]) == LieuIds(lieux) + {nextLieuId};
      lieux := lieux + [row];
      nextLieuId := nextLieuId + 1;
      if refreshFailure.Some? {
        return Failure(refreshFailure.value);
      }
      return Success(row);
    }

    method DeleteLieu(row: Lieu, failure: Option<DbError>) returns (r: Outcome<DbError>)
      requires Valid() && row in lieux
      modifies this
      ensures Valid()
      ensures failure.Some? ==> r == Fail(failure.value) && unchanged(this)
      ensures failure.None? ==> && r == Pass
                                && lieux == RemoveKey(old(lieux), LieuKey, row.idLieu)
                                && stock == DropLieuLinks(old(stock), row.idLieu)
                                && produits == old(produits)
                                && nextProduitId == old(nextProduitId) && nextLieuId == old(nextLieuId)
    {
      if failure.Some? {
        return Fail(failure.value);
      }
      DeleteLieuKeepsIntegrity(produits, lieux, stock, row.idLieu);
      assert LieuIds(RemoveKey(lieux, LieuKey, row.idLieu)) == LieuIds(lieux) - {row.idLieu};
      lieux := RemoveKey(lieux, LieuKey, row.idLieu);
      stock := DropLieuLinks(stock, row.idLieu);
      return Pass;
    }

    method UpdateLieu(row: Lieu, payload: LieuUpdate, failure: Option<DbError>)
      returns (r: Result<Lieu, DbError>)
      requires Valid() && row in lieux
      modifies this
      ensures Valid()
      ensures failure.Some? ==> r == Failure(failure.value) && unchanged(this)
      ensures failure.None? ==> && r == Success(PatchedLieu(row, payload))
                                && lieux == ReplaceKey(old(lieux), LieuKey, row.idLieu, r.value)
                                && r.value in lieux
                                && produits == old(produits) && stock == old(stock)
                                && nextProduitId == old(nextProduitId) && nextLieuId == old(nextLieuId)
    {
      var data := DumpLieuUpdate(payload);
      var updated := row;
      for i := 0 to |data|
        invariant updated == SetLieuAttrs(row, data[..i])
      {
        assert data[..i + 1][..i] == data[..i];
        updated := SetLieuAttr(updated, data[i]);
      }
      assert data[..|data|] == data;
      SetAttrsOfDumpIsPatchedLieu(row, payload);
      if failure.Some? {
        return Failure(failure.value);
      }
      assert row.idLieu in LieuIds(lieux);
      ReplaceKeyKeeps(lieux, LieuKey, row.idLieu, updated);
      lieux := ReplaceKey(lieux, LieuKey, row.idLieu, updated);
      return Success(updated);
    }
  }
}
