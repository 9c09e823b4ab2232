/** The persistence model: the rows of the `produit`, `lieu` and `produit_lieu` tables, their
    primary keys, the foreign keys of the join table and the cascade on delete. */
module Models {
  import opened Wrappers
  import opened Tables

  /** A row of `produit`. The four data columns are nullable here because a partial update
      writes an explicit null onto the row before the commit. */
  datatype Produit = Produit(
    idProduit: int,
    nom: Option<string>,
    description: Option<string>,
    prix: Option<real>,
    provenance: Option<string>)

  /** A row of `lieu`. */
  datatype Lieu = Lieu(
    idLieu: int,
    nom: Option<string>,
    adresse: Option<string>,
    codePostal: Option<string>,
    ville: Option<string>)

  /** The `produit_lieu` table: the stock of a product at a location, keyed by the composite
      primary key (id_produit, lieu_id); a map holds at most one row per pair. */
  type StockTable = map<(int, int), int>

  function ProduitKey(p: Produit): int { p.idProduit }

  function LieuKey(l: Lieu): int { l.idLieu }

  /** The ids of the stored products and locations. */
  function ProduitIds(produits: seq<Produit>): set<int> { Keys(produits, ProduitKey) }

  function LieuIds(lieux: seq<Lieu>): set<int> { Keys(lieux, LieuKey) }

  /** The stored row with a given id (unique under the primary-key constraint). */
  ghost function ProduitWithId(produits: seq<Produit>, idProduit: int): (p: Produit)
    requires idProduit in ProduitIds(produits)
    ensures p in produits && p.idProduit == idProduit
  {
    var p :| p in produits && p.idProduit == idProduit; p
  }

  ghost function LieuWithId(lieux: seq<Lieu>, idLieu: int): (l: Lieu)
    requires idLieu in LieuIds(lieux)
    ensures l in lieux && l.idLieu == idLieu
  {
    var l :| l in lieux && l.idLieu == idLieu; l
  }

  /** Every join row refers to an existing product and an existing location. */
  ghost predicate ForeignKeys(produits: seq<Produit>, lieux: seq<Lieu>, stock: StockTable)
  {
    forall link :: link in stock ==> link.0 in ProduitIds(produits) && link.1 in LieuIds(lieux)
  }

  /** The constraints the schema declares: both primary keys, and the foreign keys of the join table. */
  ghost predicate Integrity(produits: seq<Produit>, lieux: seq<Lieu>, stock: StockTable)
  {
    && DistinctKeys(produits, ProduitKey)
    && DistinctKeys(lieux, LieuKey)
    && ForeignKeys(produits, lieux, stock)
  }

  /** Cascade of a product's deletion on `produit_lieu` (delete-orphan): the join rows of that
      product go, every other join row stays with its stock. */
  function DropProduitLinks(stock: StockTable, idProduit: int): (r: StockTable)
    ensures forall link :: link in r <==> link in stock && link.0 != idProduit
    ensures forall link :: link in r ==> r[link] == stock[link]
  {
    map link | link in stock && link.0 != idProduit :: stock[link]
  }

  /** Cascade of a location's deletion on `produit_lieu`. */
  function DropLieuLinks(stock: StockTable, idLieu: int): (r: StockTable)
    ensures forall link :: link in r <==> link in stock && link.1 != idLieu
    ensures forall link :: link in r ==> r[link] == stock[link]
  {
    map link | link in stock && link.1 != idLieu :: stock[link]
  }

  /** Deleting a product together with its join rows leaves no orphan link and keeps both keys. */
  lemma DeleteProduitKeepsIntegrity(produits: seq<Produit>, lieux: seq<Lieu>, stock: StockTable, idProduit: int)
    requires Integrity(produits, lieux, stock)
    ensures Integrity(RemoveKey(produits, ProduitKey, idProduit), lieux, DropProduitLinks(stock, idProduit))
    ensures forall link :: link in DropProduitLinks(stock, idProduit) ==> link.0 != idProduit
  {
    RemoveKeyKeepsDistinct(produits, ProduitKey, idProduit);
  }

  /** Deleting a location together with its join rows leaves no orphan link and keeps both keys. */
  lemma DeleteLieuKeepsIntegrity(produits: seq<Produit>, lieux: seq<Lieu>, stock: StockTable, idLieu: int)
    requires Integrity(produits, lieux, stock)
    ensures Integrity(produits, RemoveKey(lieux, LieuKey, idLieu), DropLieuLinks(stock, idLieu))
    ensures forall link :: link in DropLieuLinks(stock, idLieu) ==> link.1 != idLieu
  {
    RemoveKeyKeepsDistinct(lieux, LieuKey, idLieu);
  }

  /** Without the cascade, deleting a product that has stock rows would leave orphan links: the
      cascade is what keeps the foreign keys. */
  lemma DeleteWithoutCascadeOrphans(produits: seq<Produit>, lieux: seq<Lieu>, stock: StockTable, link: (int, int))
    requires Integrity(produits, lieux, stock) && link in stock
    ensures !ForeignKeys(RemoveKey(produits, ProduitKey, link.0), lieux, stock)
  {
    assert link.0 !in ProduitIds(RemoveKey(produits, ProduitKey, link.0));
  }
}
