/** The transfer schemas: the create payloads (every field required), the update payloads (every
    field optional, no id), how a JSON request body is read into them, and the field/value items
    that `model_dump(exclude_unset=True)` yields for an update. */
module Schemas {
  import opened Wrappers
  import opened Json

  /** Member names of the base shapes; the output shapes add the id. */
  const ProduitBaseFields: set<string> := {"nom", "description", "prix", "provenance"}
  const LieuBaseFields: set<string> := {"nom", "adresse", "code_postal", "ville"}

  /** ProduitBase / ProduitCreate: all four fields required. */
  datatype ProduitCreate = ProduitCreate(nom: string, description: string, prix: real, provenance: string)

  /** LieuCreate, mirroring ProduitCreate. */
  datatype LieuCreate = LieuCreate(nom: string, adresse: string, codePostal: string, ville: string)

  /** A field of an update payload: not sent (unset), or sent with a value that may be null. */
  datatype Patch<+T> = Unset | Set(value: Option<T>)

  /** ProduitUpdate: every field optional; there is no `id_produit` field. */
  datatype ProduitUpdate = ProduitUpdate(
    nom: Patch<string>, description: Patch<string>, prix: Patch<real>, provenance: Patch<string>)

  /** LieuUpdate, mirroring ProduitUpdate. */
  datatype LieuUpdate = LieuUpdate(
    nom: Patch<string>, adresse: Patch<string>, codePostal: Patch<string>, ville: Patch<string>)

  // ---------------------------------------------------------------------------------------
  // Reading a request body

  /** A `str` field accepts a JSON string; a `float` field accepts a JSON number. */
  predicate TextAt(body: Object, field: string) { field in body && body[field].JString? }

  predicate NumberAt(body: Object, field: string) { field in body && body[field].JNumber? }

  /** The required-fields check of ProduitCreate: each of the four fields present, with its type.
      Other members of the body are ignored. */
  predicate ProduitCreateAccepts(body: Object)
  {
    TextAt(body, "nom") && TextAt(body, "description") && NumberAt(body, "prix") && TextAt(body, "provenance")
  }

  predicate LieuCreateAccepts(body: Object)
  {
    TextAt(body, "nom") && TextAt(body, "adresse") && TextAt(body, "code_postal") && TextAt(body, "ville")
  }

  /** Validation of a create body: the payload, or None where the framework answers 422. */
  function ParseProduitCreate(body: Object): (r: Option<ProduitCreate>)
    ensures r.Some? <==> ProduitCreateAccepts(body)
    ensures r.Some? ==> Within(ProduitCreateBody(r.value), body)
  {
    if ProduitCreateAccepts(body)
    then Some(ProduitCreate(body["nom"].s, body["description"].s, body["prix"].n, body["provenance"].s))
    else None
  }

  function ParseLieuCreate(body: Object): (r: Option<LieuCreate>)
    ensures r.Some? <==> LieuCreateAccepts(body)
    ensures r.Some? ==> Within(LieuCreateBody(r.value), body)
  {
    if LieuCreateAccepts(body)
    then Some(LieuCreate(body["nom"].s, body["adresse"].s, body["code_postal"].s, body["ville"].s))
    else None
  }

  /** The JSON body a client sends for a create payload. */
  function ProduitCreateBody(c: ProduitCreate): (body: Object)
    ensures body.Keys == ProduitBaseFields
  {
    map["nom" := JString(c.nom), "description" := JString(c.description),
        "prix" := JNumber(c.prix), "provenance" := JString(c.provenance)]
  }

  function LieuCreateBody(c: LieuCreate): (body: Object)
    ensures body.Keys == LieuBaseFields
  {
    map["nom" := JString(c.nom), "adresse" := JString(c.adresse),
        "code_postal" := JString(c.codePostal), "ville" := JString(c.ville)]
  }

  /** Reading the body a client sends gives back the payload. */
  lemma ProduitCreateRoundTrip(c: ProduitCreate)
    ensures ParseProduitCreate(ProduitCreateBody(c)) == Some(c)
  {
  }

  lemma LieuCreateRoundTrip(c: LieuCreate)
    ensures ParseLieuCreate(LieuCreateBody(c)) == Some(c)
  {
  }

  /** A create body that lacks one of the four fields is refused (the 422 of the framework). */
  lemma ProduitCreateMissingFieldRejected(body: Object, field: string)
    requires field in ProduitBaseFields && field !in body
    ensures ParseProduitCreate(body) == None
  {
  }

  lemma LieuCreateMissingFieldRejected(body: Object, field: string)
    requires field in LieuBaseFields && field !in body
    ensures ParseLieuCreate(body) == None
  {
  }

  /** An optional `str` field: absent means unset, null means set to null. None: wrong type. */
  function TextPatch(body: Object, field: string): Option<Patch<string>>
  {
    if field !in body then Some(Unset)
    else match body[field]
      case JNull => Some(Set(None))
      case JString(s) => Some(Set(Some(s)))
      case _ => None
  }

  function NumberPatch(body: Object, field: string): Option<Patch<real>>
  {
    if field !in body then Some(Unset)
    else match body[field]
      case JNull => Some(Set(None))
      case JNumber(n) => Some(Set(Some(n)))
      case _ => None
  }

  /** The patch records what the body sent for `field`: nothing when unset, null when set to
      null, and otherwise the sent string. */
  predicate TextSent(body: Object, field: string, p: Patch<string>)
  {
    match p
    case Unset => field !in body
    case Set(None) => field in body && body[field] == JNull
    case Set(Some(s)) => field in body && body[field] == JString(s)
  }

  predicate NumberSent(body: Object, field: string, p: Patch<real>)
  {
    match p
    case Unset => field !in body
    case Set(None) => field in body && body[field] == JNull
    case Set(Some(n)) => field in body && body[field] == JNumber(n)
  }

  /** Validation of an update body: any subset of the four fields, each a value of its type or
      null; every other member (an `id_produit` among them) is ignored. */
  function ParseProduitUpdate(body: Object): (r: Option<ProduitUpdate>)
    ensures r.Some? <==> forall f :: f in ProduitBaseFields && f in body ==>
                           body[f].JNull? || (if f == "prix" then body[f].JNumber? else body[f].JString?)
    ensures r.Some? ==> && TextSent(body, "nom", r.value.nom)
                        && TextSent(body, "description", r.value.description)
                        && NumberSent(body, "prix", r.value.prix)
                        && TextSent(body, "provenance", r.value.provenance)
  {
    var nom := TextPatch(body, "nom");
    var description := TextPatch(body, "description");
    var prix := NumberPatch(body, "prix");
    var provenance := TextPatch(body, "provenance");
    if nom.Some? && description.Some? && prix.Some? && provenance.Some?
    then Some(ProduitUpdate(nom.value, description.value, prix.value, provenance.value))
    else None
  }

  function ParseLieuUpdate(body: Object): (r: Option<LieuUpdate>)
    ensures r.Some? <==> forall f :: f in LieuBaseFields && f in body ==> body[f].JNull? || body[f].JString?
    ensures r.Some? ==> && TextSent(body, "nom", r.value.nom)
                        && TextSent(body, "adresse", r.value.adresse)
                        && TextSent(body, "code_postal", r.value.codePostal)
                        && TextSent(body, "ville", r.value.ville)
  {
    var nom := TextPatch(body, "nom");
    var adresse := TextPatch(body, "adresse");
    var codePostal := TextPatch(body, "code_postal");
    var ville := TextPatch(body, "ville");
    if nom.Some? && adresse.Some? && codePostal.Some? && ville.Some?
    then Some(LieuUpdate(nom.value, adresse.value, codePostal.value, ville.value))
    else None
  }

  /** `body` with the member a client sends for one field of an update: none when the field is
      unset, null or the value otherwise. */
  function WithText(body: Object, field: string, p: Patch<string>): Object
  {
    match p
    case Unset => body
    case Set(None) => body[field := JNull]
    case Set(Some(s)) => body[field := JString(s)]
  }

  function WithNumber(body: Object, field: string, p: Patch<real>): Object
  {
    match p
    case Unset => body
    case Set(None) => body[field := JNull]
    case Set(Some(n)) => body[field := JNumber(n)]
  }

  /** The JSON body a client sends for an update payload: a member for each sent field only. */
  function ProduitUpdateBody(u: ProduitUpdate): (body: Object)
    ensures body.Keys <= ProduitBaseFields
  {
    WithText(WithNumber(WithText(WithText(map[], "nom", u.nom), "description", u.description),
                        "prix", u.prix), "provenance", u.provenance)
  }

  function LieuUpdateBody(u: LieuUpdate): (body: Object)
    ensures body.Keys <= LieuBaseFields
  {
    WithText(WithText(WithText(WithText(map[], "nom", u.nom), "adresse", u.adresse),
                      "code_postal", u.codePostal), "ville", u.ville)
  }

  /** Reading the body a client sends for an update gives back the payload, unset and null
      fields included. */
  lemma ProduitUpdateRoundTrip(u: ProduitUpdate)
    ensures ParseProduitUpdate(ProduitUpdateBody(u)) == Some(u)
  {
    var b0 := WithText(map[], "nom", u.nom);
    var b1 := WithText(b0, "description", u.description);
    var b2 := WithNumber(b1, "prix", u.prix);
    var b := WithText(b2, "provenance", u.provenance);
    assert TextPatch(b0, "nom") == Some(u.nom);
    assert TextPatch(b1, "nom") == Some(u.nom) && TextPatch(b1, "description") == Some(u.description);
    assert TextPatch(b2, "nom") == Some(u.nom) && TextPatch(b2, "description") == Some(u.description);
    assert NumberPatch(b2, "prix") == Some(u.prix);
    assert TextPatch(b, "nom") == Some(u.nom) && TextPatch(b, "description") == Some(u.description);
    assert NumberPatch(b, "prix") == Some(u.prix) && TextPatch(b, "provenance") == Some(u.provenance);
  }

  lemma LieuUpdateRoundTrip(u: LieuUpdate)
    ensures ParseLieuUpdate(LieuUpdateBody(u)) == Some(u)
  {
  }

  /** The update shape has no id: an `id_produit` member in the body changes nothing. */
  lemma ProduitUpdateIgnoresId(body: Object, v: Value)
    ensures ParseProduitUpdate(body["id_produit" := v]) == ParseProduitUpdate(body)
  {
  }

  lemma LieuUpdateIgnoresId(body: Object, v: Value)
    ensures ParseLieuUpdate(body["id_lieu" := v]) == ParseLieuUpdate(body)
  {
  }

  /** An empty body is a valid update that sets nothing. */
  lemma EmptyUpdateAccepted()
    ensures ParseProduitUpdate(map[]) == Some(ProduitUpdate(Unset, Unset, Unset, Unset))
    ensures ParseLieuUpdate(map[]) == Some(LieuUpdate(Unset, Unset, Unset, Unset))
  {
  }

  // ---------------------------------------------------------------------------------------
  // model_dump(exclude_unset=True).items()

  /** One item of the dumped update: a field of `produit` and the value sent for it. */
  datatype ProduitItem =
    | NomTo(nom: Option<string>)
    | DescriptionTo(description: Option<string>)
    | PrixTo(prix: Option<real>)
    | ProvenanceTo(provenance: Option<string>)
  {
    /** The field the item names, as its position in the schema (0 = nom ... 3 = provenance). */
    function Field(): nat
    {
      match this
      case NomTo(_) => 0
      case DescriptionTo(_) => 1
      case PrixTo(_) => 2
      case ProvenanceTo(_) => 3
    }
  }

  datatype LieuItem =
    | NomTo(nom: Option<string>)
    | AdresseTo(adresse: Option<string>)
    | CodePostalTo(codePostal: Option<string>)
    | VilleTo(ville: Option<string>)
  {
    function Field(): nat
    {
      match this
      case NomTo(_) => 0
      case AdresseTo(_) => 1
      case CodePostalTo(_) => 2
      case VilleTo(_) => 3
    }
  }

  /** The item `a` was sent in the payload, with that value. */
  predicate ProduitSent(u: ProduitUpdate, a: ProduitItem)
  {
    match a
    case NomTo(v) => u.nom == Set(v)
    case DescriptionTo(v) => u.description == Set(v)
    case PrixTo(v) => u.prix == Set(v)
    case ProvenanceTo(v) => u.provenance == Set(v)
  }

  predicate LieuSent(u: LieuUpdate, a: LieuItem)
  {
    match a
    case NomTo(v) => u.nom == Set(v)
    case AdresseTo(v) => u.adresse == Set(v)
    case CodePostalTo(v) => u.codePostal == Set(v)
    case VilleTo(v) => u.ville == Set(v)
  }

  /** The fields that were set, in declaration order, each with the value sent (null included):
      exactly the sent items, each field at most once. */
  function DumpProduitUpdate(u: ProduitUpdate): (items: seq<ProduitItem>)
    ensures forall a :: a in items <==> ProduitSent(u, a)
    ensures forall i, j :: 0 <= i < j < |items| ==> items[i].Field() < items[j].Field()
  {
    (if u.nom.Set? then [ProduitItem.NomTo(u.nom.value)] else [])
    + (if u.description.Set? then [DescriptionTo(u.description.value)] else [])
    + (if u.prix.Set? then [PrixTo(u.prix.value)] else [])
    + (if u.provenance.Set? then [ProvenanceTo(u.provenance.value)] else [])
  }

  function DumpLieuUpdate(u: LieuUpdate): (items: seq<LieuItem>)
    ensures forall a :: a in items <==> LieuSent(u, a)
    ensures forall i, j :: 0 <= i < j < |items| ==> items[i].Field() < items[j].Field()
  {
    (if u.nom.Set? then [LieuItem.NomTo(u.nom.value)] else [])
    + (if u.adresse.Set? then [AdresseTo(u.adresse.value)] else [])
    + (if u.codePostal.Set? then [CodePostalTo(u.codePostal.value)] else [])
    + (if u.ville.Set? then [VilleTo(u.ville.value)] else [])
  }
}
