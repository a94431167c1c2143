/**
 * The property record of the catalog, the shape of the imported catalog
 * document, and the first-match lookup (`Array.prototype.find`) both
 * revisions of the view use on it.
 */
module PropertyTypes {
  import opened Wrappers

  /** One listing of the catalog; prices, room counts and areas are integers. */
  datatype Property = Property(
    id: string,
    tipo: string,
    indirizzo: string,
    zona: string,
    citta: string,
    prezzo: int,
    prezzo_precedente: Option<int>,
    locali: int,
    metratura: int,
    descrizione_breve: string,
    descrizione_completa: string,
    caratteristiche: seq<string>,
    stato: string,
    agenzia: string,
    immagine: string,
    url: string,
    parole_chiave: seq<string>,
    distanza_mare: Option<int>
  )

  /** The `catalogo_immobili` object of the catalog document; its `immobili` array may be absent. */
  datatype Catalogo = Catalogo(immobili: Option<seq<Property>>)

  /** The root of the catalog document; its `catalogo_immobili` object may be absent. */
  datatype ImmobiliData = ImmobiliData(catalogo_immobili: Option<Catalogo>)

  /**
   * The listings array reached through `data.catalogo_immobili.immobili`, or
   * None when the document or any level of the path is missing.
   */
  function Listings(data: Option<ImmobiliData>): (r: Option<seq<Property>>)
    ensures r.Some? <==>
      data.Some? && data.value.catalogo_immobili.Some? && data.value.catalogo_immobili.value.immobili.Some?
    ensures r.Some? ==> r.value == data.value.catalogo_immobili.value.immobili.value
  {
    match data
    case None => None
    case Some(d) =>
      match d.catalogo_immobili
      case None => None
      case Some(c) => c.immobili
  }

  /** True when some element of `ps` has identifier `id`. */
  ghost predicate HasId(ps: seq<Property>, id: string)
  {
    exists k :: 0 <= k < |ps| && ps[k].id == id
  }

  /** The index of the first element of `ps` whose identifier equals `id`. */
  function FirstIndexWithId(ps: seq<Property>, id: string): (r: Option<nat>)
    ensures r.Some? ==> r.value < |ps| && ps[r.value].id == id
    ensures r.Some? ==> forall k :: 0 <= k < r.value ==> ps[k].id != id
    ensures r.None? ==> forall k :: 0 <= k < |ps| ==> ps[k].id != id
  {
    if |ps| == 0 then None
    else if ps[0].id == id then Some(0)
    else
      match FirstIndexWithId(ps[1..], id)
      case None => None
      case Some(k) => Some(k + 1)
  }

  /** `ps.find(p => p.id === id)`: the first element with an equal identifier, if any. */
  function Find(ps: seq<Property>, id: string): (r: Option<Property>)
    ensures r.Some? <==> HasId(ps, id)
    ensures r.Some? ==> r.value.id == id && r.value in ps
    ensures r.Some? ==> exists k :: 0 <= k < |ps| && ps[k] == r.value && forall j :: 0 <= j < k ==> ps[j].id != id
  {
    match FirstIndexWithId(ps, id)
    case None => None
    case Some(k) => Some(ps[k])
  }
}
