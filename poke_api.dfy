/** The upstream REST API as the two views see it. Each response body is a
    record holding only the fields the views read; each HTTP GET is a lookup of
    its URL in one of three tables. A URL absent from its table is a request
    that was rejected (network failure, HTTP error or a body of the wrong
    shape); the views do not tell these apart. */
module PokeApi {
  import opened Common
  import opened JsStrings

  /** The fixed base URL of the entity endpoint. */
  const BaseUrl: string := "https://pokeapi.co/api/v2/pokemon/"

  /** `{name, url}`: a reference to another resource. */
  datatype NamedResource = NamedResource(name: string, url: string)

  /** One entry of `types`; `kind` is the JSON field `type`. */
  datatype TypeSlot = TypeSlot(kind: NamedResource)

  /** One entry of `abilities`. */
  datatype AbilitySlot = AbilitySlot(ability: NamedResource)

  /** One entry of `stats`: `base_stat` and the stat it measures. */
  datatype StatSlot = StatSlot(baseStat: int, stat: NamedResource)

  /** The entity payload. `weight` and `height` are in tenths of kg and m. */
  datatype Pokemon = Pokemon(
    id: nat,
    name: string,
    types: seq<TypeSlot>,
    weight: nat,
    height: nat,
    stats: seq<StatSlot>,
    abilities: seq<AbilitySlot>)

  /** A listing page: the pagination links (`null` is `None`) and the results. */
  datatype Page = Page(next: Option<string>, previous: Option<string>, results: seq<NamedResource>)

  /** The `damage_relations` object of a type resource, passed through untouched. */
  datatype DamageRelations = DamageRelations(
    doubleDamageFrom: seq<NamedResource>,
    doubleDamageTo: seq<NamedResource>,
    halfDamageFrom: seq<NamedResource>,
    halfDamageTo: seq<NamedResource>,
    noDamageFrom: seq<NamedResource>,
    noDamageTo: seq<NamedResource>)

  /** The outcome of an awaited request: rejected, or resolved with a body. */
  datatype Fetched<+T> = Rejected | Resolved(value: T)

  /** What each URL answers. An entity URL may answer with an empty (falsy)
      body, written `None`. */
  datatype Api = Api(
    entities: map<string, Option<Pokemon>>,
    pages: map<string, Page>,
    typeRelations: map<string, DamageRelations>)
  {
    function GetEntity(url: string): (r: Fetched<Option<Pokemon>>)
      ensures r.Resolved? <==> url in entities
      ensures r.Resolved? ==> r.value == entities[url]
    {
      if url in entities then Resolved(entities[url]) else Rejected
    }

    function GetPage(url: string): (r: Fetched<Page>)
      ensures r.Resolved? <==> url in pages
      ensures r.Resolved? ==> r.value == pages[url]
    {
      if url in pages then Resolved(pages[url]) else Rejected
    }

    function GetDamageRelations(url: string): (r: Fetched<DamageRelations>)
      ensures r.Resolved? <==> url in typeRelations
      ensures r.Resolved? ==> r.value == typeRelations[url]
    {
      if url in typeRelations then Resolved(typeRelations[url]) else Rejected
    }
  }

  /** `${baseUrl}${pokemonId}`: the entity URL for a route parameter. */
  function EntityUrl(pokemonId: string): (r: string)
    ensures |r| == |BaseUrl| + |pokemonId|
    ensures r[..|BaseUrl|] == BaseUrl && r[|BaseUrl|..] == pokemonId
  {
    BaseUrl + pokemonId
  }

  /** Everything of a listing URL before the offset. */
  const ListingPrefix: string := BaseUrl + "?limit=1&offset="

  /** `${baseUrl}?limit=1&offset=${offset}`: the one-item listing page; after
      the fixed prefix comes the decimal offset, with a minus sign when it is
      negative. */
  function ListingUrl(offset: int): (r: string)
    ensures |r| > |ListingPrefix| && r[..|ListingPrefix|] == ListingPrefix
    ensures offset >= 0 ==> AllDigits(r[|ListingPrefix|..]) && DecimalValue(r[|ListingPrefix|..]) == offset
    ensures offset < 0 ==> r[|ListingPrefix|] == '-'
    ensures offset < 0 ==> AllDigits(r[|ListingPrefix| + 1..]) && DecimalValue(r[|ListingPrefix| + 1..]) == -offset
  {
    var r := ListingPrefix + IntToString(offset);
    assert r[|ListingPrefix|..] == IntToString(offset);
    IntToStringValue(offset);
    r
  }

  /** Different offsets ask for different listing pages. */
  lemma ListingUrlInjective(a: int, b: int)
    requires ListingUrl(a) == ListingUrl(b)
    ensures a == b
  {
    var prefix := ListingPrefix;
    assert IntToString(a) == ListingUrl(a)[|prefix|..] by { assert ListingUrl(a) == prefix + IntToString(a); }
    assert IntToString(b) == ListingUrl(b)[|prefix|..] by { assert ListingUrl(b) == prefix + IntToString(b); }
    IntToStringInjective(a, b);
  }
}
