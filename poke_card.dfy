/** The listing card. It fetches one entity from the `url` prop, reduces it to
    `{id, name, type}` and renders a link to the detail page coloured by that
    type; until the fetch succeeds it renders nothing. */
module Card {
  import opened Common
  import opened JsStrings
  import opened PokeApi
  import opened Display

  /** `PokeData`: the card's view model; `primaryType` is the field `type`. */
  datatype PokeData = PokeData(id: nat, name: string, primaryType: string)

  /** `formatPokemonData`: id and name unchanged, the first type's name;
      `types[0].type` throws (`None`) when there is no type. */
  function FormatPokemonData(raw: Pokemon): (r: Option<PokeData>)
    ensures r.Some? <==> |raw.types| > 0
    ensures r.Some? ==> r.value.id == raw.id && r.value.name == raw.name
    ensures r.Some? ==> r.value.primaryType == raw.types[0].kind.name
  {
    if |raw.types| == 0 then None else Some(PokeData(raw.id, raw.name, raw.types[0].kind.name))
  }

  /** Only the first type matters: entities that agree on everything the card
      reads except types after the first give the same card. */
  lemma FormatPokemonDataIgnoresLaterTypes(a: Pokemon, b: Pokemon)
    requires a.id == b.id && a.name == b.name
    requires |a.types| > 0 && |b.types| > 0 && a.types[0].kind.name == b.types[0].kind.name
    ensures FormatPokemonData(a) == FormatPokemonData(b)
  {
  }

  /** One entry of `TypeColors`. */
  datatype Palette = Palette(border: string, bg: string, text: string)

  const DefaultPalette: Palette := Palette("border-slate-400", "bg-slate-800", "text-slate-300")

  /** `TypeColors`: a palette per type and the `default` entry. */
  const TypeColors: map<string, Palette> := map[
    "normal" := Palette("border-zinc-400", "bg-zinc-400", "text-black"),
    "fire" := Palette("border-red-500", "bg-red-500", "text-white"),
    "water" := Palette("border-blue-500", "bg-blue-500", "text-white"),
    "grass" := Palette("border-green-500", "bg-green-500", "text-white"),
    "electric" := Palette("border-yellow-400", "bg-yellow-400", "text-black"),
    "ice" := Palette("border-cyan-300", "bg-cyan-300", "text-black"),
    "fighting" := Palette("border-orange-700", "bg-orange-700", "text-white"),
    "poison" := Palette("border-purple-600", "bg-purple-600", "text-white"),
    "ground" := Palette("border-yellow-600", "bg-yellow-600", "text-white"),
    "flying" := Palette("border-indigo-400", "bg-indigo-400", "text-white"),
    "psychic" := Palette("border-pink-500", "bg-pink-500", "text-white"),
    "bug" := Palette("border-lime-500", "bg-lime-500", "text-black"),
    "rock" := Palette("border-stone-500", "bg-stone-500", "text-white"),
    "ghost" := Palette("border-indigo-800", "bg-indigo-800", "text-white"),
    "dragon" := Palette("border-violet-700", "bg-violet-700", "text-white"),
    "dark" := Palette("border-stone-800", "bg-stone-800", "text-white"),
    "steel" := Palette("border-slate-500", "bg-slate-500", "text-white"),
    "fairy" := Palette("border-pink-300", "bg-pink-300", "text-black"),
    "default" := DefaultPalette
  ]

  /** The eighteen type names the card has a colour for. */
  const ListedTypes: set<string> := {
    "normal", "fire", "water", "grass", "electric", "ice", "fighting", "poison", "ground",
    "flying", "psychic", "bug", "rock", "ghost", "dragon", "dark", "steel", "fairy"
  }

  /** The table holds exactly the listed types and `default`. */
  lemma TypeColorsKeys()
    ensures TypeColors.Keys == ListedTypes + {"default"}
  {
  }

  /** `TypeColors[pokemon?.type || 'default'] || TypeColors.default`: a listed
      type gets its own palette; no card data, an empty type or any other type
      gets the default palette. */
  function CardPalette(pokemon: Option<PokeData>): (r: Palette)
    ensures pokemon.Some? && pokemon.value.primaryType in ListedTypes ==>
      r == TypeColors[pokemon.value.primaryType]
    ensures !(pokemon.Some? && pokemon.value.primaryType in ListedTypes) ==> r == DefaultPalette
  {
    TypeColorsKeys();
    var key := if pokemon.Some? && pokemon.value.primaryType != "" then pokemon.value.primaryType else "default";
    if key in TypeColors then TypeColors[key] else TypeColors["default"]
  }

  /** What `fetchPokeDetailData` hands to `setPokemon`, or `None` when the
      request is rejected or reshaping throws (an empty body cannot be
      destructured; an entity without types has no `types[0]`). */
  function FetchedCard(api: Api, url: string): (r: Option<PokeData>)
    ensures r.Some? <==> url in api.entities && api.entities[url].Some? && |api.entities[url].value.types| > 0
    ensures r.Some? ==> var raw := api.entities[url].value;
      r.value == PokeData(raw.id, raw.name, raw.types[0].kind.name)
  {
    match api.GetEntity(url)
    case Rejected => None
    case Resolved(data) => if data.None? then None else FormatPokemonData(data.value)
  }

  /** The rendered card. */
  datatype CardView = CardView(
    to: string,
    idLabel: string,
    imageUrl: string,
    alt: string,
    caption: string,
    palette: Palette)

  /** The render function: nothing until `pokemon` is set; then a link to the
      detail route of the `name` prop, the padded id label, the artwork image
      (alt text from the prop) and the fetched name as caption. */
  function RenderCard(name: string, pokemon: Option<PokeData>): (r: Option<CardView>)
    ensures r.Some? <==> pokemon.Some?
    ensures r.Some? ==> r.value.to == PokemonRoute(name) && r.value.alt == name
    ensures r.Some? ==> r.value.caption == pokemon.value.name
    ensures r.Some? ==> r.value.idLabel == IdLabel(pokemon.value.id) && r.value.imageUrl == ArtworkUrl(pokemon.value.id)
    ensures r.Some? ==> r.value.palette == CardPalette(pokemon)
  {
    match pokemon
    case None => None
    case Some(p) =>
      Some(CardView(PokemonRoute(name), IdLabel(p.id), ArtworkUrl(p.id), name, p.name, CardPalette(pokemon)))
  }

  /** The card component: its props and its one state cell. */
  class PokeCard {
    const url: string
    const name: string
    var pokemon: Option<PokeData>

    constructor (url: string, name: string)
      ensures this.url == url && this.name == name && pokemon == None
    {
      this.url := url;
      this.name := name;
      pokemon := None;
    }

    /** `fetchPokeDetailData`: on success `setPokemon` with the reduced data;
        a caught failure leaves the state as it was. */
    method FetchPokeDetailData(api: Api)
      modifies this
      ensures FetchedCard(api, url).Some? ==> pokemon == FetchedCard(api, url)
      ensures FetchedCard(api, url).None? ==> pokemon == old(pokemon)
    {
      var response := api.GetEntity(url);
      if response.Rejected? || response.value.None? {
        return;
      }
      var pokemonData := FormatPokemonData(response.value.value);
      if pokemonData.None? {
        return;
      }
      pokemon := pokemonData;
    }

    function View(): Option<CardView>
      reads this
    {
      RenderCard(name, pokemon)
    }
  }
}
