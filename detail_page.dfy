/** The detail view of one entity. `fetchPokeData` chains awaited requests (the
    entity, its neighbours in the catalogue, the damage relations of each of its
    types), reshapes the answers into one view model and only then sets the two
    state cells `pokemon` and `isLoading`; any failure is swallowed and leaves
    the view loading. */
module Detail {
  import opened Common
  import opened JsStrings
  import opened PokeApi
  import opened Display

  /** One row of the stats table. */
  datatype StatView = StatView(name: string, baseStat: int)

  /** Names of the entities before and after this one in the catalogue. */
  datatype Neighbours = Neighbours(next: Option<string>, previous: Option<string>)

  /** The view model. Weight and height stay in the API's tenths; the view
      shows them divided by ten. */
  datatype PokemonView = PokemonView(
    id: nat,
    name: string,
    types: seq<string>,
    weightTenths: nat,
    heightTenths: nat,
    previous: Option<string>,
    next: Option<string>,
    abilities: seq<string>,
    stats: seq<StatView>,
    damageRelations: seq<DamageRelations>)

  /** The labels of the six stats, in the order the API lists them (the
      spelling is the view's own). */
  const StatLabels: seq<string> :=
    ["Hit Point", "Atteck", "Defense", "Special Atteck", "Special Defense", "Speed"]

  // ---------------------------------------------------------------------------
  // Stats

  /** `formatPokemonStats`: the first six stat entries, by position, under the
      fixed labels. With fewer than six entries destructuring yields
      `undefined` and reading `base_stat` of it throws: `None`. */
  function FormatPokemonStats(stats: seq<StatSlot>): (r: Option<seq<StatView>>)
    ensures r.Some? <==> |stats| >= 6
    ensures r.Some? ==> |r.value| == |StatLabels|
    ensures r.Some? ==> forall i :: 0 <= i < |StatLabels| ==>
      r.value[i].name == StatLabels[i] && r.value[i].baseStat == stats[i].baseStat
  {
    if |stats| < 6 then None
    else Some([
      StatView("Hit Point", stats[0].baseStat),
      StatView("Atteck", stats[1].baseStat),
      StatView("Defense", stats[2].baseStat),
      StatView("Special Atteck", stats[3].baseStat),
      StatView("Special Defense", stats[4].baseStat),
      StatView("Speed", stats[5].baseStat)
    ])
  }

  /** The mapping is positional: stat names and entries after the sixth play
      no part, only the first six base values do. */
  lemma FormatPokemonStatsPositional(a: seq<StatSlot>, b: seq<StatSlot>)
    requires |a| >= 6 && |b| >= 6
    requires forall i :: 0 <= i < 6 ==> a[i].baseStat == b[i].baseStat
    ensures FormatPokemonStats(a) == FormatPokemonStats(b)
  {
  }

  // ---------------------------------------------------------------------------
  // Abilities

  /** `s.filter((_, index) => index <= bound)` on the elements of a longer
      array that sit at `offset` onwards. */
  function FilterIndexAtMost<T>(s: seq<T>, bound: nat, offset: nat): (r: seq<T>)
    ensures offset <= bound + 1 ==> r == s[..Min(|s|, bound + 1 - offset)]
    ensures offset > bound + 1 ==> r == []
    decreases |s|
  {
    if s == [] then []
    else (if offset <= bound then [s[0]] else []) + FilterIndexAtMost(s[1..], bound, offset + 1)
  }

  /** `.map(obj => obj.ability.name.replaceAll('-', ' '))`. */
  function AbilityNames(abilities: seq<AbilitySlot>): (r: seq<string>)
    ensures |r| == |abilities|
    ensures forall i :: 0 <= i < |r| ==> r[i] == ReplaceAllChar(abilities[i].ability.name, '-', ' ')
  {
    if abilities == [] then []
    else [ReplaceAllChar(abilities[0].ability.name, '-', ' ')] + AbilityNames(abilities[1..])
  }

  /** `formatPokemonAbilites`: the first two abilities, in order, with every
      hyphen turned into a space. */
  function FormatPokemonAbilities(abilities: seq<AbilitySlot>): (r: seq<string>)
    ensures |r| == Min(2, |abilities|)
    ensures forall i :: 0 <= i < |r| ==> r[i] == ReplaceAllChar(abilities[i].ability.name, '-', ' ')
    ensures forall i :: 0 <= i < |r| ==> '-' !in r[i]
  {
    AbilityNames(FilterIndexAtMost(abilities, 1, 0))
  }

  // ---------------------------------------------------------------------------
  // Types and damage relations

  /** `types.map(type => type.type.name)`. */
  function TypeNames(types: seq<TypeSlot>): (r: seq<string>)
    ensures |r| == |types|
    ensures forall i :: 0 <= i < |r| ==> r[i] == types[i].kind.name
  {
    if types == [] then [] else [types[0].kind.name] + TypeNames(types[1..])
  }

  /** `Promise.all(types.map(i => get(i.type.url) ... damage_relations))`: one
      request per type, joined; the join rejects when any request does, and
      otherwise lists the relations in the order of the types. */
  function AllDamageRelations(api: Api, types: seq<TypeSlot>): (r: Fetched<seq<DamageRelations>>)
    ensures r.Resolved? <==> forall i :: 0 <= i < |types| ==> types[i].kind.url in api.typeRelations
    ensures r.Resolved? ==> |r.value| == |types|
    ensures r.Resolved? ==> forall i :: 0 <= i < |types| ==>
      r.value[i] == api.typeRelations[types[i].kind.url]
  {
    if types == [] then Resolved([])
    else
      match api.GetDamageRelations(types[0].kind.url)
      case Rejected => Rejected
      case Resolved(first) =>
        match AllDamageRelations(api, types[1..])
        case Rejected => Rejected
        case Resolved(rest) => Resolved([first] + rest)
  }

  // ---------------------------------------------------------------------------
  // Neighbours

  /** JavaScript truthiness of a pagination link: `null` and `""` are false. */
  predicate Truthy(link: Option<string>)
  {
    link.Some? && link.value != ""
  }

  /** `response?.data?.results?.[0]?.name`. */
  function FirstResultName(page: Page): (r: Option<string>)
    ensures r.Some? <==> |page.results| > 0
    ensures r.Some? ==> r.value == page.results[0].name
  {
    if |page.results| > 0 then Some(page.results[0].name) else None
  }

  /** Following one pagination link: nothing to fetch when the link is falsy,
      else the first result's name on the linked page. */
  function FollowLink(api: Api, link: Option<string>): (r: Fetched<Option<string>>)
    ensures !Truthy(link) ==> r == Resolved(None)
    ensures Truthy(link) ==> (r.Resolved? <==> link.value in api.pages)
    ensures Truthy(link) && r.Resolved? ==> r.value == FirstResultName(api.pages[link.value])
  {
    if !Truthy(link) then Resolved(None)
    else
      match api.GetPage(link.value)
      case Rejected => Rejected
      case Resolved(page) => Resolved(FirstResultName(page))
  }

  /** What `getNextAndPreviousPokemon(id)` resolves to: `next` is present
      only when the listing page at offset `id - 1` links a next page and that
      page has a result, and then it is that first result's name; likewise
      `previous`. */
  function NeighbourNames(api: Api, id: nat): (r: Fetched<Neighbours>)
    ensures r.Resolved? ==> ListingUrl(id - 1) in api.pages
    ensures r.Resolved? ==> var listing := api.pages[ListingUrl(id - 1)];
      (Truthy(listing.next) ==> listing.next.value in api.pages) &&
      (Truthy(listing.previous) ==> listing.previous.value in api.pages)
    ensures r.Resolved? ==> var listing := api.pages[ListingUrl(id - 1)];
      (r.value.next.Some? <==> Truthy(listing.next) && |api.pages[listing.next.value].results| > 0) &&
      (r.value.next.Some? ==> r.value.next.value == api.pages[listing.next.value].results[0].name)
    ensures r.Resolved? ==> var listing := api.pages[ListingUrl(id - 1)];
      (r.value.previous.Some? <==> Truthy(listing.previous) && |api.pages[listing.previous.value].results| > 0) &&
      (r.value.previous.Some? ==> r.value.previous.value == api.pages[listing.previous.value].results[0].name)
  {
    match api.GetPage(ListingUrl(id - 1))
    case Rejected => Rejected
    case Resolved(listing) =>
      match FollowLink(api, listing.next)
      case Rejected => Rejected
      case Resolved(next) =>
        match FollowLink(api, listing.previous)
        case Rejected => Rejected
        case Resolved(previous) => Resolved(Neighbours(next, previous))
  }

  /** `getNextAndPreviousPokemon`: fetch the one-item listing page at offset
      `id - 1`, then the `next` page if linked, then the `previous` page if
      linked; any rejection propagates. The source writes this as an async
      function of awaited statements, each a point where a rejection leaves
      it, so it is a method here; `NeighbourNames` is the value it resolves
      to, which the pure definition of the view model uses. */
  method GetNextAndPreviousPokemon(api: Api, id: nat) returns (r: Fetched<Neighbours>)
    ensures r == NeighbourNames(api, id)
  {
    var listing := api.GetPage(ListingUrl(id - 1));
    if listing.Rejected? {
      return Rejected;
    }
    var nextResponse: Option<Page> := None;
    if Truthy(listing.value.next) {
      var response := api.GetPage(listing.value.next.value);
      if response.Rejected? {
        return Rejected;
      }
      nextResponse := Some(response.value);
    }
    var previousResponse: Option<Page> := None;
    if Truthy(listing.value.previous) {
      var response := api.GetPage(listing.value.previous.value);
      if response.Rejected? {
        return Rejected;
      }
      previousResponse := Some(response.value);
    }
    var next := if nextResponse.Some? then FirstResultName(nextResponse.value) else None;
    var previous := if previousResponse.Some? then FirstResultName(previousResponse.value) else None;
    r := Resolved(Neighbours(next, previous));
  }

  /** The neighbour lookup succeeds exactly when the listing page at offset
      `id - 1` and every page its truthy links name can be fetched. */
  lemma NeighbourNamesResolved(api: Api, id: nat)
    ensures NeighbourNames(api, id).Resolved? <==>
      ListingUrl(id - 1) in api.pages &&
      (Truthy(api.pages[ListingUrl(id - 1)].next) ==> api.pages[ListingUrl(id - 1)].next.value in api.pages) &&
      (Truthy(api.pages[ListingUrl(id - 1)].previous) ==> api.pages[ListingUrl(id - 1)].previous.value in api.pages)
  {
  }

  // ---------------------------------------------------------------------------
  // The view model

  /** The object literal of `fetchPokeData`; it throws (`None`) when the stats
      cannot be formatted. */
  function FormatPokemon(raw: Pokemon, neighbours: Neighbours, relations: seq<DamageRelations>): (r: Option<PokemonView>)
    ensures r.Some? <==> |raw.stats| >= 6
    ensures r.Some? ==> r.value.id == raw.id && r.value.name == raw.name
    ensures r.Some? ==> r.value.weightTenths == raw.weight && r.value.heightTenths == raw.height
    ensures r.Some? ==> (|r.value.types| == |raw.types| &&
      forall i :: 0 <= i < |raw.types| ==> r.value.types[i] == raw.types[i].kind.name)
    ensures r.Some? ==> r.value.previous == neighbours.previous && r.value.next == neighbours.next
    ensures r.Some? ==> (|r.value.abilities| == Min(2, |raw.abilities|) &&
      forall i :: 0 <= i < |r.value.abilities| ==>
        r.value.abilities[i] == ReplaceAllChar(raw.abilities[i].ability.name, '-', ' '))
    ensures r.Some? ==> (|r.value.stats| == 6 &&
      forall i :: 0 <= i < 6 ==> r.value.stats[i] == StatView(StatLabels[i], raw.stats[i].baseStat))
    ensures r.Some? ==> r.value.damageRelations == relations
  {
    match FormatPokemonStats(raw.stats)
    case None => None
    case Some(stats) =>
      Some(PokemonView(
        raw.id, raw.name, TypeNames(raw.types), raw.weight, raw.height,
        neighbours.previous, neighbours.next,
        FormatPokemonAbilities(raw.abilities), stats, relations))
  }

  /** The view model `fetchPokeData` sets for route parameter `pokemonId`, or
      `None` when it sets nothing: a rejected request, an empty body or a
      throw while reshaping. The steps run in the order of the source: the
      entity, its neighbours, the damage relations, then the reshaping. A
      produced view model carries the entity's id and name, its type names in
      order with the damage relations aligned to them, the first two abilities
      with hyphens replaced, the six labelled stats, and the neighbour names. */
  function DetailModel(api: Api, pokemonId: string): (r: Option<PokemonView>)
    ensures r.Some? ==> EntityUrl(pokemonId) in api.entities && api.entities[EntityUrl(pokemonId)].Some?
    ensures r.Some? ==> var raw := api.entities[EntityUrl(pokemonId)].value;
      |raw.stats| >= 6 && forall i :: 0 <= i < |raw.types| ==> raw.types[i].kind.url in api.typeRelations
    ensures r.Some? ==> var raw, v := api.entities[EntityUrl(pokemonId)].value, r.value;
      v.id == raw.id && v.name == raw.name &&
      v.weightTenths == raw.weight && v.heightTenths == raw.height &&
      |v.types| == |raw.types| == |v.damageRelations| &&
      (forall i :: 0 <= i < |v.types| ==>
        v.types[i] == raw.types[i].kind.name &&
        v.damageRelations[i] == api.typeRelations[raw.types[i].kind.url]) &&
      |v.abilities| == Min(2, |raw.abilities|) &&
      (forall i :: 0 <= i < |v.abilities| ==>
        v.abilities[i] == ReplaceAllChar(raw.abilities[i].ability.name, '-', ' ') && '-' !in v.abilities[i]) &&
      |v.stats| == 6 &&
      (forall i :: 0 <= i < 6 ==> v.stats[i] == StatView(StatLabels[i], raw.stats[i].baseStat)) &&
      NeighbourNames(api, raw.id) == Resolved(Neighbours(v.next, v.previous))
  {
    match api.GetEntity(EntityUrl(pokemonId))
    case Rejected => None
    case Resolved(data) =>
      match data
      case None => None
      case Some(raw) =>
        match NeighbourNames(api, raw.id)
        case Rejected => None
        case Resolved(neighbours) =>
          match AllDamageRelations(api, raw.types)
          case Rejected => None
          case Resolved(relations) => FormatPokemon(raw, neighbours, relations)
  }

  /** All-or-nothing: a view model is produced exactly when every request
      resolves, the entity body is present and it has at least six stats. */
  lemma DetailModelReady(api: Api, pokemonId: string)
    ensures DetailModel(api, pokemonId).Some? <==>
      EntityUrl(pokemonId) in api.entities &&
      api.entities[EntityUrl(pokemonId)].Some? &&
      var raw := api.entities[EntityUrl(pokemonId)].value;
      NeighbourNames(api, raw.id).Resolved? &&
      (forall i :: 0 <= i < |raw.types| ==> raw.types[i].kind.url in api.typeRelations) &&
      |raw.stats| >= 6
  {
  }

  // ---------------------------------------------------------------------------
  // Colours

  /** `TYPE_COLORS`: background class per type. */
  const TypeColors: map<string, string> := map[
    "normal" := "bg-gray-400",
    "fighting" := "bg-red-600",
    "flying" := "bg-blue-400",
    "poison" := "bg-purple-500",
    "ground" := "bg-yellow-600",
    "rock" := "bg-yellow-800",
    "bug" := "bg-green-400",
    "ghost" := "bg-purple-600",
    "steel" := "bg-gray-500",
    "fire" := "bg-red-500",
    "water" := "bg-blue-500",
    "grass" := "bg-green-500",
    "electric" := "bg-yellow-400",
    "psychic" := "bg-pink-500",
    "ice" := "bg-blue-300",
    "dragon" := "bg-purple-700",
    "dark" := "bg-gray-800",
    "fairy" := "bg-pink-300"
  ]

  /** `TYPE_TEXT_COLORS`: heading text class per type; only two are listed. */
  const TypeTextColors: map<string, string> := map[
    "normal" := "text-gray-400",
    "fighting" := "text-red-600"
  ]

  /** `TYPE_COLORS[types[0]] || 'bg-gray-400'`. */
  function BackgroundClass(types: seq<string>): (r: string)
    ensures |types| > 0 && types[0] in TypeColors ==> r == TypeColors[types[0]]
    ensures !(|types| > 0 && types[0] in TypeColors) ==> r == "bg-gray-400"
  {
    if |types| > 0 && types[0] in TypeColors then TypeColors[types[0]] else "bg-gray-400"
  }

  /** `TYPE_TEXT_COLORS[types[0]] || 'text-gray-400'`. Since `normal` is
      listed with the fallback's own class, the result differs from the
      fallback for a `fighting` first type only. */
  function TextClass(types: seq<string>): (r: string)
    ensures r == if |types| > 0 && types[0] == "fighting" then "text-red-600" else "text-gray-400"
  {
    if |types| > 0 && types[0] in TypeTextColors then TypeTextColors[types[0]] else "text-gray-400"
  }

  /** Every background class is a `bg-` utility. */
  lemma BackgroundClassIsBg(types: seq<string>)
    ensures |BackgroundClass(types)| > 3 && BackgroundClass(types)[..3] == "bg-"
  {
  }

  // ---------------------------------------------------------------------------
  // The component

  /** What the component renders. */
  datatype Screen =
    | Spinner
    | NotFound
    | Shown(
        background: string,
        headingText: string,
        idLabel: string,
        imageUrl: string,
        previousLink: Option<string>,
        nextLink: Option<string>,
        pokemon: PokemonView)

  /** A neighbour arrow is rendered only for a truthy name, to its route. */
  function NeighbourLink(name: Option<string>): (r: Option<string>)
    ensures r.Some? <==> Truthy(name)
    ensures r.Some? ==> r.value == PokemonRoute(name.value)
  {
    if Truthy(name) then Some(PokemonRoute(name.value)) else None
  }

  /** The render function: the spinner while loading, "NOT FOUND" when loaded
      without a model, otherwise the page. */
  function RenderDetail(isLoading: bool, pokemon: Option<PokemonView>): (r: Screen)
    ensures r.Spinner? <==> isLoading
    ensures r.NotFound? <==> !isLoading && pokemon.None?
    ensures r.Shown? ==> pokemon == Some(r.pokemon)
    ensures r.Shown? ==> r.idLabel == IdLabel(r.pokemon.id) && r.imageUrl == ArtworkUrl(r.pokemon.id)
    ensures r.Shown? ==> r.background == BackgroundClass(r.pokemon.types) && r.headingText == TextClass(r.pokemon.types)
    ensures r.Shown? ==> (r.previousLink.Some? <==> Truthy(r.pokemon.previous))
    ensures r.Shown? ==> (r.nextLink.Some? <==> Truthy(r.pokemon.next))
    ensures r.Shown? && Truthy(r.pokemon.previous) ==> r.previousLink == Some(PokemonRoute(r.pokemon.previous.value))
    ensures r.Shown? && Truthy(r.pokemon.next) ==> r.nextLink == Some(PokemonRoute(r.pokemon.next.value))
  {
    if isLoading then Spinner
    else if pokemon.None? then NotFound
    else
      var p := pokemon.value;
      Shown(BackgroundClass(p.types), TextClass(p.types), IdLabel(p.id), ArtworkUrl(p.id),
           NeighbourLink(p.previous), NeighbourLink(p.next), p)
  }

  /** The component's state: the two cells `pokemon` and `isLoading`. */
  class DetailPage {
    const pokemonId: string
    var pokemon: Option<PokemonView>
    var isLoading: bool

    /** Loading exactly while no view model is set. */
    ghost predicate Valid()
      reads this
    {
      isLoading <==> pokemon.None?
    }

    /** Mounting: `useState()` and `useState(true)`. */
    constructor (pokemonId: string)
      ensures Valid()
      ensures this.pokemonId == pokemonId && pokemon == None && isLoading
    {
      this.pokemonId := pokemonId;
      pokemon := None;
      isLoading := true;
    }

    /** `fetchPokeData`: the awaited steps in order; on success `setPokemon`
        then `setIsLoading(false)`, on any failure (caught) nothing changes. */
    method FetchPokeData(api: Api)
      modifies this
      ensures old(Valid()) ==> Valid()
      ensures DetailModel(api, pokemonId).Some? ==> pokemon == DetailModel(api, pokemonId) && !isLoading
      ensures DetailModel(api, pokemonId).None? ==> pokemon == old(pokemon) && isLoading == old(isLoading)
    {
      var response := api.GetEntity(EntityUrl(pokemonId));
      if response.Rejected? || response.value.None? {
        return;
      }
      var raw := response.value.value;
      var neighbours := GetNextAndPreviousPokemon(api, raw.id);
      if neighbours.Rejected? {
        return;
      }
      var relations := AllDamageRelations(api, raw.types);
      if relations.Rejected? {
        return;
      }
      var abilities := FormatPokemonAbilities(raw.abilities);
      var stats := FormatPokemonStats(raw.stats);
      if stats.None? {
        return;
      }
      var formatted := PokemonView(
        raw.id, raw.name, TypeNames(raw.types), raw.weight, raw.height,
        neighbours.value.previous, neighbours.value.next,
        abilities, stats.value, relations.value);
      pokemon := Some(formatted);
      isLoading := false;
    }

    function View(): Screen
      reads this
    {
      RenderDetail(isLoading, pokemon)
    }
  }

  /** The "NOT FOUND" branch is unreachable: the component never stops loading
      without a view model. */
  lemma NotFoundUnreachable(page: DetailPage)
    requires page.Valid()
    ensures page.View() != NotFound
  {
  }
}
