# Pokédex views: view-model reshaping and load state

This project models the logic of two React views of a Pokédex client over the
public PokeAPI REST service:

- the **detail page** (`src/pages/DetailPage/index.jsx`), which fetches one
  entity, the names of its neighbours in the catalogue and the damage
  relations of each of its types, reshapes them into one view model (first two
  abilities with hyphens turned into spaces, six positionally labelled stats,
  type names with aligned damage relations, neighbour names) and only then sets
  its two state cells `pokemon` and `isLoading`;
- the **card** (`src/components/PokeCard.jsx`), which fetches one entity,
  reduces it to `{id, name, type}` and renders a coloured link with a padded id
  label and the official-artwork image.

The network is a value: `PokeApi.Api` holds, per URL, what an entity URL, a
listing-page URL and a type URL answer; a URL that is not in its table is a
rejected request. Every awaited `axios.get` becomes a lookup in that table
(`GetEntity`, `GetPage`, `GetDamageRelations`) that either resolves or rejects
(`Fetched`); this is the abstraction of HTTP, not a modelled operation. The pure reshaping rules are functions with
contracts; the two components are classes whose fields are the React state
cells, with the fetch routines as methods specified by the functions
`Detail.DetailModel` and `Card.FetchedCard`. The detail page keeps the
invariant `isLoading <==> pokemon == None`, so its "NOT FOUND" branch can
never render: a failure anywhere leaves it loading.

Files: `common.dfy` (Option, Min, Max), `js_strings.dfy` (`toString`,
`padStart`, `replaceAll` and decimal parsing), `poke_api.dfy` (response records,
URLs), `display.dfy` (id label, image URL, route), `detail_page.dfy`,
`poke_card.dfy`.

The neighbour lookup fetches the `next` page before the `previous` page
(index.jsx lines 95-96), and follows a pagination link only when it is truthy
(a `null` or empty link is not fetched).

## Model

| member | source | states |
|---|---|---|
| `JsStrings.NumberToString` | src/pages/DetailPage/index.jsx:195 | `id.toString()` is a non-empty digit string with no leading zero (unless it is `0`); one digit exactly for ids below 10 |
| `JsStrings.NumberToStringRoundTrip` | src/components/PokeCard.jsx:71 | reading the decimal string back gives the id |
| `JsStrings.NumberToStringInjective` | src/components/PokeCard.jsx:71 | distinct ids render as distinct decimal strings |
| `JsStrings.IntToString` | src/pages/DetailPage/index.jsx:90 | `${id - 1}` starts with `-` exactly for a negative offset, digits otherwise |
| `JsStrings.IntToStringInjective` | src/pages/DetailPage/index.jsx:90 | distinct offsets interpolate to distinct strings |
| `JsStrings.IntToStringValue` | src/pages/DetailPage/index.jsx:90 | the digits of `${i}` read back as `|i|`, after the minus sign for a negative `i` |
| `JsStrings.LeadingZerosIgnored` | src/pages/DetailPage/index.jsx:195 | zeros padded in front do not change the value of a decimal string |
| `JsStrings.Repeat` | src/pages/DetailPage/index.jsx:195 | the `padStart` filler: length `n`, character `i` is `fill[i % |fill|]` |
| `JsStrings.PadStart` | src/pages/DetailPage/index.jsx:195 | `padStart`: length `max(target, |s|)` (or `|s|` for an empty fill), ends with `s`, filler characters cycle through `fill` |
| `JsStrings.ReplaceAllChar` | src/pages/DetailPage/index.jsx:86 | `replaceAll('-', ' ')`: same length, each `-` becomes a space, every other character unchanged, no `-` left |
| `PokeApi.EntityUrl` | src/pages/DetailPage/index.jsx:28 | the entity URL is the base URL followed by the route parameter, unchanged |
| `PokeApi.ListingUrl` | src/pages/DetailPage/index.jsx:90 | the listing URL is the fixed `?limit=1&offset=` prefix followed by the decimal offset, minus sign first when negative; the digits read back as the offset |
| `PokeApi.ListingUrlInjective` | src/pages/DetailPage/index.jsx:90 | the listing URL at offset `id - 1` is different for every id, so each entity looks up its own page |
| `Display.IdLabel` | src/components/PokeCard.jsx:71 | `padStart(3, '00')` of the decimal id: length `max(3, digits)`, the digits at the end, zeros before them |
| `Display.IdLabelDecodes` | src/pages/DetailPage/index.jsx:195 | the label is all digits and reads back as the id |
| `Display.ArtworkUrl` | src/components/PokeCard.jsx:59 | the image URL is the official-artwork prefix, the decimal id, then `.png` |
| `Display.ArtworkUrlRoundTrip` | src/pages/DetailPage/index.jsx:123 | the image URL determines the id it was built from |
| `Display.PokemonRoute` | src/components/PokeCard.jsx:65 | the route is `/pokemon/` followed by the name, unchanged |
| `Detail.FormatPokemonStats` | src/pages/DetailPage/index.jsx:68-82 | defined exactly when there are at least six stats (with fewer, destructuring yields `undefined` and reading its `base_stat` throws); then six entries, entry `i` labelled `StatLabels[i]` with the `i`-th `base_stat` |
| `Detail.FormatPokemonStatsPositional` | src/pages/DetailPage/index.jsx:68-82 | stat names and entries beyond the sixth are ignored: only the first six base values matter |
| `Detail.FilterIndexAtMost` | src/pages/DetailPage/index.jsx:85 | `filter((_, index) => index <= 1)` keeps exactly the prefix of length `min(2, |s|)` |
| `Detail.AbilityNames` | src/pages/DetailPage/index.jsx:86 | the map keeps length and order; entry `i` is the `i`-th ability name with hyphens replaced |
| `Detail.FormatPokemonAbilities` | src/pages/DetailPage/index.jsx:84-87 | `min(2, |abilities|)` entries, the first abilities in order, hyphens turned into spaces, no `-` in any entry |
| `Detail.TypeNames` | src/pages/DetailPage/index.jsx:47 | same length and order as `types`, entry `i` is `types[i].type.name` |
| `Detail.AllDamageRelations` | src/pages/DetailPage/index.jsx:36-41 | the joined batch resolves exactly when every type URL resolves; then relation `i` belongs to type `i` |
| `Detail.FirstResultName` | src/pages/DetailPage/index.jsx:101-102 | `?.results?.[0]?.name`: present exactly when the page has a result, and then the first result's name |
| `Detail.FollowLink` | src/pages/DetailPage/index.jsx:95-96 | a falsy link is not fetched and gives no name; a truthy one resolves exactly when its page is answered, to that page's first result name |
| `Detail.NeighbourNames` | src/pages/DetailPage/index.jsx:89-105 | on success the listing page at offset `id - 1` was answered, every truthy link was followed, and `next`/`previous` is present exactly when its link is truthy and the linked page has a result, and is then that first result's name |
| `Detail.GetNextAndPreviousPokemon` | src/pages/DetailPage/index.jsx:89-105 | the sequential fetches resolve to the neighbour names `NeighbourNames` describes, rejecting when any fetch does |
| `Detail.NeighbourNamesResolved` | src/pages/DetailPage/index.jsx:90-96 | the neighbour lookup succeeds exactly when the page at offset `id - 1` and each page its truthy links name are answered |
| `Detail.FormatPokemon` | src/pages/DetailPage/index.jsx:44-56 | the view-model literal exists exactly when there are six or more stats; it keeps id, name, raw weight and height, the neighbour names and the relations, has the type names in order, the first two abilities with hyphens replaced and the six labelled stats |
| `Detail.DetailModel` | src/pages/DetailPage/index.jsx:27-66 | a produced view model comes from an answered entity body with six or more stats and all types answered; it carries the entity's id, name, raw weight and height, type names with aligned relations, the first two abilities with hyphens replaced (none left), six labelled stats and the resolved neighbour names |
| `Detail.DetailModelReady` | src/pages/DetailPage/index.jsx:27-66 | a view model is produced exactly when the entity resolves with a body, the neighbours and every type resolve, and there are at least six stats |
| `Detail.BackgroundClass` | src/pages/DetailPage/index.jsx:124-152 | `TYPE_COLORS[types[0]]`, or `bg-gray-400` when there is no first type or it is not listed |
| `Detail.BackgroundClassIsBg` | src/pages/DetailPage/index.jsx:124-152 | every background class is a `bg-` class |
| `Detail.TextClass` | src/pages/DetailPage/index.jsx:145-153 | the text class is `text-red-600` for a `fighting` first type and `text-gray-400` in every other case (`normal` is listed with the fallback's class) |
| `Detail.NeighbourLink` | src/pages/DetailPage/index.jsx:166-182 | an arrow exists exactly for a truthy neighbour name and points to `/pokemon/` + that name |
| `Detail.RenderDetail` | src/pages/DetailPage/index.jsx:107-195 | spinner exactly while loading, "NOT FOUND" exactly when loaded without a model, otherwise the page with id label, image, colours and, for each truthy neighbour name, an arrow to `/pokemon/` + that name |
| `Detail.DetailPage.constructor` | src/pages/DetailPage/index.jsx:14-15 | starts with no model and loading, which satisfies the invariant |
| `Detail.DetailPage.FetchPokeData` | src/pages/DetailPage/index.jsx:27-66 | on success sets `pokemon` to the view model and clears `isLoading`; on any failure changes nothing; keeps the invariant |
| `Detail.NotFoundUnreachable` | src/pages/DetailPage/index.jsx:117-121 | under the invariant the "NOT FOUND" screen is never rendered |
| `Card.FormatPokemonData` | src/components/PokeCard.jsx:46-54 | defined exactly when there is a type; then id and name unchanged and `type` is the first type's name |
| `Card.FormatPokemonDataIgnoresLaterTypes` | src/components/PokeCard.jsx:51 | types after the first do not affect the card data |
| `Card.TypeColorsKeys` | src/components/PokeCard.jsx:6-26 | the colour table holds exactly the eighteen listed types and `default` |
| `Card.CardPalette` | src/components/PokeCard.jsx:56-57 | a listed type gets its own palette; no data, an empty type or an unlisted type gets the `default` palette |
| `Card.RenderCard` | src/components/PokeCard.jsx:61-95 | nothing is rendered until `pokemon` is set; then a link to `/pokemon/` + the `name` prop, the padded id label, the artwork URL, the prop as alt text and the fetched name as caption |
| `Card.FetchedCard` | src/components/PokeCard.jsx:35-44 | card data results exactly when the URL is answered with a body that has a type; it is then the entity's id and name and its first type's name |
| `Card.PokeCard.constructor` | src/components/PokeCard.jsx:28-29 | keeps the props and starts with no card data |
| `Card.PokeCard.FetchPokeDetailData` | src/components/PokeCard.jsx:35-44 | on success sets `pokemon` to the reduced data; a rejected request, an empty body or an entity without types leaves it as it was |

## Left out

- HTTP itself, response decoding and `console.log`/`console.error`: each request is a lookup in `PokeApi.Api`; logging has no effect on state.
- `Promise.all` concurrency: the type requests are modelled as an order-preserving sequential map that rejects when any element rejects; which rejection is reported first does not matter, as every rejection is swallowed the same way.
- `weight / 10` and `height / 10` are floating-point divisions; the view model keeps the raw integer tenths (`weightTenths`, `heightTenths`).
- Malformed payloads beyond the three that the reshaping itself trips over (fewer than six stats, no types, an empty body): response records always have the fields the views read, so a missing field other than these is treated as a rejected request.
- `Number.prototype.toString` for ids of 10^21 and above (exponential notation) and for non-integer ids: ids are natural numbers written in plain decimal.
- JavaScript property lookup on the colour tables also finds names inherited from `Object.prototype` (`constructor`, `toString`, ...); the tables are modelled as plain maps, so such a type name falls back to the default class.
- React hooks and the effect lifecycle (one fetch on mount, no cancellation, a late result after unmount), JSX layout and CSS strings other than the colour tables, react-router `Link`/`useParams` (the route parameter is a constructor argument), and the `Type`, `Lazyimage` and icon components are not part of this model.
