/** Presentation strings shared by the card and the detail view: the `#001`
    style id label, the official-artwork image URL and the route of an entity
    page. */
module Display {
  import opened Common
  import opened JsStrings

  const ArtworkPrefix: string :=
    "https://raw.githubusercontent.com/PokeAPI/sprites/master/sprites/pokemon/other/official-artwork/"

  const ArtworkSuffix: string := ".png"

  /** `id.toString().padStart(3, '00')`: the decimal id with zeros in front up
      to three characters; longer ids are left as they are. */
  function IdLabel(id: nat): (r: string)
    ensures |r| == Max(3, |NumberToString(id)|)
    ensures r[|r| - |NumberToString(id)|..] == NumberToString(id)
    ensures AllZeros(r[..|r| - |NumberToString(id)|])
  {
    PadStart(NumberToString(id), 3, "00")
  }

  /** The label is all digits and reads back as the id. */
  lemma IdLabelDecodes(id: nat)
    ensures AllDigits(IdLabel(id)) && DecimalValue(IdLabel(id)) == id
  {
    var r, d := IdLabel(id), NumberToString(id);
    var z := r[..|r| - |d|];
    assert r == z + d;
    LeadingZerosIgnored(z, d);
    NumberToStringRoundTrip(id);
  }

  /** The image URL: the artwork prefix, the decimal id, then `.png`. */
  function ArtworkUrl(id: nat): (r: string)
    ensures |r| > |ArtworkPrefix| + |ArtworkSuffix|
    ensures r[..|ArtworkPrefix|] == ArtworkPrefix
    ensures r[|r| - |ArtworkSuffix|..] == ArtworkSuffix
    ensures r[|ArtworkPrefix|..|r| - |ArtworkSuffix|] == NumberToString(id)
  {
    ArtworkPrefix + NumberToString(id) + ArtworkSuffix
  }

  /** The id an artwork URL names, if it has the artwork shape. */
  function ArtworkId(url: string): Option<nat>
  {
    var lo, hi := |ArtworkPrefix|, |url| - |ArtworkSuffix|;
    if lo < hi && url[..lo] == ArtworkPrefix && url[hi..] == ArtworkSuffix && AllDigits(url[lo..hi])
    then Some(DecimalValue(url[lo..hi]))
    else None
  }

  /** The image URL determines the id it was built from. */
  lemma ArtworkUrlRoundTrip(id: nat)
    ensures ArtworkId(ArtworkUrl(id)) == Some(id)
  {
    NumberToStringRoundTrip(id);
  }

  /** `/pokemon/${name}`: the route of an entity's detail page. */
  function PokemonRoute(name: string): (r: string)
    ensures |r| == 9 + |name| && r[..9] == "/pokemon/" && r[9..] == name
  {
    "/pokemon/" + name
  }
}
