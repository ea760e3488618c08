/** The IIIF image information document's core fields (profile/profile.go). */
module Profile {
  import opened Results
  import opened Instructions

  const Context := "http://iiif.io/api/image/2/context.json"
  const ImageType := "iiif:Image"
  const Protocol := "http://iiif.io/api/image"
  const Level2Uri := "http://iiif.io/api/image/2/level2.json"

  /** An entry of the `profile` list: the compliance URI, or the level description itself. */
  datatype ProfileEntry<L> = Uri(uri: string) | Level(level: L)

  /** `Profile`, with the JSON keys `@context`, `@id`, `@type`, `protocol`, `width`, `height`, `profile`. */
  datatype Profile<L> = Profile(
    context: string, id: string, typeName: string, protocol: string,
    width: int, height: int, profile: seq<ProfileEntry<L>>)

  /** `NewProfile(endpoint, image, level)`: `image` is what the image reports through its interface. */
  function NewProfile<L>(endpoint: string, image: ImageView, level: L): (r: Result<Profile<L>>)
    ensures image.dimensions.Err? ==> r == Err(image.dimensions.error)
    ensures image.dimensions.Ok? ==> r.Ok?
    ensures r.Ok? ==>
      && r.value.context == Context && r.value.typeName == ImageType && r.value.protocol == Protocol
      && r.value.width == image.dimensions.value.width && r.value.height == image.dimensions.value.height
      && r.value.profile == [Uri(Level2Uri), Level(level)]
    ensures r.Ok? ==> |r.value.id| > |endpoint| && r.value.id[..|endpoint|] == endpoint && r.value.id[|endpoint|] == '/'
  {
    var dims :- image.dimensions;
    Ok(Profile(Context, endpoint + "/" + image.identifier, ImageType, Protocol,
               dims.width, dims.height, [Uri(Level2Uri), Level(level)]))
  }

  /** The `@id` is the endpoint and the identifier joined by one slash: the identifier is what follows it. */
  lemma IdNamesImage<L>(endpoint: string, image: ImageView, level: L)
    requires image.dimensions.Ok?
    ensures var p := NewProfile(endpoint, image, level).value;
      p.id[|endpoint| + 1..] == image.identifier && p.id == endpoint + "/" + image.identifier
  {
  }

  /** Distinct identifiers under one endpoint give distinct `@id`s. */
  lemma IdsDistinguishImages<L>(endpoint: string, a: ImageView, b: ImageView, level: L)
    requires a.dimensions.Ok? && b.dimensions.Ok? && a.identifier != b.identifier
    ensures NewProfile(endpoint, a, level).value.id != NewProfile(endpoint, b, level).value.id
  {
    IdNamesImage(endpoint, a, level);
    IdNamesImage(endpoint, b, level);
  }
}
