/**
 * The metadata document the mint handler builds before pinning it, and the JSON object
 * `JSON.stringify` sends for it.
 */
module Metadata {
  import opened Base
  import opened Decimal
  import opened Json

  datatype Attribute = Attribute(traitType: string, value: string)

  datatype Metadata = Metadata(name: string, description: string, image: string, attributes: seq<Attribute>)

  /** `v || fallback` on a nullable string: `null` and `""` both give the fallback. */
  function Or(v: Option<string>, fallback: string): (r: string)
    ensures v.Some? && v.value != "" ==> r == v.value
    ensures !(v.Some? && v.value != "") ==> r == fallback
  {
    if v.Some? && v.value != "" then v.value else fallback
  }

  /** The displayed name of a token: `"<username> #<fid>"`, or `"User #<fid>"` without a username. */
  function DisplayName(username: Option<string>, fid: string): string
  {
    if username.Some? && username.value != "" then username.value + " #" + fid else "User #" + fid
  }

  /** The image path for an index: the images are numbered from 1. */
  function ImagePath(origin: string, selectedIndex: int): string
  {
    origin + "/images/" + IntToString(selectedIndex + 1) + ".png"
  }

  /** Reads back the image number from a path under `origin`. */
  function ImageNumber(origin: string, image: string): Option<int>
  {
    var prefix := origin + "/images/";
    if |image| >= |prefix| + 4 && image[..|prefix|] == prefix && image[|image| - 4..] == ".png"
    then ParseInt(image[|prefix|..|image| - 4])
    else None
  }

  lemma ImagePathRoundTrip(origin: string, selectedIndex: int)
    ensures ImageNumber(origin, ImagePath(origin, selectedIndex)) == Some(selectedIndex + 1)
  {
    var prefix := origin + "/images/";
    var digits := IntToString(selectedIndex + 1);
    var image := ImagePath(origin, selectedIndex);
    assert image == prefix + digits + ".png";
    assert image[..|prefix|] == prefix;
    assert image[|image| - 4..] == ".png";
    assert image[|prefix|..|image| - 4] == digits;
    IntToStringRoundTrip(selectedIndex + 1);
  }

  /** An image number pins the whole path: only `ImagePath` reads back as a given number. */
  lemma ImageNumberDeterminesPath(origin: string, image: string, k: int)
    requires ImageNumber(origin, image) == Some(k)
    ensures image == ImagePath(origin, k - 1)
  {
    var prefix := origin + "/images/";
    var digits := image[|prefix|..|image| - 4];
    ParseIntCanonical(digits, k);
    assert image == image[..|prefix|] + digits + image[|image| - 4..];
  }

  /**
   * The document of the mint handler: name, description, image path and exactly three
   * attributes, with the fallbacks `'unknown'` for a missing colour and `'-'` for a
   * missing username.
   */
  function Build(fid: string, username: Option<string>, origin: string, selectedIndex: int,
                 rankColor: Option<string>): (m: Metadata)
    ensures m.name == (if username.Some? && username.value != "" then username.value else "User") + " #" + fid
    ensures m.description == "NFT for Farcaster user " + Or(username, fid)
    ensures ImageNumber(origin, m.image) == Some(selectedIndex + 1)
    ensures |m.attributes| == 3
    ensures m.attributes[0] == Attribute("Rank Color", Or(rankColor, "unknown"))
    ensures m.attributes[1] == Attribute("FID", fid)
    ensures m.attributes[2] == Attribute("Username", Or(username, "-"))
    ensures m.name != "" && m.image != ""
  {
    ImagePathRoundTrip(origin, selectedIndex);
    Metadata(
      DisplayName(username, fid),
      "NFT for Farcaster user " + Or(username, fid),
      ImagePath(origin, selectedIndex),
      [ Attribute("Rank Color", Or(rankColor, "unknown")),
        Attribute("FID", fid),
        Attribute("Username", Or(username, "-")) ])
  }

  function AttributeJson(a: Attribute): Json
  {
    JObj(map["trait_type" := JStr(a.traitType), "value" := JStr(a.value)])
  }

  /** The object the document becomes in the request body (`JSON.stringify(metadata)`). */
  function ToJson(m: Metadata): (j: Json)
    ensures Field(j, "name") == Some(JStr(m.name))
    ensures Field(j, "image") == Some(JStr(m.image))
  {
    JObj(map[
      "name" := JStr(m.name),
      "description" := JStr(m.description),
      "image" := JStr(m.image),
      "attributes" := JArr(seq(|m.attributes|, i requires 0 <= i < |m.attributes| => AttributeJson(m.attributes[i])))
    ])
  }
}
