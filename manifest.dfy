/** The web-app manifest built by `updateManifest` in src/lib/manifest-updater.ts. */
module Manifest {
  import opened Common
  import opened Text

  datatype ManifestIcon = ManifestIcon(src: string, sizes: string, iconType: string, purpose: string)

  datatype WebManifest = WebManifest(
    name: string,
    shortName: string,
    description: string,
    themeColor: string,
    backgroundColor: string,
    display: string,
    orientation: string,
    scope: string,
    startUrl: string,
    icons: seq<ManifestIcon>,
    categories: seq<string>)

  const DefaultDescription: string := "Finnish restaurant offering pizza, kebab, and traditional cuisine"

  /** `config.name?.split(' ').pop() || 'Babylon'`. */
  function ShortName(name: Option<string>): (r: string)
    ensures ' ' !in r && r != ""
    ensures name.None? ==> r == "Babylon"
    ensures name.Some? && AfterLast(name.value, ' ') != "" ==> r == AfterLast(name.value, ' ')
    ensures name.Some? && AfterLast(name.value, ' ') == "" ==> r == "Babylon"
  {
    if name.None? then "Babylon" else OrElse(Some(AfterLast(name.value, ' ')), "Babylon")
  }

  /** The short name of a several-word name is its last word. */
  lemma ShortNameLastWord(first: string, last: string)
    requires ' ' !in last && last != ""
    ensures ShortName(Some(first + " " + last)) == last
  {
    assert first + " " + last == first + [' '] + last;
    AfterLastSegment(first, ' ', last);
  }

  /** A name ending in a space has an empty last word, so the default is used. */
  lemma ShortNameTrailingSpace(first: string)
    ensures ShortName(Some(first + " ")) == "Babylon"
  {
    assert first + " " == first + [' '] + "";
    AfterLastSegment(first, ' ', "");
  }

  /** A one-word name is its own short name. */
  lemma ShortNameOneWord(name: string)
    requires ' ' !in name && name != ""
    ensures ShortName(Some(name)) == name
  {
    AfterLastNone(name, ' ');
  }

  /** The manifest for a restaurant name and description. */
  function BuildManifest(name: Option<string>, description: Option<string>): (m: WebManifest)
    ensures m.name == OrElse(name, "Ravintola Babylon") && m.name != ""
    ensures m.shortName == ShortName(name)
    ensures m.description == OrElse(description, DefaultDescription)
    ensures m.scope == "/" && m.startUrl == "/" && m.display == "standalone"
    ensures |m.icons| == 2 && m.icons[0].sizes == "192x192" && m.icons[1].sizes == "512x512"
  {
    WebManifest(
      OrElse(name, "Ravintola Babylon"),
      ShortName(name),
      OrElse(description, DefaultDescription),
      "#dc2626",
      "#ffffff",
      "standalone",
      "portrait",
      "/",
      "/",
      [ManifestIcon("/icon-192.png", "192x192", "image/png", "any maskable"),
       ManifestIcon("/icon-512.png", "512x512", "image/png", "any maskable")],
      ["food", "shopping"])
  }
}
