/** The start-up meta update of src/main.tsx (`updatePageMeta`): title, description and
    manifest from the restaurant-config endpoint, with a fixed title on any failure. */
module PageMeta {
  import opened Common
  import opened Text
  import opened Manifest

  /** A JSON string field that a template literal interpolates, where `null` and a
      missing field print differently. */
  datatype JsonText = Missing | JsonNull | Given(text: string)

  /** `${x}`: a missing field prints "undefined", a JSON null "null". */
  function JsText(x: JsonText): (r: string)
    ensures x.Given? ==> r == x.text
    ensures x == Missing ==> r == "undefined"
    ensures x == JsonNull ==> r == "null"
  {
    match x
    case Missing => "undefined"
    case JsonNull => "null"
    case Given(t) => t
  }

  datatype Address = Address(street: Option<string>, postalCode: JsonText, city: JsonText)

  /** The fields of the config response the page reads. */
  datatype SiteConfig = SiteConfig(
    name: Option<string>,
    tagline: Option<string>,
    description: Option<string>,
    phone: Option<string>,
    address: Option<Address>)

  /** How the request ended: the fetch threw, or a response arrived with its status flag,
      its content type and its body parsed as JSON (`None`: parsing threw). */
  datatype FetchOutcome = NetworkError | Reply(ok: bool, contentType: Option<string>, body: Option<SiteConfig>)

  const FallbackTitle: string := "Ravintola Babylon - Order Online"

  /** `${name || 'Restaurant'} - ${tagline || 'Order Online'}`. */
  function PageTitle(c: SiteConfig): (r: string)
    ensures |r| == |OrElse(c.name, "Restaurant")| + 3 + |OrElse(c.tagline, "Order Online")|
    ensures !StrTruthy(c.name) && !StrTruthy(c.tagline) ==> r == "Restaurant - Order Online"
    ensures StrTruthy(c.name) ==> r[..|c.name.value|] == c.name.value && r[|c.name.value|..|c.name.value| + 3] == " - "
    ensures StrTruthy(c.tagline) ==> r[|r| - |c.tagline.value|..] == c.tagline.value
    ensures var name, tagline := OrElse(c.name, "Restaurant"), OrElse(c.tagline, "Order Online");
      && r[..|name|] == name
      && r[|name|..|name| + 3] == " - "
      && r[|name| + 3..] == tagline
  {
    OrElse(c.name, "Restaurant") + " - " + OrElse(c.tagline, "Order Online")
  }

  /** `street, postalCode city`, a missing postal code or city rendered as "undefined"
      and a null one as "null". */
  function AddressText(a: Address): string
    requires StrTruthy(a.street)
  {
    a.street.value + ", " + JsText(a.postalCode) + " " + JsText(a.city)
  }

  /** The description parts: the description or its default, then the phone and the
      address when they are set. */
  function DescriptionParts(c: SiteConfig): (r: seq<string>)
    ensures 1 <= |r| <= 3
    ensures r[0] == OrElse(c.description, "Order delicious food online")
    ensures ("Call " + c.phone.value in r) <== StrTruthy(c.phone)
    ensures |r| == 1 + (if StrTruthy(c.phone) then 1 else 0)
                      + (if c.address.Some? && StrTruthy(c.address.value.street) then 1 else 0)
    ensures StrTruthy(c.phone) ==> r[1] == "Call " + c.phone.value
    ensures c.address.Some? && StrTruthy(c.address.value.street) ==>
      r[|r| - 1] == AddressText(c.address.value)
  {
    var parts := [OrElse(c.description, "Order delicious food online")];
    var parts := if StrTruthy(c.phone) then parts + ["Call " + c.phone.value] else parts;
    if c.address.Some? && StrTruthy(c.address.value.street) then parts + [AddressText(c.address.value)]
    else parts
  }

  /** The parts joined by ". ": the description (or its default) always comes first, and
      is the whole text when there is nothing else to say. */
  function PageDescription(c: SiteConfig): (r: string)
    ensures var d := OrElse(c.description, "Order delicious food online");
      && |r| >= |d|
      && r[..|d|] == d
      && (|DescriptionParts(c)| > 1 ==> |r| >= |d| + 2 && r[|d|..|d| + 2] == ". ")
      && (|DescriptionParts(c)| == 1 <==> |r| == |d|)
  {
    var parts := DescriptionParts(c);
    if |parts| == 1 then Join(parts, ". ")
    else
      assert Join(parts, ". ") == parts[0] + ". " + Join(parts[1..], ". ");
      Join(parts, ". ")
  }

  /** With only a description, the description is used as it is. */
  lemma DescriptionAlone(c: SiteConfig)
    requires !StrTruthy(c.phone) && (c.address.None? || !StrTruthy(c.address.value.street))
    ensures PageDescription(c) == OrElse(c.description, "Order delicious food online")
  {
  }

  /** With a phone and no address, the two parts are joined by ". ". */
  lemma DescriptionWithPhone(c: SiteConfig)
    requires StrTruthy(c.phone) && (c.address.None? || !StrTruthy(c.address.value.street))
    ensures PageDescription(c) == OrElse(c.description, "Order delicious food online") + ". " + ("Call " + c.phone.value)
  {
    var parts := DescriptionParts(c);
    assert parts == [OrElse(c.description, "Order delicious food online"), "Call " + c.phone.value];
    assert Join(parts[1..], ". ") == parts[1];
  }

  /** With a street and no phone, the address line follows the description. */
  lemma DescriptionWithAddress(c: SiteConfig)
    requires !StrTruthy(c.phone) && c.address.Some? && StrTruthy(c.address.value.street)
    ensures PageDescription(c) == OrElse(c.description, "Order delicious food online") + ". " + AddressText(c.address.value)
  {
    var parts := DescriptionParts(c);
    assert parts == [OrElse(c.description, "Order delicious food online"), AddressText(c.address.value)];
    assert Join(parts[1..], ". ") == parts[1];
  }

  /** With a phone and a street, the three parts are joined by ". ". */
  lemma DescriptionWithPhoneAndAddress(c: SiteConfig)
    requires StrTruthy(c.phone) && c.address.Some? && StrTruthy(c.address.value.street)
    ensures PageDescription(c)
      == OrElse(c.description, "Order delicious food online") + ". " + ("Call " + c.phone.value) + ". " + AddressText(c.address.value)
  {
    var parts := DescriptionParts(c);
    var d, call, addr := parts[0], parts[1], parts[2];
    assert parts == [d, call, addr];
    JoinThree(d, call, addr, ". ");
  }

  /** Three parts are joined with the separator between each pair. */
  lemma JoinThree(x: string, y: string, z: string, sep: string)
    ensures Join([x, y, z], sep) == x + sep + y + sep + z
  {
    assert [x, y, z][1..] == [y, z];
    assert [y, z][1..] == [z];
    assert Join([y, z], sep) == y + sep + z;
    assert Join([x, y, z], sep) == x + sep + (y + sep + z);
  }

  /** The description the page should carry, written out: the description or its
      default, then ". Call <phone>" when a phone is set, then ". <street>, <postal code>
      <city>" when a street is set. */
  function ExpectedDescription(c: SiteConfig): string
  {
    OrElse(c.description, "Order delicious food online")
      + (if StrTruthy(c.phone) then ". " + ("Call " + c.phone.value) else "")
      + (if c.address.Some? && StrTruthy(c.address.value.street) then ". " + AddressText(c.address.value) else "")
  }

  /** Joining the parts gives exactly the written-out description. */
  lemma DescriptionJoined(c: SiteConfig)
    ensures PageDescription(c) == ExpectedDescription(c)
  {
    if c.address.Some? && StrTruthy(c.address.value.street) {
      if StrTruthy(c.phone) {
        DescriptionWithPhoneAndAddress(c);
      } else {
        DescriptionWithAddress(c);
      }
    } else if StrTruthy(c.phone) {
      DescriptionWithPhone(c);
    } else {
      DescriptionAlone(c);
    }
  }

  /** A JSON-null postal code prints as "null" in the address line. */
  lemma DescriptionNullPostalCode()
    ensures PageDescription(SiteConfig(None, None, Some("D"), Some("P"),
                                       Some(Address(Some("Katu 1"), JsonNull, Given("Lahti")))))
      == "D" + ". " + ("Call " + "P") + ". " + ("Katu 1" + ", " + "null" + " " + "Lahti")
  {
    var c := SiteConfig(None, None, Some("D"), Some("P"), Some(Address(Some("Katu 1"), JsonNull, Given("Lahti"))));
    DescriptionWithPhoneAndAddress(c);
  }

  /** The response is used only when it is OK and declares JSON. */
  predicate Usable(o: FetchOutcome)
  {
    o.Reply? && o.ok && o.contentType.Some? && Contains(o.contentType.value, "application/json")
  }

  /** The head of the document: the title, the three meta tags (their content, when the
      tag exists) and the manifest link. */
  class PageDocument {
    var title: string
    var metaDescription: Option<string>
    var ogTitle: Option<string>
    var ogDescription: Option<string>
    var manifest: Option<WebManifest>

    constructor (title: string, metaDescription: Option<string>, ogTitle: Option<string>, ogDescription: Option<string>)
      ensures this.title == title && this.metaDescription == metaDescription
      ensures this.ogTitle == ogTitle && this.ogDescription == ogDescription && manifest.None?
    {
      this.title := title;
      this.metaDescription := metaDescription;
      this.ogTitle := ogTitle;
      this.ogDescription := ogDescription;
      manifest := None;
    }

    /** `updatePageMeta`. A usable config sets the title, fills whichever meta tags exist
        and installs the manifest; anything else sets the fallback title only. */
    method UpdatePageMeta(o: FetchOutcome)
      modifies this
      ensures !Usable(o) || o.body.None? ==>
        && title == FallbackTitle
        && metaDescription == old(metaDescription) && ogTitle == old(ogTitle)
        && ogDescription == old(ogDescription) && manifest == old(manifest)
      ensures Usable(o) && o.body.Some? ==>
        var c := o.body.value;
        && title == PageTitle(c)
        && metaDescription == (if old(metaDescription).Some? then Some(PageDescription(c)) else None)
        && ogTitle == (if old(ogTitle).Some? then Some(PageTitle(c)) else None)
        && ogDescription == (if old(ogDescription).Some? then Some(PageDescription(c)) else None)
        && manifest == Some(BuildManifest(c.name, c.description))
    {
      if !Usable(o) || o.body.None? {
        title := FallbackTitle;
        return;
      }
      var c := o.body.value;
      var t := PageTitle(c);
      title := t;
      var d := PageDescription(c);
      if metaDescription.Some? {
        metaDescription := Some(d);
      }
      if ogTitle.Some? {
        ogTitle := Some(t);
      }
      if ogDescription.Some? {
        ogDescription := Some(d);
      }
      manifest := Some(BuildManifest(c.name, c.description));
    }
  }
}
