/** The schema.org and sitemap builders of src/components/seo.tsx. JSON-LD objects are
    records here; a field that JavaScript omits or leaves `undefined` is `None`. */
module Seo {
  import opened Common
  import opened Text

  // ---------------------------------------------------------------------------
  // Restaurant
  // ---------------------------------------------------------------------------

  datatype DayHours = DayHours(open: string, close: string, closed: Option<bool>)

  datatype Features = Features(delivery: Option<bool>, pickup: Option<bool>, dineIn: Option<bool>)

  /** The restaurant facts the page passes in. `openingHours` lists the object's
      entries in their enumeration order. */
  datatype RestaurantSeoData = RestaurantSeoData(
    name: string,
    description: Option<string>,
    address: Option<string>,
    city: Option<string>,
    postalCode: Option<string>,
    phone: Option<string>,
    email: Option<string>,
    slug: Option<string>,
    logo: Option<string>,
    features: Option<Features>,
    openingHours: Option<seq<(string, DayHours)>>,
    priceRange: Option<string>)

  datatype OpeningHoursSpecification = OpeningHoursSpecification(dayOfWeek: string, opens: string, closes: string)

  datatype PostalAddress = PostalAddress(
    streetAddress: Option<string>, addressLocality: Option<string>, postalCode: Option<string>, addressCountry: string)

  datatype OrderAction = OrderAction(urlTemplate: string, actionPlatform: seq<string>, deliveryMethod: seq<string>)

  datatype RestaurantLd = RestaurantLd(
    name: string,
    description: string,
    url: string,
    logo: string,
    image: string,
    telephone: Option<string>,
    email: Option<string>,
    priceRange: string,
    servesCuisine: seq<string>,
    address: PostalAddress,
    openingHoursSpecification: Option<seq<OpeningHoursSpecification>>,
    potentialAction: Option<OrderAction>)

  const OwnFleet: string := "http://purl.org/goodrelations/v1#DeliveryModeOwnFleet"
  const PickUp: string := "http://purl.org/goodrelations/v1#DeliveryModePickUp"

  /** `s.charAt(0).toUpperCase() + s.slice(1)`. */
  function Capitalize(s: string): (r: string)
    ensures |r| == |s|
    ensures s != [] ==> r[0] == UpperChar(s[0]) && r[1..] == s[1..]
  {
    if s == [] then s else [UpperChar(s[0])] + s[1..]
  }

  /** The non-closed days, in order, with capitalised names. */
  function OpenDays(hours: seq<(string, DayHours)>): (r: seq<OpeningHoursSpecification>)
    ensures |r| <= |hours|
    ensures forall d | d in r :: exists e | e in hours ::
      e.1.closed != Some(true) && d == OpeningHoursSpecification(Capitalize(e.0), e.1.open, e.1.close)
    ensures forall e | e in hours && e.1.closed != Some(true) ::
      OpeningHoursSpecification(Capitalize(e.0), e.1.open, e.1.close) in r
  {
    if hours == [] then []
    else
      var rest := OpenDays(hours[1..]);
      var (day, h) := hours[0];
      if h.closed != Some(true) then [OpeningHoursSpecification(Capitalize(day), h.open, h.close)] + rest
      else rest
  }

  /** Entries are kept in order: the specification of a concatenation is the concatenation. */
  lemma {:induction false} OpenDaysAppend(a: seq<(string, DayHours)>, b: seq<(string, DayHours)>)
    ensures OpenDays(a + b) == OpenDays(a) + OpenDays(b)
  {
    if a == [] {
      assert a + b == b;
    } else {
      assert (a + b)[0] == a[0];
      assert (a + b)[1..] == a[1..] + b;
      OpenDaysAppend(a[1..], b);
    }
  }

  /** The cuisines each feature flag contributes, with the fallback for none. */
  function ServesCuisine(f: Option<Features>): (r: seq<string>)
    ensures r != []
    ensures (f.None? || (!BoolTruthy(f.value.delivery) && !BoolTruthy(f.value.pickup) && !BoolTruthy(f.value.dineIn)))
      ==> r == ["Finnish", "International"]
    ensures f.Some? && BoolTruthy(f.value.pickup) ==> "Pizza" in r
    ensures f.Some? && BoolTruthy(f.value.dineIn) ==> "Kebab" in r
    ensures "Pizza" in r <==> f.Some? && BoolTruthy(f.value.pickup)
    ensures "Kebab" in r <==> f.Some? && BoolTruthy(f.value.dineIn)
    ensures "Finnish" in r <==>
      f.None? || BoolTruthy(f.value.delivery) || (!BoolTruthy(f.value.pickup) && !BoolTruthy(f.value.dineIn))
    ensures "International" in r <==>
      f.None? || (!BoolTruthy(f.value.delivery) && !BoolTruthy(f.value.pickup) && !BoolTruthy(f.value.dineIn))
    ensures 1 <= |r| <= 3
    ensures forall i, j | 0 <= i < j < |r| :: CuisineRank(r[i]) < CuisineRank(r[j])
    ensures forall c | c in r :: c in ["Finnish", "Pizza", "Kebab", "International"]
  {
    var flags := if f.None? then Features(None, None, None) else f.value;
    var list := (if BoolTruthy(flags.delivery) then ["Finnish"] else [])
      + (if BoolTruthy(flags.pickup) then ["Pizza"] else [])
      + (if BoolTruthy(flags.dineIn) then ["Kebab"] else []);
    if |list| > 0 then list else ["Finnish", "International"]
  }

  /** The position of a cuisine in the list: Finnish, Pizza, Kebab, then International. */
  function CuisineRank(c: string): nat
  {
    if c == "Finnish" then 0 else if c == "Pizza" then 1 else if c == "Kebab" then 2 else 3
  }

  /** The site address: `https://<slug or ravintola>.plateos.fi`. */
  function SiteUrl(slug: Option<string>): (r: string)
    ensures var host := OrElse(slug, "ravintola");
      && |r| == 8 + |host| + 11
      && r[..8] == "https://"
      && r[8..8 + |host|] == host
      && r[8 + |host|..] == ".plateos.fi"
    ensures !StrTruthy(slug) ==> r == "https://ravintola.plateos.fi"
  {
    "https://" + OrElse(slug, "ravintola") + ".plateos.fi"
  }

  /** `generateRestaurantStructuredData`. */
  function RestaurantStructuredData(r: RestaurantSeoData): (ld: RestaurantLd)
    ensures ld.name == r.name
    ensures ld.description == if StrTruthy(r.description) then r.description.value
                              else r.name + " - Tilaa verkossa tai syö paikan päällä"
    ensures ld.url == SiteUrl(r.slug)
    ensures ld.logo == ld.image == OrElse(r.logo, "/logo.png")
    ensures ld.priceRange == OrElse(r.priceRange, "€€")
    ensures ld.telephone == r.phone && ld.email == r.email
    ensures ld.address == PostalAddress(r.address, r.city, r.postalCode, "FI")
    ensures ld.servesCuisine == ServesCuisine(r.features) && ld.servesCuisine != []
    ensures ld.openingHoursSpecification.Some? <==> r.openingHours.Some?
    ensures r.openingHours.Some? ==> ld.openingHoursSpecification.value == OpenDays(r.openingHours.value)
    ensures ld.potentialAction.Some? <==> r.features.Some? && BoolTruthy(r.features.value.delivery)
    ensures ld.potentialAction.Some? ==>
      && ld.potentialAction.value.urlTemplate == SiteUrl(r.slug) + "/menu"
      && OwnFleet in ld.potentialAction.value.deliveryMethod
      && (PickUp in ld.potentialAction.value.deliveryMethod <==> BoolTruthy(r.features.value.pickup))
      && ld.potentialAction.value.deliveryMethod == [OwnFleet] + (if BoolTruthy(r.features.value.pickup) then [PickUp] else [])
      && ld.potentialAction.value.actionPlatform == ["http://schema.org/DesktopWebPlatform", "http://schema.org/MobileWebPlatform"]
  {
    var action :=
      if r.features.Some? && BoolTruthy(r.features.value.delivery) then
        Some(OrderAction(
          SiteUrl(r.slug) + "/menu",
          ["http://schema.org/DesktopWebPlatform", "http://schema.org/MobileWebPlatform"],
          [OwnFleet] + (if BoolTruthy(r.features.value.pickup) then [PickUp] else [])))
      else None;
    RestaurantLd(
      r.name,
      OrElse(r.description, r.name + " - Tilaa verkossa tai syö paikan päällä"),
      SiteUrl(r.slug),
      OrElse(r.logo, "/logo.png"),
      OrElse(r.logo, "/logo.png"),
      r.phone,
      r.email,
      OrElse(r.priceRange, "€€"),
      ServesCuisine(r.features),
      PostalAddress(r.address, r.city, r.postalCode, "FI"),
      if r.openingHours.Some? then Some(OpenDays(r.openingHours.value)) else None,
      action)
  }

  // ---------------------------------------------------------------------------
  // Breadcrumbs and menu
  // ---------------------------------------------------------------------------

  datatype Crumb = Crumb(name: string, url: string)

  datatype ListItem = ListItem(position: int, name: string, item: string)

  /** `generateBreadcrumbStructuredData`: one list item per crumb, numbered from 1. */
  function BreadcrumbList(items: seq<Crumb>): (r: seq<ListItem>)
    ensures |r| == |items|
    ensures forall i | 0 <= i < |items| :: r[i] == ListItem(i + 1, items[i].name, items[i].url)
  {
    seq(|items|, i requires 0 <= i < |items| => ListItem(i + 1, items[i].name, items[i].url))
  }

  /** Positions are 1, 2, ... in order, so they are distinct and strictly increasing. */
  lemma BreadcrumbPositionsIncrease(items: seq<Crumb>)
    ensures forall i, j | 0 <= i < j < |items| :: BreadcrumbList(items)[i].position < BreadcrumbList(items)[j].position
    ensures |items| > 0 ==> BreadcrumbList(items)[|items| - 1].position == |items|
  {
  }

  datatype MenuEntry = MenuEntry(name: string, description: Option<string>, price: real, image: Option<string>,
                                 category: Option<string>)

  datatype MenuItemLd = MenuItemLd(name: string, description: Option<string>, price: string, priceCurrency: string,
                                   image: Option<string>)

  datatype MenuLd = MenuLd(name: string, sectionName: string, items: seq<MenuItemLd>)

  const MaxMenuItems: nat := 20

  /** `generateMenuStructuredData`: the first twenty items, in order, priced in euros;
      `fixed2` is `toFixed(2)`. */
  function MenuStructuredData(items: seq<MenuEntry>, restaurantName: string, fixed2: real -> string)
    : (r: MenuLd)
    ensures r.name == restaurantName + " Menu" && r.sectionName == "Menu Items"
    ensures |r.items| == if |items| < MaxMenuItems then |items| else MaxMenuItems
    ensures forall i | 0 <= i < |r.items| ::
      && r.items[i].name == items[i].name
      && r.items[i].description == items[i].description
      && r.items[i].price == fixed2(items[i].price)
      && r.items[i].priceCurrency == "EUR"
      && (r.items[i].image.Some? <==> StrTruthy(items[i].image))
      && (r.items[i].image.Some? ==> r.items[i].image == items[i].image)
  {
    var first := if |items| <= MaxMenuItems then items else items[..MaxMenuItems];
    MenuLd(restaurantName + " Menu", "Menu Items",
      seq(|first|, i requires 0 <= i < |first| =>
        MenuItemLd(first[i].name, first[i].description, fixed2(first[i].price), "EUR",
          if StrTruthy(first[i].image) then first[i].image else None)))
  }

  // ---------------------------------------------------------------------------
  // Sitemap
  // ---------------------------------------------------------------------------

  datatype Page = Page(path: string, priority: Option<real>, changeFreq: Option<string>, lastMod: Option<string>)

  /** The values one `<url>` element carries. `today` is the date part of the clock's ISO time. */
  datatype SitemapUrl = SitemapUrl(loc: string, lastmod: string, changefreq: string, priority: real)

  function UrlFor(baseUrl: string, page: Page, today: string): (u: SitemapUrl)
    ensures u.loc == baseUrl + page.path
    ensures u.lastmod == OrElse(page.lastMod, today)
    ensures u.changefreq == OrElse(page.changeFreq, "weekly")
    ensures u.priority == (if page.priority.Some? && page.priority.value != 0.0 then page.priority.value else 0.5)
  {
    SitemapUrl(baseUrl + page.path, OrElse(page.lastMod, today), OrElse(page.changeFreq, "weekly"),
               NumOrElse(page.priority, 0.5))
  }

  /** A priority of 0 is taken as missing. */
  lemma ZeroPriorityIsDefault(baseUrl: string, path: string, today: string)
    ensures UrlFor(baseUrl, Page(path, Some(0.0), None, None), today).priority == 0.5
    ensures UrlFor(baseUrl, Page(path, None, None, None), today) == SitemapUrl(baseUrl + path, today, "weekly", 0.5)
  {
  }

  /** The text of one `<url>` element; `show` is the number's text. */
  function UrlText(u: SitemapUrl, show: real -> string): (r: string)
    ensures var open := "\n  <url>\n    <loc>" + u.loc + "</loc>";
      |r| > |open| + 6 && r[..|open|] == open && r[|r| - 6..] == "</url>"
  {
    "\n  <url>\n    <loc>" + u.loc + "</loc>\n    <lastmod>" + u.lastmod + "</lastmod>\n    <changefreq>"
    + u.changefreq + "</changefreq>\n    <priority>" + show(u.priority) + "</priority>\n  </url>"
  }

  /** The `<url>` elements, one per page, in page order. */
  function UrlsText(baseUrl: string, pages: seq<Page>, today: string, show: real -> string): (r: string)
    ensures r == "" <==> pages == []
  {
    if pages == [] then "" else UrlText(UrlFor(baseUrl, pages[0], today), show) + UrlsText(baseUrl, pages[1..], today, show)
  }

  const SitemapHead: string := "<?xml version=\"1.0\" encoding=\"UTF-8\"?>\n<urlset xmlns=\"http://www.sitemaps.org/schemas/sitemap/0.9\">\n"
  const SitemapTail: string := "\n</urlset>"

  /** `generateSitemap`. */
  function Sitemap(baseUrl: string, pages: seq<Page>, today: string, show: real -> string): (r: string)
    ensures |r| >= |SitemapHead| + |SitemapTail|
    ensures r[..|SitemapHead|] == SitemapHead
    ensures r[|r| - |SitemapTail|..] == SitemapTail
    ensures r[|SitemapHead|..|r| - |SitemapTail|] == UrlsText(baseUrl, pages, today, show)
  {
    var body := UrlsText(baseUrl, pages, today, show);
    var r := SitemapHead + body + SitemapTail;
    assert r[..|SitemapHead|] == SitemapHead;
    assert r[|SitemapHead|..|r| - |SitemapTail|] == body;
    r
  }

  /** One element per page, in order: the elements of a concatenation of page lists are
      the elements of the first list followed by those of the second. */
  lemma {:induction false} UrlsTextAppend(baseUrl: string, a: seq<Page>, b: seq<Page>, today: string, show: real -> string)
    ensures UrlsText(baseUrl, a + b, today, show) == UrlsText(baseUrl, a, today, show) + UrlsText(baseUrl, b, today, show)
  {
    if a == [] {
      assert a + b == b;
    } else {
      var rest := a[1..];
      assert a + b == [a[0]] + (rest + b);
      UrlsTextCons(baseUrl, a[0], rest + b, today, show);
      UrlsTextAppend(baseUrl, rest, b, today, show);
      ConcatAssoc(UrlText(UrlFor(baseUrl, a[0], today), show), UrlsText(baseUrl, rest, today, show), UrlsText(baseUrl, b, today, show));
    }
  }

  lemma ConcatAssoc(x: string, y: string, z: string)
    ensures x + (y + z) == x + y + z
  {
  }

  /** A page in front of a list contributes its element in front of the others. */
  lemma UrlsTextCons(baseUrl: string, p: Page, rest: seq<Page>, today: string, show: real -> string)
    ensures UrlsText(baseUrl, [p] + rest, today, show) == UrlText(UrlFor(baseUrl, p, today), show) + UrlsText(baseUrl, rest, today, show)
  {
    assert ([p] + rest)[1..] == rest;
  }

  /** Each page contributes exactly its own element. */
  lemma UrlsTextSingle(baseUrl: string, p: Page, today: string, show: real -> string)
    ensures UrlsText(baseUrl, [p], today, show) == UrlText(UrlFor(baseUrl, p, today), show)
  {
    assert UrlsText(baseUrl, [p][1..], today, show) == "";
  }
}
