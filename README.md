# Restaurant ordering site — a Dafny model of its logic

This project models the decision logic of a restaurant's ordering web site: a
React front end plus a small Express mail endpoint. The modelled parts are:

- the discount rule for promotions and how the menu page picks and applies a promotion to each dish;
- the menu page's listing filters and category grouping;
- the ordering gate, which decides from the admin "open" flag, the busy flag and the branches whether the cart, checkout and item dialog may open;
- the shared restaurant-settings store, with its subscribers and realtime updates;
- the hero carousel that alternates the restaurant slide with the promotions;
- the accessibility helpers: ARIA attribute builders, roving tabindex and unique ids;
- grouping locations by region;
- the two mail routes: validating a single mail, and campaigns capped at 100 recipients;
- the e-mail marketing form, with template rendering and recipient choice;
- the SEO structured data and the sitemap;
- the font loader, the language context and the Stripe loader cache;
- the payment icon choice, the topping-group precedence and the PWA manifest;
- the page title and description set at start-up;
- the theme colours and the page layout variants.

Each source file is one Dafny module:

| module | file |
|---|---|
| `Common` | `common.dfy`: `Option` and JavaScript truthiness |
| `Text` | `text.dfy`: lower-casing, `replace`, `join`, decimal rendering, `split(...).pop()` |
| `Promotions` | `promotions.dfy` |
| `RestaurantSettings` | `settings.dfy` |
| `MenuPage` | `menu.dfy` |
| `HeroCarousel` | `hero.dfy` |
| `Accessibility` | `accessibility.dfy` |
| `Locations` | `locations.dfy` |
| `EmailEndpoint` | `email_endpoint.dfy` |
| `EmailMarketing` | `email_marketing.dfy` |
| `Seo` | `seo.dfy` |
| `FontLoader` | `font_loader.dfy` |
| `LanguageContext` | `language.dfy` |
| `StripeClient` | `stripe_client.dfy` |
| `PaymentIcons` | `payment_icons.dfy` |
| `ToppingGroups` | `topping_groups.dfy` |
| `Manifest` | `manifest.dfy` |
| `PageMeta` | `page_meta.dfy` |
| `ThemeColors` | `theme_colors.dfy` |
| `PageVariant` | `page_variant.dfy` |

Pure code (discount rule, filters, builders, structured data) is written as functions and lemmas. State the source changes in place is written as classes whose methods state the whole new state:

- the settings manager;
- the menu page's React state;
- the carousel;
- the roving tabindex;
- the id counter;
- the marketing form;
- the Stripe promise cache;
- the language provider;
- the document that the font loader and the page-meta code touch.

Loops in the source become methods with `while`/`for` loops, each proved against a specification function:

- notifying subscribers;
- grouping locations;
- grouping menu items by category;
- sending a campaign.

Anything outside the program — database queries, the clock, the mail transport, business-hours checks, number formatting, `loadStripe` — is a function parameter or an input value.

JavaScript truthiness is spelled out where the source relies on it:

- an empty string is false;
- zero is false, so a cap or minimum of `0` is ignored and a priority of `0` becomes `0.5`;
- `||` defaults behave as in JavaScript.

Prices are exact reals.

## Model

| member | source | states |
|---|---|---|
| Promotions.RawDiscount | src/hooks/use-promotions.ts:96-103 | a "percentage" promotion gives price × value / 100; any other type gives the value itself |
| Promotions.CalculateDiscount | src/hooks/use-promotions.ts:86-110 | below a truthy minimum with a truthy order total the discount is 0; otherwise it is at most the price, at most the raw discount and at most a truthy cap, and equals one of the three; with no cap and a raw discount within the price it is the raw discount |
| Promotions.DiscountWithinPrice | src/hooks/use-promotions.ts:86-110 | with a non-negative price, value and cap, the discount lies in [0, price] |
| Promotions.NoOrderTotalSkipsGate | src/hooks/use-promotions.ts:92-94 | without an order total the minimum-order gate never applies |
| Promotions.DiscountExamples | src/hooks/use-promotions.ts:86-110 | 20 % of 100 is 20; a cap of 10 limits it to 10; a fixed 100 on a 50 item gives 50; a 150 total below a 200 minimum gives 0 |
| RestaurantSettings.MergeConfig | src/hooks/use-restaurant-settings.ts:151-169 | no base configuration gives null; the three hour sets always go through the converter, given the row's column or nothing when the column or the row is missing; lunch-buffet hours from the row only when it has them; busy only when the row says `true`; name and open flag from the base |
| RestaurantSettings.EmptyRowMerged | src/hooks/use-restaurant-settings.ts:80-86 | the `{}` of a DELETE event, once stored, merges to converted empty hours, the base lunch hours, not busy and the base open flag, and reads as open |
| RestaurantSettings.IsOpen | src/hooks/use-restaurant-settings.ts:188 | closed exactly when the row says `is_open = false`; open with no row or no flag |
| RestaurantSettings.NoDuplicatesCons | src/hooks/use-restaurant-settings.ts:9 | prepending a new callback keeps the subscriber set free of duplicates |
| RestaurantSettings.Broadcast | src/hooks/use-restaurant-settings.ts:117-119 | one delivery per subscriber, in order, each carrying the same snapshot |
| RestaurantSettings.Remove | src/hooks/use-restaurant-settings.ts:35 | `Set.delete`: exactly the callback leaves, and the size drops by one iff it was present |
| RestaurantSettings.RestaurantSettingsManager.constructor | src/hooks/use-restaurant-settings.ts:7-12 | empty subscriber set, no channel, no snapshot, not initialised |
| RestaurantSettings.RestaurantSettingsManager.Subscribe | src/hooks/use-restaurant-settings.ts:21-32 | the callback is added once; initialisation starts iff the set now has one member and no channel exists; the snapshot is delivered at once iff initialised |
| RestaurantSettings.RestaurantSettingsManager.Unsubscribe | src/hooks/use-restaurant-settings.ts:34-41 | the callback is removed; when the set empties, the open channel is torn down and cleared; nothing else changes |
| RestaurantSettings.RestaurantSettingsManager.NotifySubscribers | src/hooks/use-restaurant-settings.ts:117-119 | the deliveries grow by exactly `Broadcast(subscribers, currentSettings)` |
| RestaurantSettings.RestaurantSettingsManager.CompleteInitialization | src/hooks/use-restaurant-settings.ts:44-94 | a loaded row replaces the snapshot, a failed fetch keeps it; the manager becomes initialised and notifies; on success a new channel opens and the channel counter advances by one, while a channel opened by an earlier initialisation is replaced without being closed; if opening fails it notifies a second time; an exception leaves the channel and the counter as they were |
| RestaurantSettings.RestaurantSettingsManager.OnRealtimeChange | src/hooks/use-restaurant-settings.ts:80-86 | an object payload, including the empty object of a DELETE event, replaces the snapshot and is broadcast; a missing or non-object payload changes nothing; events are accepted whether or not a channel is current, since a replaced channel stays open |
| RestaurantSettings.RestaurantSettingsManager.ForceRefresh | src/hooks/use-restaurant-settings.ts:97-115 | only a loaded row replaces the snapshot and notifies; errors leave everything unchanged |
| RestaurantSettings.SettingsRegistry.constructor | src/hooks/use-restaurant-settings.ts:8 | no instance yet |
| RestaurantSettings.SettingsRegistry.GetInstance | src/hooks/use-restaurant-settings.ts:14-19 | the first call creates a fresh empty manager; later calls return that same manager |
| MenuPage.Applicable | src/pages/menu.tsx:126-130 | keeps exactly the promotions whose category and branch match; the head is the first match in query order; empty iff none matches |
| MenuPage.ApplicableSorted | src/pages/menu.tsx:126-132 | filtering a list sorted by value descending keeps it sorted |
| MenuPage.BestPromotionIsLargest | src/pages/menu.tsx:132 | with query order by value descending, the promotion taken has the largest value of all matching ones |
| MenuPage.Round | src/pages/menu.tsx:141 | `Math.round`: the nearest integer, halves rounded up |
| MenuPage.RatioInUnit | src/pages/menu.tsx:141 | a discount within the price gives a ratio in (0, 1] |
| MenuPage.WithPromotion | src/pages/menu.tsx:125-148 | the item changes only in its promotion fields, and only when a promotion matches with a positive discount; it then carries the first matching promotion, the discount from the rule (0 < d ≤ price), price − d as promotional price and the percentage `Math.round(d / price · 100)`, which lies in 0..100 |
| MenuPage.PromotionApplies | src/pages/menu.tsx:127-129 | a promotion applies when its category is unset or the item's, and its branch is unset, no branch is chosen, or it is the chosen one |
| MenuPage.ItemsWithPromotions | src/pages/menu.tsx:123-150 | no items gives []; no promotions gives the items unchanged; otherwise item by item `WithPromotion`, with the length kept |
| MenuPage.PopularItems | src/pages/menu.tsx:233-237 | the first min(4, n) of the n qualifying items, in list order: available with a promotional or offer price |
| MenuPage.Popular | src/pages/menu.tsx:235 | an item is kept iff it is in the list, available and has a promotional or offer price |
| MenuPage.PopularAppend | src/pages/menu.tsx:235 | the qualifying items of a + b are those of a followed by those of b, so the list order is kept |
| MenuPage.LaterItemsDoNotDisplace | src/pages/menu.tsx:236 | once four qualifying items precede them, later items never change the strip |
| MenuPage.FindBranch | src/pages/menu.tsx:161 | `branches.find`: the first branch with that id, or none when no branch has it |
| MenuPage.Find | src/pages/menu.tsx:161 | the returned branch has the id and no earlier branch has it; none means no branch has it |
| MenuPage.FilteredItems | src/pages/menu.tsx:152-171 | an item is listed iff it is available and matches category, search and the branch rule; the order is kept |
| MenuPage.FilteredItemsAppend | src/pages/menu.tsx:152-171 | filtering a + b gives the filtered a followed by the filtered b, so the order is kept |
| MenuPage.MatchesSearch | src/pages/menu.tsx:153-155 | an empty term, or the term inside the lower-cased name or English name |
| MenuPage.MatchesBranch | src/pages/menu.tsx:157-170 | with no branch chosen: unbound items, or items of an existing branch that takes orders; with one chosen: unbound items or items of that branch |
| MenuPage.FilteredBranchRule | src/pages/menu.tsx:157-170 | with no branch chosen, a branch-bound item is listed only if its branch exists and takes orders; with a branch chosen, only unbound items or items of that branch are listed |
| MenuPage.InCategory | src/pages/menu.tsx:179 | exactly the items of that category; empty iff no item has it |
| MenuPage.ItemsByCategory | src/pages/menu.tsx:174-189 | no categories gives {}; one chosen category maps to all filtered items; with "all", each category with items maps to exactly its items and no other key appears |
| MenuPage.OrderingGate | src/pages/menu.tsx:81-101 | the admin open flag wins and closes the dialog; then busy blocks ordering; then the branches decide; with no branches ordering is open; whenever ordering is blocked the closed dialog is shown |
| MenuPage.UnavailableWhen | src/pages/menu.tsx:81-101 | ordering is unavailable iff not admin-open and either busy or there are branches and none is open |
| MenuPage.MenuState.constructor | src/pages/menu.tsx:67-75 | ordering available; every dialog closed; nothing selected |
| MenuPage.MenuState.CheckOrderingStatus | src/pages/menu.tsx:80-105 | the availability and closed-dialog flags become `OrderingGate` of the inputs |
| MenuPage.MenuState.HandleCartOpen | src/pages/menu.tsx:108-111 | while unavailable only the closed dialog opens; otherwise the cart opens |
| MenuPage.MenuState.HandleCartClose | src/pages/menu.tsx:113 | the cart is closed |
| MenuPage.MenuState.HandleCheckoutOpen | src/pages/menu.tsx:115-118 | while unavailable only the closed dialog opens; otherwise checkout opens |
| MenuPage.MenuState.HandleCheckoutClose | src/pages/menu.tsx:120 | checkout is closed |
| MenuPage.MenuState.HandleBackToCart | src/pages/menu.tsx:121 | checkout closes and the cart opens |
| MenuPage.MenuState.HandleItemClick | src/pages/menu.tsx:191-195 | while unavailable only the closed dialog opens; otherwise the item is selected and its dialog opens |
| MenuPage.MenuState.HandleAddToCart | src/pages/menu.tsx:197-201 | while unavailable nothing reaches the cart; otherwise exactly this request is added and the item dialog closes |
| HeroCarousel.Step | src/components/hero-video-with-promotions.tsx:36-51 | from the restaurant slide, go to promotion 0; from promotion i, go to i + 1, or back to the restaurant slide at index 0 after the last; an index shown is always in range |
| HeroCarousel.IterateInRange | src/components/hero-video-with-promotions.tsx:36-51 | after at least one tick, a shown promotion index is always in range |
| HeroCarousel.WalkPromotions | src/components/hero-video-with-promotions.tsx:38-45 | from promotion i, k ticks reach promotion i + k while it exists |
| HeroCarousel.ShowsEachPromotion | src/components/hero-video-with-promotions.tsx:30-55 | from the start, tick k shows promotion k − 1, so every promotion is shown |
| HeroCarousel.CycleReturnsToStart | src/components/hero-video-with-promotions.tsx:30-55 | with n promotions, n + 1 ticks return to the restaurant slide |
| HeroCarousel.IterateSplit | src/components/hero-video-with-promotions.tsx:36 | a + b ticks are a ticks followed by b ticks |
| HeroCarousel.Shown | src/components/hero-video-with-promotions.tsx:57 | the restaurant slide iff not in promotion mode; a shown promotion is `promotions[currentIndex]` |
| HeroCarousel.TickNeverEmpty | src/components/hero-video-with-promotions.tsx:57 | with promotions present, a tick never leads to a promotion slot without a promotion |
| HeroCarousel.DiscountLabel | src/components/hero-video-with-promotions.tsx:212-215 | the rendered value followed by '%' exactly for percentage promotions, by '€' otherwise |
| HeroCarousel.PromotionTitle | src/components/hero-video-with-promotions.tsx:204 | Finnish name in Finnish, English name otherwise |
| HeroCarousel.HeroRotation.constructor | src/components/hero-video-with-promotions.tsx:13-14 | restaurant slide, index 0, no timer |
| HeroCarousel.HeroRotation.SetPromotions | src/components/hero-video-with-promotions.tsx:30-34 | no promotions forces the restaurant slide, empties the list and stops the timer, keeping the index; otherwise the timer runs and the state is kept |
| HeroCarousel.HeroRotation.Tick | src/components/hero-video-with-promotions.tsx:36-51 | the state becomes `Step` of the old state |
| Accessibility.ButtonAriaProps | src/lib/accessibility.tsx:15-31 | `aria-label` always; every other attribute present iff its option is set or truthy, with the given value; no other keys |
| Accessibility.InputAriaProps | src/lib/accessibility.tsx:36-52 | `aria-label` always; required and invalid only when true; the error message only when invalid with an id; describedby and autocomplete when truthy; no other keys |
| Accessibility.DialogAriaProps | src/lib/accessibility.tsx:57-68 | role dialog, modal, labelledby always; describedby iff given; 3 or 4 keys |
| Accessibility.KeyboardDispatch | src/lib/accessibility.tsx:94-120 | a callback is called iff the key is Enter, Escape, an arrow or Tab, and it is the callback named after that key; only the vertical arrows prevent the default |
| Accessibility.NextIndex | src/lib/accessibility.tsx:143-183 | next and previous along the orientation step by one, wrapping when looping and clamping otherwise; Home gives 0; End gives count − 1; any other key gives no move |
| Accessibility.NextIndexInRange | src/lib/accessibility.tsx:155-183 | from an index in range, every move stays in range |
| Accessibility.CrossAxisIgnored | src/lib/accessibility.tsx:145-150 | arrows across the orientation do nothing |
| Accessibility.PressesAdvance | src/lib/accessibility.tsx:155-159 | k presses of "next" move k places while within the list |
| Accessibility.PressesSplit | src/lib/accessibility.tsx:155-159 | a + b presses equal a presses followed by b presses |
| Accessibility.LoopingCycle | src/lib/accessibility.tsx:155-159 | in a looping list, count presses of "next" return to the start |
| Accessibility.TabIndex | src/lib/accessibility.tsx:189 | 0 exactly for the active item, −1 for the others |
| Accessibility.SingleTabStop | src/lib/accessibility.tsx:188-189 | exactly one item, the active one, is a tab stop |
| Accessibility.RovingTabindex.constructor | src/lib/accessibility.tsx:139-141 | defaults: vertical, looping, index 0, no refs |
| Accessibility.RovingTabindex.FocusItem | src/lib/accessibility.tsx:169 | focus moves to the item's element only when it is registered |
| Accessibility.RovingTabindex.HandleKeyDown | src/lib/accessibility.tsx:143-185 | the index becomes `NextIndex` when a move exists, and that element gets focus; the default is prevented iff a key is handled; an index in range stays in range |
| Accessibility.RovingTabindex.RegisterRef | src/lib/accessibility.tsx:190-192 | the ref slot for that index is set and the others kept |
| Accessibility.RovingTabindex.OnFocus | src/lib/accessibility.tsx:194 | the focused item becomes active |
| Accessibility.IdFor | src/lib/accessibility.tsx:362 | the text after the last '-' is the counter in decimal |
| Accessibility.IdsDistinct | src/lib/accessibility.tsx:360-363 | ids with different counters differ, whatever the prefixes |
| Accessibility.IdGenerator.constructor | src/lib/accessibility.tsx:360 | counter 0, nothing issued |
| Accessibility.IdGenerator.GenerateId | src/lib/accessibility.tsx:361-363 | the counter is incremented first; the id is prefix-counter; it was never issued before |
| Locations.RegionKey | src/hooks/use-locations.ts:49 | the region when truthy, else the city |
| Locations.Grouped | src/hooks/use-locations.ts:48-55 | the `reduce`: each location appended to its key's list (stated by GroupedIsFilter and the lemmas below) |
| Locations.Filter | src/hooks/use-locations.ts:48-55 | only locations of that key, at most all of them; the order is stated by FilterAppend |
| Locations.FilterAppend | src/hooks/use-locations.ts:48-55 | filtering a + b gives the filtered a followed by the filtered b, so input order is kept within a group |
| Locations.GroupedIsFilter | src/hooks/use-locations.ts:48-55 | the grouped record has exactly the keys present, each mapped to its locations in order |
| Locations.FilterAbsent | src/hooks/use-locations.ts:48-55 | a key no location has collects nothing |
| Locations.FilterPresent | src/hooks/use-locations.ts:48-55 | a key some location has collects something |
| Locations.EveryRowInItsGroup | src/hooks/use-locations.ts:48-55 | no group is empty and every location sits in its own group |
| Locations.FilterContains | src/hooks/use-locations.ts:53 | each location is in its key's list |
| Locations.KeyOrder | src/hooks/use-locations.ts:50-52 | the keys in order of first appearance, each once |
| Locations.SumSizesSnoc | src/hooks/use-locations.ts:53 | appending a location adds one to the group sizes iff its key is counted |
| Locations.CountPreserved | src/hooks/use-locations.ts:48-55 | the group sizes add up to the number of locations |
| Locations.GroupKeysAreKeyOrder | src/hooks/use-locations.ts:48-55 | the record's keys are exactly the first-appearance keys |
| Locations.GroupByRegion | src/hooks/use-locations.ts:48-55 | the loop's result equals the grouping specification |
| EmailEndpoint.EmailRegexMeaning | api-example/email-endpoint.js:65 | the regex holds iff the address is a non-empty run without spaces or '@', then '@', a run, '.', and a run |
| EmailEndpoint.MatchesEmailRegex | api-example/email-endpoint.js:65 | `/^[^\s@]+@[^\s@]+\.[^\s@]+$/`: non-empty plain runs around an '@' and a later '.' |
| EmailEndpoint.ValidEmail | api-example/email-endpoint.js:65-66 | the same test in plain words: no whitespace, exactly one '@' and not first, and a '.' after it with text on both sides (equal to the regex by EmailRegexMeaning) |
| EmailEndpoint.SendEmail | api-example/email-endpoint.js:52-99 | a missing field gives 400; an invalid address gives 400; valid input gives 200 on delivery and 500 on a transport error; 200 only for a valid address; the reply-to defaults to the restaurant address |
| EmailEndpoint.CampaignRejection | api-example/email-endpoint.js:117-137 | the checks apply in order: a non-array or empty list, then a missing subject or content, then more than 100 recipients; acceptance means 1..100 recipients |
| EmailEndpoint.ResultFor | api-example/email-endpoint.js:156-174 | one result per address, successful iff the mail was sent |
| EmailEndpoint.CountSent | api-example/email-endpoint.js:177 | at most the number of results; zero iff no send succeeded; all iff every send succeeded |
| EmailEndpoint.CountFailed | api-example/email-endpoint.js:178 | at most the number of results; zero iff every send succeeded; all iff no send succeeded |
| EmailEndpoint.SentPlusFailed | api-example/email-endpoint.js:177-178 | sent plus failed is the number of recipients |
| EmailEndpoint.SendMarketingEmail | api-example/email-endpoint.js:112-196 | a rejected request gives 400 with its message; otherwise one mail per recipient in order, one result each, and the counts |
| EmailEndpoint.BatchLimitBoundary | api-example/email-endpoint.js:132-137 | 100 recipients pass and 101 are refused with the limit message |
| EmailMarketing.ContentHtml | src/components/email-marketing.tsx:182 | no newline remains; text without newlines is unchanged |
| EmailMarketing.ContentHtmlLineBreak | src/components/email-marketing.tsx:182 | every newline becomes `<br>` in place: the text before the first newline is kept and the rest is converted the same way |
| EmailMarketing.Render | src/components/email-marketing.tsx:180-186 | the seven substitutions in order: the four form fields at their first placeholder, the three restaurant facts at every placeholder (stated by the lemmas below) |
| EmailMarketing.LinkValue | src/components/email-marketing.tsx:183 | an empty link becomes "#" |
| EmailMarketing.NoBraceNoTag | src/components/email-marketing.tsx:180-186 | text without '{' contains none of the placeholders |
| EmailMarketing.RenderWithoutPlaceholders | src/components/email-marketing.tsx:180-186 | markup without placeholders is sent unchanged |
| EmailMarketing.RenderFillsTitle | src/components/email-marketing.tsx:180 | a single title placeholder is replaced by the title |
| EmailMarketing.SecondTitleKept | src/components/email-marketing.tsx:180 | the string replace fills only the first title placeholder; a second one stays |
| EmailMarketing.NameFilledEverywhere | src/components/email-marketing.tsx:184 | the global replace fills every restaurant-name placeholder |
| EmailMarketing.Emails | src/components/email-marketing.tsx:191 | the customers' addresses, in order |
| EmailMarketing.Selected | src/components/email-marketing.tsx:193-196 | exactly the ticked customers |
| EmailMarketing.SelectedAppend | src/components/email-marketing.tsx:193-196 | selecting from a + b gives the selection from a followed by that from b, so customer order is kept |
| EmailMarketing.Recipients | src/components/email-marketing.tsx:189-202 | never empty; without customer data, the test address; select-all gives every address; otherwise the ticked ones; the test address again when that is empty |
| EmailMarketing.EmailMarketingForm.constructor | src/components/email-marketing.tsx:138-146 | the promotional template and its subject; empty fields; select-all; not sending |
| EmailMarketing.EmailMarketingForm.HandleTemplateChange | src/components/email-marketing.tsx:157-160 | the template and its subject are set |
| EmailMarketing.EmailMarketingForm.HandleSendEmail | src/components/email-marketing.tsx:162-237 | without title or content only a warning toast; otherwise one request with the chosen recipients and the rendered HTML, sent iff the service says success; earlier toasts are kept and exactly one is added: "Emails Sent Successfully" with the recipient count on success, otherwise the destructive "Failed to Send Emails" with the service's error or its default, a thrown message, or "Unknown error" |
| EmailMarketing.EmailMarketingForm.ResetAfterSend | src/components/email-marketing.tsx:219-224 | title, content and link are cleared and the sent flag dropped |
| Seo.Capitalize | src/components/seo.tsx:43 | the first letter upper-cased and the rest unchanged |
| Seo.OpenDays | src/components/seo.tsx:38-47 | one entry per day not marked closed, and only such days |
| Seo.OpenDaysAppend | src/components/seo.tsx:38-47 | the day filter distributes over concatenation |
| Seo.ServesCuisine | src/components/seo.tsx:49-65 | Pizza iff pickup, Kebab iff dine-in, Finnish iff delivery or no flag at all, International iff no flag, and nothing else; in the order Finnish, Pizza, Kebab, International; never empty |
| Seo.SiteUrl | src/components/seo.tsx:59 | `https://`, then the slug or "ravintola", then `.plateos.fi` |
| Seo.RestaurantStructuredData | src/components/seo.tsx:37-92 | name, description fallback, logo and price defaults, Finnish postal address, cuisines, opening hours iff given; an order action iff delivery is on, with the menu URL, the desktop and mobile platforms, and own fleet followed by pick-up iff pickup is on |
| Seo.BreadcrumbList | src/components/seo.tsx:95-108 | one item per crumb with positions 1..n |
| Seo.BreadcrumbPositionsIncrease | src/components/seo.tsx:101-106 | positions strictly increase and end at n |
| Seo.MenuStructuredData | src/components/seo.tsx:111-143 | the menu is named after the restaurant and holds the first 20 items, each with its price and EUR |
| Seo.UrlFor | src/components/seo.tsx:256-263 | loc is base + path; lastmod defaults to today; changefreq defaults to weekly; a missing or zero priority becomes 0.5 |
| Seo.ZeroPriorityIsDefault | src/components/seo.tsx:262 | priority 0 is replaced by 0.5, like a missing one |
| Seo.Sitemap | src/components/seo.tsx:252-270 | the XML header, then the URL entries, then the closing tag |
| Seo.UrlsTextAppend | src/components/seo.tsx:256-264 | the entries of a + b are those of a followed by those of b |
| Seo.UrlText | src/components/seo.tsx:256-263 | a `<url>` element that opens with the page's `<loc>` and closes with `</url>` |
| Seo.UrlsText | src/components/seo.tsx:256-264 | empty iff there are no pages |
| Seo.UrlsTextSingle | src/components/seo.tsx:256-264 | one page gives its one entry |
| FontLoader.AddFont | src/components/font-loader.tsx:19-21 | `Set.add`: present fonts are kept, new ones are appended |
| FontLoader.FontsToLoad | src/components/font-loader.tsx:15-21 | distinct fonts, exactly the truthy slots, in heading, body, display order (each font at its first slot), at most three |
| FontLoader.FamilySegment | src/components/font-loader.tsx:33 | `family=`, the name with spaces as '+', then the weight list; no spaces remain |
| FontLoader.Plussed | src/components/font-loader.tsx:33 | no space remains; a space-free name is unchanged |
| FontLoader.PlussedSpace | src/components/font-loader.tsx:33 | each space becomes '+' in place, the words around it kept |
| FontLoader.TwoWordSegment | src/components/font-loader.tsx:33 | "Open Sans" gives `family=Open+Sans` and the weights |
| FontLoader.Segments | src/components/font-loader.tsx:32-33 | one segment per font, in order |
| FontLoader.JoinNoSpace | src/components/font-loader.tsx:32-34 | joining space-free parts with a space-free separator gives no space |
| FontLoader.FontsUrl | src/components/font-loader.tsx:36 | the css2 API address, the segments joined by '&', then `&display=swap`; no space anywhere |
| FontLoader.FontsUrlExample | src/components/font-loader.tsx:33-36 | two fonts give both segments joined by '&' between the API address and `&display=swap` |
| FontLoader.FontDocument.constructor | src/components/font-loader.tsx:24 | the given link and variables |
| FontLoader.FontDocument.ApplyFonts | src/components/font-loader.tsx:11-50 | no font config leaves the page alone; otherwise the old link goes; with fonts, a new link with `FontsUrl` and one variable per truthy slot, every other property kept with its value and no other property added |
| FontLoader.FontDocument.Cleanup | src/components/font-loader.tsx:52-57 | the link is removed |
| LanguageContext.ParseLanguage | src/lib/language-context.tsx:17-22 | a saved value is accepted iff it is one of the five codes, as that language |
| LanguageContext.CodeRoundTrip | src/lib/language-context.tsx:17-27 | a stored code reads back as its language |
| LanguageContext.Translate | src/lib/language-context.tsx:30-44 | the text for the current language when truthy, else the Finnish one |
| LanguageContext.LanguageProvider.constructor | src/lib/language-context.tsx:14 | Finnish, with the given storage |
| LanguageContext.LanguageProvider.LoadSaved | src/lib/language-context.tsx:16-23 | a valid saved code becomes the language; anything else keeps the current one |
| LanguageContext.LanguageProvider.SetLanguage | src/lib/language-context.tsx:25-28 | the language is set and stored under "language" |
| LanguageContext.PersistAcrossReload | src/lib/language-context.tsx:16-28 | a choice made before a reload is the language after it |
| StripeClient.StripeModule.constructor | src/lib/stripe-client.ts:3 | no cached promise |
| StripeClient.StripeModule.PublishableKey | src/lib/stripe-client.ts:5-9 | the environment key when truthy, else "" |
| StripeClient.StripeModule.KeyFor | src/lib/stripe-client.ts:12 | the argument when truthy, else the environment key |
| StripeClient.StripeModule.GetStripe | src/lib/stripe-client.ts:11-24 | no key gives a null result and leaves the cache; a cached promise is returned whatever the key; otherwise the loader starts once with that key and is cached |
| StripeClient.StripeModule.ResetStripe | src/lib/stripe-client.ts:27-29 | the cache is cleared |
| StripeClient.CacheScenario | src/lib/stripe-client.ts:11-29 | two calls share one loader even with different keys; after a reset a new loader starts |
| PaymentIcons.IconFor | src/components/payment-method-icons.tsx:93-121 | each lower-cased id maps to its icon; every unknown id gets the generic card |
| PaymentIcons.CaseInsensitive | src/components/payment-method-icons.tsx:94 | case does not matter |
| PaymentIcons.UnknownIsCard | src/components/payment-method-icons.tsx:118-119 | an unlisted id shows the same icon as "card" |
| ToppingGroups.QueryData | src/hooks/use-topping-groups.ts:11-13 | a falsy id gives no data, since the query is disabled; otherwise the fetched rows |
| ToppingGroups.ToppingGroupsForItem | src/hooks/use-topping-groups.ts:87-97 | non-empty item groups win with source "item"; otherwise the category groups, or [], with source "category" |
| Manifest.ShortName | src/lib/manifest-updater.ts:13 | the last space-separated word, or "Babylon" when it is empty or there is no name; never empty, no spaces |
| Manifest.ShortNameTrailingSpace | src/lib/manifest-updater.ts:13 | a name ending in a space gives "Babylon" |
| Manifest.ShortNameLastWord | src/lib/manifest-updater.ts:13 | "First Last" gives "Last" |
| Manifest.ShortNameOneWord | src/lib/manifest-updater.ts:13 | a one-word name is its own short name |
| Manifest.BuildManifest | src/lib/manifest-updater.ts:11-37 | name and description defaults, the short name, scope and start URL "/", standalone display, two icons |
| PageMeta.PageTitle | src/main.tsx:21 | exactly the name or "Restaurant", then " - ", then the tagline or "Order Online" |
| PageMeta.PageDescription | src/main.tsx:25-28 | the description or its default, then ". Call phone" when a phone is set, then ". street, postal code city" when a street is set |
| PageMeta.Usable | src/main.tsx:17 | the response is OK and its content type mentions `application/json` |
| PageMeta.JsText | src/main.tsx:27 | template-literal printing: the text itself, "undefined" for a missing field, "null" for a JSON null |
| PageMeta.DescriptionParts | src/main.tsx:25-27 | the description or its default first; "Call phone" second when a phone is set; the address line last when a street is set, with a missing postal code or city printed "undefined" and a JSON null printed "null" |
| PageMeta.DescriptionAlone | src/main.tsx:25-28 | with no phone and no street, the description is the first part alone |
| PageMeta.DescriptionWithPhone | src/main.tsx:25-28 | with a phone and no street, it is joined with ". Call phone" |
| PageMeta.DescriptionWithAddress | src/main.tsx:25-28 | with a street and no phone, the description, ". ", then "street, postal code city" |
| PageMeta.DescriptionWithPhoneAndAddress | src/main.tsx:25-28 | with a phone and a street, the description, ". Call phone", ". ", then the address line |
| PageMeta.DescriptionJoined | src/main.tsx:25-28 | the joined parts equal the written-out description: the description or its default, ". Call phone" iff a phone is set, ". street, postal code city" iff a street is set |
| PageMeta.DescriptionNullPostalCode | src/main.tsx:27-28 | a JSON-null postal code prints "null": "D. Call P. Katu 1, null Lahti" |
| PageMeta.PageDocument.constructor | src/main.tsx:7 | the given title and meta contents; no manifest |
| PageMeta.PageDocument.UpdatePageMeta | src/main.tsx:7-61 | a usable JSON reply sets the title, the existing meta tags and the manifest; otherwise the fallback title and nothing else |
| ThemeColors.ThemeColorValues | src/hooks/use-theme-colors.ts:6-27 | each colour is the theme's when truthy, else its default |
| ThemeColors.Gradient | src/hooks/use-theme-colors.ts:29-33 | each truthy argument is used; each missing one falls back to the theme's colour, then the default, in all four combinations |
| ThemeColors.PrimaryGradient | src/hooks/use-theme-colors.ts:35-37 | the gradient from the hook's primary to its secondary colour |
| ThemeColors.PrimaryIsDefaultGradient | src/hooks/use-theme-colors.ts:29-37 | the primary gradient is the gradient with no arguments, from primary to secondary |
| ThemeColors.ButtonStyleFor | src/hooks/use-theme-colors.ts:39-53 | the variant's colour; a gradient image only for the primary variant |
| ThemeColors.FontFamily | src/hooks/use-theme-colors.ts:55-58 | the theme's font of that kind when truthy, else Inter |
| ThemeColors.ThemedStylesAgreeWithHook | src/hooks/use-theme-colors.ts:65-68 | the standalone primary-button background is the hook's gradient with no explicit colours |
| ThemeColors.ThemedStylesFor | src/hooks/use-theme-colors.ts:65-94 | the hook's primary, secondary and accent colours, its primary gradient for button and text, white button text and the hook's fonts |
| PageVariant.VariantFor | src/hooks/use-page-variant.ts:11-27 | the configured variant when non-empty, else variant1 |
| PageVariant.OneVariantActive | src/hooks/use-page-variant.ts:35-38 | with known variant names, exactly one variant is active for a page |

## Left out

- I/O of every kind is represented by inputs. This covers the Supabase queries, the mail transport, `fetch`, `localStorage`, timers, and DOM look-ups and element creation.
- Several server-side parts of the promotion queries are inputs. These are the date filter and active flag, the `discount_value` ordering, and the hero query's limit of five.
- The business-hours predicates and the database-hours converter are parameters. Their files are not part of this model.
- Number formatting is a parameter. This covers `toFixed(2)`, `${value}` of a JavaScript number and `toISOString`.
- Floating point is left out; prices are exact reals.
- Lower- and upper-casing cover ASCII letters only. JavaScript's full Unicode case mapping is not modelled.
- MenuPage.WithPromotion: the strings from `toFixed(2)` are kept as the exact reals they format.
- MenuPage.WithPromotion: a non-numeric price that `parseFloat` would turn into NaN is not modelled.
- Promotions.DiscountWithinPrice requires a non-negative cap, because a negative cap yields a negative discount in the source as well.
- EmailMarketing.Render: `$` patterns in replacement strings of `String.replace` are not interpreted. The template HTML bodies are a parameter.
- EmailEndpoint.SendEmail: the `to` field is modelled as a string only; arrays of addresses are not modelled. The sender header is left out.
- EmailEndpoint.SendMarketingEmail: the outer 500 handler is not modelled, because nothing in the model can throw there.
- RestaurantSettings.RestaurantSettingsManager.OnRealtimeChange: only the payload's `new` field is modelled, as an optional row. Its JavaScript type test is reduced to "an object or not".
- Locations.GroupByRegion: object-key quirks are not modelled. These are a key equal to an inherited prototype name such as "constructor", and `Object.entries` putting integer-like keys first.
- HeroCarousel.HeroRotation.Tick: the carousel is modelled as one state step per tick. The source's state updaters and its effect re-run on every index change give the same sequence.
- The DOM-only accessibility hooks are not modelled: focus trap, restore focus, live-region announcer, `SkipLink`, `VisuallyHidden` and the focus styles. They hold no decision logic.
- The meta-tag effect of the `SEO` component and `useCanonicalUrl` are not modelled. They only write DOM attributes.
- The service-worker registration and the React root rendering in `main.tsx` are not modelled.
- `Blob`/object-URL creation for the manifest is not modelled; the manifest is kept as a value.
- JSX rendering and styling are not modelled.
