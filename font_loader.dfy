/** The Google Fonts loader of src/components/font-loader.tsx. */
module FontLoader {
  import opened Common
  import opened Text

  /** The three font slots of the theme; each may be missing. */
  datatype FontConfig = FontConfig(heading: Option<string>, body: Option<string>, display: Option<string>)

  /** Add a font to an insertion-ordered set. */
  function AddFont(fonts: seq<string>, f: string): (r: seq<string>)
    ensures f in fonts ==> r == fonts
    ensures f !in fonts ==> r == fonts + [f]
  {
    if f in fonts then fonts else fonts + [f]
  }

  predicate Distinct(fonts: seq<string>)
  {
    forall i, j | 0 <= i < j < |fonts| :: fonts[i] != fonts[j]
  }

  /** The first slot, counting heading 0, body 1 and display 2, that provides the font;
      3 when none does. */
  function SlotOf(c: FontConfig, f: string): nat
  {
    if StrTruthy(c.heading) && c.heading.value == f then 0
    else if StrTruthy(c.body) && c.body.value == f then 1
    else if StrTruthy(c.display) && c.display.value == f then 2
    else 3
  }

  /** The set of fonts to load, in heading, body, display order, each name once. */
  function FontsToLoad(c: FontConfig): (r: seq<string>)
    ensures Distinct(r)
    ensures forall i, j | 0 <= i < j < |r| :: SlotOf(c, r[i]) < SlotOf(c, r[j])
    ensures forall f :: f in r <==>
      || (StrTruthy(c.heading) && f == c.heading.value)
      || (StrTruthy(c.body) && f == c.body.value)
      || (StrTruthy(c.display) && f == c.display.value)
    ensures StrTruthy(c.heading) ==> |r| > 0 && r[0] == c.heading.value
    ensures |r| <= 3
  {
    var s1 := if StrTruthy(c.heading) then AddFont([], c.heading.value) else [];
    var s2 := if StrTruthy(c.body) then AddFont(s1, c.body.value) else s1;
    if StrTruthy(c.display) then AddFont(s2, c.display.value) else s2
  }

  const Weights: string := ":wght@300;400;500;600;700;800;900"
  const CssApi: string := "https://fonts.googleapis.com/css2?"
  const DisplaySwap: string := "&display=swap"

  /** The font name with every space turned into '+'. */
  function Plussed(font: string): (r: string)
    ensures ' ' !in r
    ensures ' ' !in font ==> r == font
  {
    ReplaceAllCharRemoves(font, ' ', "+");
    if ' ' in font then ReplaceAll(font, " ", "+")
    else
      FirstCharAbsent(font, "", " ");
      assert font + "" == font;
      ReplaceAllAbsent(font, " ", "+");
      ReplaceAll(font, " ", "+")
  }

  /** Each space becomes '+' in place: the word before the first space is kept, and the
      rest is converted the same way. */
  lemma PlussedSpace(a: string, b: string)
    requires ' ' !in a
    ensures Plussed(a + " " + b) == a + "+" + Plussed(b)
  {
    FirstCharAbsent(a, " " + b, " ");
    assert a + (" " + b) == a + " " + b;
    ReplaceAllAt(a, " ", "+", b);
  }

  /** One `family=` segment: the name with spaces as '+', then the weight list. */
  function FamilySegment(font: string): (r: string)
    ensures ' ' !in r
    ensures |r| == 7 + |Plussed(font)| + |Weights|
    ensures r[..7] == "family=" && r[7..7 + |Plussed(font)|] == Plussed(font) && r[7 + |Plussed(font)|..] == Weights
    ensures ' ' !in font ==> r == "family=" + font + Weights
  {
    var r := "family=" + Plussed(font) + Weights;
    assert r[7..7 + |Plussed(font)|] == Plussed(font);
    r
  }

  function Segments(fonts: seq<string>): (r: seq<string>)
    ensures |r| == |fonts|
    ensures forall i | 0 <= i < |fonts| :: r[i] == FamilySegment(fonts[i])
  {
    seq(|fonts|, i requires 0 <= i < |fonts| => FamilySegment(fonts[i]))
  }

  /** Joining texts without spaces by a separator without spaces gives no spaces. */
  lemma {:induction false} JoinNoSpace(parts: seq<string>, sep: string)
    requires ' ' !in sep
    requires forall i | 0 <= i < |parts| :: ' ' !in parts[i]
    ensures ' ' !in Join(parts, sep)
  {
    if |parts| > 1 {
      JoinNoSpace(parts[1..], sep);
    }
  }

  /** The stylesheet address for the given fonts. */
  function FontsUrl(fonts: seq<string>): (r: string)
    ensures ' ' !in r
    ensures |r| == |CssApi| + |Join(Segments(fonts), "&")| + |DisplaySwap|
    ensures r[..|CssApi|] == CssApi
    ensures r[|CssApi|..|r| - |DisplaySwap|] == Join(Segments(fonts), "&")
    ensures r[|r| - |DisplaySwap|..] == DisplaySwap
  {
    JoinNoSpace(Segments(fonts), "&");
    Pieces(CssApi, Join(Segments(fonts), "&"), DisplaySwap);
    CssApi + Join(Segments(fonts), "&") + DisplaySwap
  }

  /** A text made of three pieces is read back piece by piece. */
  lemma Pieces(x: string, y: string, z: string)
    ensures var r := x + y + z;
      && r[..|x|] == x && r[|x|..|r| - |z|] == y && r[|r| - |z|..] == z
      && (' ' !in x && ' ' !in y && ' ' !in z ==> ' ' !in r)
  {
    var r := x + y + z;
    assert r[..|x|] == x;
    assert r[|x|..|r| - |z|] == y;
  }

  /** A two-word family: its space becomes '+'. */
  lemma TwoWordSegment()
    ensures FamilySegment("Open Sans") == "family=" + "Open+Sans" + Weights
  {
    PlussedSpace("Open", "Sans");
    assert "Open" + " " + "Sans" == "Open Sans";
    assert "Open" + "+" + "Sans" == "Open+Sans";
  }

  /** Two segments are joined by a single '&'. */
  lemma JoinTwo(x: string, y: string)
    ensures Join([x, y], "&") == x + "&" + y
  {
    assert [x, y][1..] == [y];
  }

  /** Two families are joined by '&' between the API address and the display option. */
  lemma FontsUrlExample()
    ensures FontsUrl(["Open Sans", "Inter"])
      == CssApi + (("family=" + "Open+Sans" + Weights) + "&" + ("family=" + "Inter" + Weights)) + DisplaySwap
  {
    var fonts := ["Open Sans", "Inter"];
    TwoWordSegment();
    var first, second := FamilySegment("Open Sans"), FamilySegment("Inter");
    assert Segments(fonts) == [first, second];
    JoinTwo(first, second);
  }

  /** `"<font>", sans-serif`. */
  function FontVariable(font: string): string
  {
    "\"" + font + "\", sans-serif"
  }

  /** The custom properties the loader sets for a config: one per provided slot. */
  function SetVars(c: FontConfig): (r: set<string>)
    ensures "--font-heading" in r <==> StrTruthy(c.heading)
    ensures "--font-body" in r <==> StrTruthy(c.body)
    ensures "--font-display" in r <==> StrTruthy(c.display)
    ensures r <= {"--font-heading", "--font-body", "--font-display"}
  {
    (if StrTruthy(c.heading) then {"--font-heading"} else {})
    + (if StrTruthy(c.body) then {"--font-body"} else {})
    + (if StrTruthy(c.display) then {"--font-display"} else {})
  }

  /** The parts of the document the loader touches: the `google-fonts-link` element
      (its `href`, when present) and the custom properties on the root element. */
  class FontDocument {
    var link: Option<string>
    var cssVars: map<string, string>

    constructor (link: Option<string>, cssVars: map<string, string>)
      ensures this.link == link && this.cssVars == cssVars
    {
      this.link := link;
      this.cssVars := cssVars;
    }

    /** The effect body. Without a fonts config nothing changes. Otherwise the old link
        goes, a new one is added when there is a font to load, and each provided slot
        sets its variable. */
    method ApplyFonts(config: Option<FontConfig>)
      modifies this
      ensures config.None? ==> link == old(link) && cssVars == old(cssVars)
      ensures config.Some? && FontsToLoad(config.value) == [] ==> link.None? && cssVars == old(cssVars)
      ensures config.Some? && FontsToLoad(config.value) != [] ==>
        && link == Some(FontsUrl(FontsToLoad(config.value)))
        && (forall k | k in cssVars :: k in old(cssVars) || k in {"--font-heading", "--font-body", "--font-display"})
        && (forall k | k in cssVars :: k in old(cssVars) || k in SetVars(config.value))
        && (forall k | k in old(cssVars) && k !in SetVars(config.value) :: k in cssVars && cssVars[k] == old(cssVars)[k])
        && (StrTruthy(config.value.heading) ==> "--font-heading" in cssVars && cssVars["--font-heading"] == FontVariable(config.value.heading.value))
        && (StrTruthy(config.value.body) ==> "--font-body" in cssVars && cssVars["--font-body"] == FontVariable(config.value.body.value))
        && (StrTruthy(config.value.display) ==> "--font-display" in cssVars && cssVars["--font-display"] == FontVariable(config.value.display.value))
        && (!StrTruthy(config.value.heading) ==> ("--font-heading" in cssVars <==> "--font-heading" in old(cssVars)))
        && (!StrTruthy(config.value.body) ==> ("--font-body" in cssVars <==> "--font-body" in old(cssVars)))
        && (!StrTruthy(config.value.display) ==> ("--font-display" in cssVars <==> "--font-display" in old(cssVars)))
    {
      if config.None? {
        return;
      }
      var c := config.value;
      var fonts := FontsToLoad(c);
      link := None;
      if |fonts| == 0 {
        return;
      }
      link := Some(FontsUrl(fonts));
      if StrTruthy(c.heading) {
        cssVars := cssVars["--font-heading" := FontVariable(c.heading.value)];
      }
      if StrTruthy(c.body) {
        cssVars := cssVars["--font-body" := FontVariable(c.body.value)];
      }
      if StrTruthy(c.display) {
        cssVars := cssVars["--font-display" := FontVariable(c.display.value)];
      }
    }

    /** The effect's cleanup: the link goes. */
    method Cleanup()
      modifies this`link
      ensures link.None?
    {
      link := None;
    }
  }
}
