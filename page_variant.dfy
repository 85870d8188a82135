/** The layout-variant lookup of src/hooks/use-page-variant.ts. */
module PageVariant {
  import opened Common

  datatype PageType = Home | Menu | About | Header | Footer | Cart | Checkout

  /** `usePageVariant(page)`: the configured entry when it is non-empty, `variant1`
      otherwise (the value is not checked against the three known variants). */
  function VariantFor(variants: Option<map<PageType, string>>, page: PageType): (r: string)
    ensures r != ""
    ensures variants.None? ==> r == "variant1"
    ensures variants.Some? && page in variants.value && variants.value[page] != "" ==> r == variants.value[page]
    ensures variants.Some? && (page !in variants.value || variants.value[page] == "") ==> r == "variant1"
  {
    if variants.Some? && page in variants.value && variants.value[page] != "" then variants.value[page]
    else "variant1"
  }

  /** `useIsVariant(page, variant)`. */
  predicate IsVariant(variants: Option<map<PageType, string>>, page: PageType, variant: string)
  {
    VariantFor(variants, page) == variant
  }

  /** Exactly one of the known variants is active for a page when the entry is one of them or missing. */
  lemma OneVariantActive(variants: Option<map<PageType, string>>, page: PageType)
    requires variants.Some? && page in variants.value ==> variants.value[page] in {"", "variant1", "variant2", "variant3"}
    ensures IsVariant(variants, page, "variant1") || IsVariant(variants, page, "variant2") || IsVariant(variants, page, "variant3")
    ensures !(IsVariant(variants, page, "variant1") && IsVariant(variants, page, "variant2"))
  {
  }
}
