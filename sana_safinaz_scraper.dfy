/** The Sana Safinaz scraper's pure steps: which store and category pages it accepts,
    the product id it reads off a product URL, the image URLs it keeps from a product
    page, and the folder it saves a product under. The browser, the clock and the
    network are inputs. */
module SanaSafinazScraper {
  import opened Wrappers
  import opened Strings
  import DynamicScraper

  // ---------------------------------------------------------------------------
  // Stores and categories
  // ---------------------------------------------------------------------------

  /** One entry of `supported_stores`. */
  datatype StoreConfig = StoreConfig(
    baseUrl: string, productSelector: string, productLinkSelector: string,
    nameSelector: string, imageSelector: string, priceSelector: string,
    descriptionSelector: string, categories: map<string, string>)

  const SanaSafinaz := StoreConfig(
    "https://www.sanasafinaz.com/pk", "div.product-item-info", "a.product-item-link",
    "strong.product.name.product-item-name", "img.product-image-photo", "span.price",
    "div.product.attribute.description",
    map["ready-to-wear" := "/ready-to-wear.html", "unstitched" := "/unstitched.html", "bottoms" := "/bottoms.html"])

  const SupportedStores: map<string, StoreConfig> := map["sanasafinaz" := SanaSafinaz]

  /** The category page `scrape_store` opens, or None when it returns early because the
      store or the category is unknown (before any browser is started). */
  function StoreUrl(store: string, category: string): (url: Option<string>)
    ensures url.Some? <==>
      store == "sanasafinaz" && category in {"ready-to-wear", "unstitched", "bottoms"}
    ensures url.Some? ==> url.value == "https://www.sanasafinaz.com/pk/" + category + ".html"
  {
    if store !in SupportedStores then None
    else
      var config := SupportedStores[store];
      if category in config.categories then Some(config.baseUrl + config.categories[category])
      else None
  }

  // ---------------------------------------------------------------------------
  // Product ids
  // ---------------------------------------------------------------------------

  /** The last `c`-separated segment of `s` (`s.split(c)[-1]`): a suffix of `s`
      without `c`. */
  function LastSegment(s: string, c: char): (r: string)
    ensures c !in r && |r| <= |s|
  {
    var parts := Split(s, c);
    SplitLastIsSuffix(s, c);
    parts[|parts| - 1]
  }

  /** `_extract_product_id`: the last '/'-segment of the URL, up to its first '.'. The
      `if parts` test always holds, since a split is never empty, so the result is
      never None; it holds neither '/' nor '.'. */
  function ExtractProductId(url: string): (id: string)
    ensures '/' !in id && '.' !in id
    ensures |id| <= |url|
  {
    var filename := LastSegment(url, '/');
    var id := Split(filename, '.')[0];
    SplitFirstIsPrefix(filename, '.');
    assert '/' !in id by {
      forall k | 0 <= k < |id| ensures id[k] != '/' {
        assert id[k] == filename[k];
      }
    }
    id
  }

  /** The product id of `<base>/<id>.<extension>` is `id`, whatever the base. */
  lemma ProductIdOfPage(base: string, id: string, extension: string)
    requires '/' !in id && '.' !in id && '/' !in extension
    ensures ExtractProductId(base + "/" + id + "." + extension) == id
  {
    var file := id + "." + extension;
    assert base + "/" + id + "." + extension == base + ['/'] + file;
    SplitAround(base, file, '/');
    SplitNoSeparator(file, '/');
    assert file == id + ['.'] + extension;
    SplitAround(id, extension, '.');
    SplitNoSeparator(id, '.');
  }

  // ---------------------------------------------------------------------------
  // Image URLs
  // ---------------------------------------------------------------------------

  /** `url.split('?')[0]`. */
  function StripQuery(url: string): string {
    Split(url, '?')[0]
  }

  /** The test an image source must pass: present, not already in the list (compared
      before its query is stripped), and not a placeholder. */
  predicate Admitted(src: string, kept: seq<string>) {
    src != [] && src !in kept && !Contains(src, "placeholder")
  }

  /** The image URLs kept from a product page's image sources, in page order (an
      absent `src` is ""). */
  function ImageUrls(srcs: seq<string>): seq<string>
    decreases |srcs|
  {
    if srcs == [] then []
    else
      var kept := ImageUrls(srcs[..|srcs| - 1]);
      var src := srcs[|srcs| - 1];
      if Admitted(src, kept) then kept + [StripQuery(src)] else kept
  }

  /** Every kept URL has no query and does not mention a placeholder, and no more URLs
      are kept than there were sources. */
  lemma {:induction false} ImageUrlsSpec(srcs: seq<string>)
    ensures |ImageUrls(srcs)| <= |srcs|
    ensures forall u :: u in ImageUrls(srcs) ==> '?' !in u && !Contains(u, "placeholder")
    decreases |srcs|
  {
    if srcs != [] {
      var src := srcs[|srcs| - 1];
      ImageUrlsSpec(srcs[..|srcs| - 1]);
      var stripped := StripQuery(src);
      SplitFirstIsPrefix(src, '?');
      if Contains(stripped, "placeholder") {
        ContainsInPrefix(src, |stripped|, "placeholder");
      }
    }
  }

  /** Every kept URL is some source with its query stripped. */
  lemma {:induction false} ImageUrlsFromSources(srcs: seq<string>)
    ensures forall u :: u in ImageUrls(srcs) ==> exists k :: 0 <= k < |srcs| && u == StripQuery(srcs[k])
    decreases |srcs|
  {
    if srcs != [] {
      var init := srcs[..|srcs| - 1];
      var kept := ImageUrls(init);
      ImageUrlsFromSources(init);
      forall u | u in ImageUrls(srcs) ensures exists k :: 0 <= k < |srcs| && u == StripQuery(srcs[k]) {
        if u in kept {
          var k :| 0 <= k < |init| && u == StripQuery(init[k]);
          assert init[k] == srcs[k];
        } else {
          assert u == StripQuery(srcs[|srcs| - 1]);
        }
      }
    }
  }

  /** A present, non-placeholder source without a query is always among the kept
      URLs: either it passes the test and is kept as it is, or it was kept earlier. */
  lemma {:induction false} ImageUrlsKeepsPlainSources(srcs: seq<string>)
    ensures forall k :: 0 <= k < |srcs| && srcs[k] != [] && '?' !in srcs[k] && !Contains(srcs[k], "placeholder") ==>
      srcs[k] in ImageUrls(srcs)
    decreases |srcs|
  {
    if srcs != [] {
      var init := srcs[..|srcs| - 1];
      var kept := ImageUrls(init);
      var src := srcs[|srcs| - 1];
      ImageUrlsKeepsPlainSources(init);
      assert forall u :: u in kept ==> u in ImageUrls(srcs);
      forall k | 0 <= k < |srcs| && srcs[k] != [] && '?' !in srcs[k] && !Contains(srcs[k], "placeholder")
        ensures srcs[k] in ImageUrls(srcs)
      {
        if k < |init| {
          assert init[k] == srcs[k];
        } else if src !in kept {
          SplitNoSeparator(src, '?');
          assert StripQuery(src) == src;
        }
      }
    }
  }

  /** The duplicate test sees the raw source, so two sources differing only in their
      query both pass and leave the same URL twice. */
  lemma QueryVariantsKeptTwice()
    ensures ImageUrls(["a?1", "a?2"]) == ["a", "a"]
  {
    assert ["a?1", "a?2"][..1] == ["a?1"];
    assert ["a?1"][..0] == [];
    SplitQuery('1');
    SplitQuery('2');
  }

  /** `"a?<d>".split('?')` for a single character `d`. */
  lemma SplitQuery(d: char)
    requires d != '?'
    ensures Split(['a', '?', d], '?') == ["a", [d]]
  {
    var s := ['a', '?', d];
    assert [d][1..] == [];
    assert Split([d], '?') == [[d]];
    assert ['?', d][1..] == [d];
    assert Split(['?', d], '?') == [[], [d]];
    assert s[1..] == ['?', d];
    assert Split(s, '?') == [[s[0]] + Split(s[1..], '?')[0]] + Split(s[1..], '?')[1..];
    assert [s[0]] + Split(s[1..], '?')[0] == "a";
  }

  /** A source that starts with its query is kept as the empty URL. */
  lemma QueryOnlyKeptEmpty()
    ensures ImageUrls(["?v=1"]) == [""]
  {
    assert ["?v=1"][..0] == [];
    assert Split("?v=1", '?')[0] == [];
  }

  /** The image loop of `_extract_product_data`. */
  method ExtractImageUrls(srcs: seq<string>) returns (imageUrls: seq<string>)
    ensures imageUrls == ImageUrls(srcs)
  {
    imageUrls := [];
    var i := 0;
    while i < |srcs|
      invariant 0 <= i <= |srcs|
      invariant imageUrls == ImageUrls(srcs[..i])
    {
      var url := srcs[i];
      assert srcs[..i + 1][..i] == srcs[..i];
      if url != [] && url !in imageUrls && !Contains(url, "placeholder") {
        url := Split(url, '?')[0];
        imageUrls := imageUrls + [url];
      }
      i := i + 1;
    }
    assert srcs[..|srcs|] == srcs;
  }

  // ---------------------------------------------------------------------------
  // Product data
  // ---------------------------------------------------------------------------

  /** What a product page shows: the name element's text (None when waiting for it
      timed out), the current URL, the image sources, the price element's text (None
      on a timeout) and the clock's ISO timestamp. */
  datatype ProductPage = ProductPage(
    name: Option<string>, currentUrl: string, srcs: seq<string>,
    price: Option<string>, timestamp: string)

  /** The metadata dictionary: empty after a failed extraction. */
  datatype ProductMetadata =
    | EmptyMetadata
    | Metadata(name: string, url: string, price: string, timestamp: string, productId: string)

  datatype ProductData = ProductData(metadata: ProductMetadata, imageUrls: seq<string>)

  /** `_extract_product_data`: a missing name or price gives empty metadata and no
      images; otherwise the stripped name and price, the page's URL and timestamp, the
      product id and the kept image URLs. */
  function ExtractProductData(page: ProductPage): (data: ProductData)
    ensures page.name.None? || page.price.None? ==> data == ProductData(EmptyMetadata, [])
    ensures (page.name.Some? && page.price.Some?) ==>
      data.metadata.Metadata? && data.imageUrls == ImageUrls(page.srcs)
      && data.metadata.productId == ExtractProductId(page.currentUrl)
      && data.metadata.name == PyStrip(page.name.value) && data.metadata.price == PyStrip(page.price.value)
      && data.metadata.url == page.currentUrl && data.metadata.timestamp == page.timestamp
  {
    if page.name.None? || page.price.None? then ProductData(EmptyMetadata, [])
    else
      ProductData(
        Metadata(PyStrip(page.name.value), page.currentUrl, PyStrip(page.price.value), page.timestamp,
                 ExtractProductId(page.currentUrl)),
        ImageUrls(page.srcs))
  }

  /** The folder `_save_product_data` creates: `{product_id}_{name}` with the name
      sanitised, or None for empty metadata (its lookup of `product_id` fails and the
      error is caught). */
  function ProductFolder(data: ProductData): (folder: Option<string>)
    ensures folder.Some? <==> data.metadata.Metadata?
  {
    match data.metadata
    case EmptyMetadata => None
    case Metadata(name, _, _, _, productId) =>
      Some(productId + "_" + DynamicScraper.MakeValidFilename(name))
  }

  /** A saved product's folder is a single path component: it never holds '/'. */
  lemma ProductFolderIsOneComponent(page: ProductPage)
    requires ProductFolder(ExtractProductData(page)).Some?
    ensures '/' !in ProductFolder(ExtractProductData(page)).value
  {
    var data := ExtractProductData(page);
    DynamicScraper.FilenameChars(data.metadata.name);
    var folder := ProductFolder(data).value;
    var id := data.metadata.productId;
    var name := DynamicScraper.MakeValidFilename(data.metadata.name);
    assert folder == id + "_" + name;
    forall i | 0 <= i < |folder| ensures folder[i] != '/' {
      if i < |id| {
        assert folder[i] == id[i];
      } else if i > |id| {
        assert folder[i] == name[i - |id| - 1];
      }
    }
  }
}
