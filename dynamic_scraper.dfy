/** The generic store scraper's bookkeeping: the folder-name sanitiser (in both of its
    copies), the per-store CSS selectors, the numbering of products across result
    pages, and the image list recorded in each product's metadata. The browser, the
    network and the file system are inputs: which tiles a page shows, which image URLs
    a product page holds and which downloads succeed. */
module DynamicScraper {
  import opened Wrappers
  import opened Strings

  // ---------------------------------------------------------------------------
  // Folder names
  // ---------------------------------------------------------------------------

  /** `c.isalnum()`, on ASCII letters and digits. */
  predicate IsAlnum(c: char) {
    ('a' <= c <= 'z') || ('A' <= c <= 'Z') || ('0' <= c <= '9')
  }

  /** The characters the sanitiser keeps before stripping. */
  predicate Keep(c: char) {
    IsAlnum(c) || c == ' ' || c == '-' || c == '_'
  }

  /** The characters a sanitised name is made of. */
  predicate NameChar(c: char) {
    IsAlnum(c) || c == '-' || c == '_'
  }

  /** `make_valid_filename`: keep letters, digits, spaces, '-' and '_', strip the ends,
      then turn the remaining spaces into '_'. */
  function MakeValidFilename(s: string): (r: string)
    ensures |r| <= |s|
  {
    ReplaceChar(PyStrip(Filter(s, Keep)), ' ', '_')
  }

  /** A sanitised name is made only of letters, digits, '-' and '_': no space, no path
      separator, no dot. */
  lemma FilenameChars(s: string)
    ensures All(MakeValidFilename(s), NameChar)
  {
    var f := Filter(s, Keep);
    TrimKeepsAll(f, IsPySpace, Keep);
  }

  /** The sanitiser drops no letter or digit and keeps them in order: only spaces,
      '-', '_' and the characters it refuses are touched. */
  lemma FilenameKeepsAlnum(s: string)
    ensures Filter(MakeValidFilename(s), IsAlnum) == Filter(s, IsAlnum)
  {
    var f := Filter(s, Keep);
    FilterFilter(s, IsAlnum, Keep);
    FilterTrim(f, IsPySpace, IsAlnum);
    FilterReplaceChar(PyStrip(f), ' ', '_', IsAlnum);
  }

  /** A name already made of letters, digits, '-' and '_' is left as it is. */
  lemma FilenameKeepsNameChars(s: string)
    requires All(s, NameChar)
    ensures MakeValidFilename(s) == s
  {
    assert Filter(s, Keep) == s;
    TrimSpec(s, IsPySpace);
    assert PyStrip(s) == s;
    assert ReplaceChar(s, ' ', '_') == s;
  }

  /** Sanitising a sanitised name changes nothing. */
  lemma FilenameIdempotent(s: string)
    ensures MakeValidFilename(MakeValidFilename(s)) == MakeValidFilename(s)
  {
    FilenameChars(s);
    FilenameKeepsNameChars(MakeValidFilename(s));
  }

  /** The pieces `c if keep(c) else ""` that the base class joins. */
  function Pieces(s: string): seq<string> {
    seq(|s|, i requires 0 <= i < |s| => if Keep(s[i]) then [s[i]] else [])
  }

  /** The base class's `make_valid_filename`: the same rule, written as a join of
      one-character-or-empty pieces. */
  function BaseMakeValidFilename(s: string): string {
    ReplaceChar(PyStrip(Join(Pieces(s), [])), ' ', '_')
  }

  /** Joining the pieces is filtering. */
  lemma {:induction false} JoinPiecesIsFilter(s: string)
    ensures Join(Pieces(s), []) == Filter(s, Keep)
    decreases |s|
  {
    if s != [] {
      JoinPiecesIsFilter(s[1..]);
      assert Pieces(s)[1..] == Pieces(s[1..]);
      assert s == [s[0]] + s[1..];
      FilterAppend([s[0]], s[1..], Keep);
      assert Filter([s[0]], Keep) == Pieces(s)[0];
    }
  }

  /** Both copies of the sanitiser agree on every input. */
  lemma BaseAgrees(s: string)
    ensures BaseMakeValidFilename(s) == MakeValidFilename(s)
  {
    JoinPiecesIsFilter(s);
  }

  // ---------------------------------------------------------------------------
  // Selectors
  // ---------------------------------------------------------------------------

  /** The CSS selectors used on one store. */
  datatype Selectors = Selectors(
    productGrid: string, productName: string, productUrl: string,
    price: string, imageContainer: string, nextPage: string)

  const KhaadiSelectors := Selectors(
    "div.product-item-info", "a.product-item-link", "a.product-item-link",
    "span.price", "div.gallery-placeholder img.gallery-placeholder__image", "a.next")

  const DefaultSelectors := Selectors(
    "div.product-item-info", "h2.product.name a", "h2.product.name a",
    "span.price", ".MagicToolboxSelectorsContainer .mt-thumb-switcher", "li.pages-item-next a")

  /** `"khaadi" in self.domain`. */
  predicate IsKhaadi(domain: string) {
    Contains(domain, "khaadi")
  }

  /** `get_selectors`: the Khaadi set exactly for a Khaadi domain; every store shares
      the product grid and price selectors. */
  function GetSelectors(domain: string): (r: Selectors)
    ensures r == KhaadiSelectors <==> IsKhaadi(domain)
    ensures r == DefaultSelectors <==> !IsKhaadi(domain)
    ensures r.productGrid == "div.product-item-info" && r.price == "span.price"
  {
    if IsKhaadi(domain) then KhaadiSelectors else DefaultSelectors
  }

  /** The attribute the image URLs are read from: `src` on Khaadi, `href` elsewhere. */
  function ImageAttribute(domain: string): (r: string)
    ensures r == "src" <==> IsKhaadi(domain)
  {
    if IsKhaadi(domain) then "src" else "href"
  }

  // ---------------------------------------------------------------------------
  // Product numbering
  // ---------------------------------------------------------------------------

  const PageSize: nat := 36

  /** `((page-1)*36)+idx`. */
  function ProductNumber(page: nat, idx: nat): nat
    requires page >= 1
  {
    (page - 1) * PageSize + idx
  }

  /** With at most 36 tiles a page, different positions get different numbers. */
  lemma ProductNumberInjective(p1: nat, i1: nat, p2: nat, i2: nat)
    requires p1 >= 1 && p2 >= 1 && 1 <= i1 <= PageSize && 1 <= i2 <= PageSize
    requires ProductNumber(p1, i1) == ProductNumber(p2, i2)
    ensures p1 == p2 && i1 == i2
  {
  }

  /** The product's folder: `product_{number}_{make_valid_filename(name)}`. */
  function ProductFolder(number: nat, name: string): string {
    "product_" + NatToString(number) + "_" + MakeValidFilename(name)
  }

  /** The folder name gives back the product number and the sanitised name: the number's
      digits end at the first '_' after the prefix. */
  lemma ProductFolderInjective(n1: nat, name1: string, n2: nat, name2: string)
    requires ProductFolder(n1, name1) == ProductFolder(n2, name2)
    ensures n1 == n2 && MakeValidFilename(name1) == MakeValidFilename(name2)
  {
    var f := ProductFolder(n1, name1);
    var tail1 := NatToString(n1) + "_" + MakeValidFilename(name1);
    var tail2 := NatToString(n2) + "_" + MakeValidFilename(name2);
    assert f == "product_" + tail1 == "product_" + tail2;
    assert tail1 == f[8..] == tail2;
    DigitsBeforeMark(NatToString(n1), MakeValidFilename(name1), NatToString(n2), MakeValidFilename(name2), '_');
    NatToStringInjective(n1, n2);
  }

  /** A product whose tile could be read: its number and its name. */
  datatype Product = Product(number: nat, name: string)

  /** The products of one result page: `tiles[k]` is the name read from the (k+1)-th
      tile, or None when reading its name or link threw (it is skipped, but still
      counted by `enumerate`). */
  function PageProducts(page: nat, tiles: seq<Option<string>>): seq<Product>
    requires page >= 1
    decreases |tiles|
  {
    if tiles == [] then []
    else
      var last := tiles[|tiles| - 1];
      PageProducts(page, tiles[..|tiles| - 1])
      + (if last.Some? then [Product(ProductNumber(page, |tiles|), last.value)] else [])
  }

  /** The products of the pages visited, in order. */
  function Listing(pages: seq<seq<Option<string>>>): seq<Product>
    decreases |pages|
  {
    if pages == [] then []
    else Listing(pages[..|pages| - 1]) + PageProducts(|pages|, pages[|pages| - 1])
  }

  /** Numbers strictly increase along the sequence. */
  predicate Increasing(products: seq<Product>) {
    forall i, j :: 0 <= i < j < |products| ==> products[i].number < products[j].number
  }

  /** A page's numbers increase and lie in `(page-1)*36+1 .. (page-1)*36+|tiles|`. */
  lemma {:induction false} PageProductsIncrease(page: nat, tiles: seq<Option<string>>)
    requires page >= 1
    ensures Increasing(PageProducts(page, tiles))
    ensures forall p :: p in PageProducts(page, tiles) ==>
      (page - 1) * PageSize < p.number <= (page - 1) * PageSize + |tiles|
    decreases |tiles|
  {
    if tiles != [] {
      PageProductsIncrease(page, tiles[..|tiles| - 1]);
    }
  }

  /** When no page shows more than 36 tiles, the numbers increase across the whole
      run and stay within `36 * |pages|`. */
  lemma {:induction false} ListingIncreases(pages: seq<seq<Option<string>>>)
    requires forall k :: 0 <= k < |pages| ==> |pages[k]| <= PageSize
    ensures Increasing(Listing(pages))
    ensures forall p :: p in Listing(pages) ==> 0 < p.number <= |pages| * PageSize
    decreases |pages|
  {
    if pages != [] {
      var n := |pages|;
      var before := Listing(pages[..n - 1]);
      var page := PageProducts(n, pages[n - 1]);
      ListingIncreases(pages[..n - 1]);
      PageProductsIncrease(n, pages[n - 1]);
      var all := before + page;
      forall i, j | 0 <= i < j < |all| ensures all[i].number < all[j].number {
        if j >= |before| && i < |before| {
          assert all[i] in before && all[j] in page;
        } else if i >= |before| {
          assert all[i] == page[i - |before|] && all[j] == page[j - |before|];
        }
      }
      forall p | p in all ensures 0 < p.number <= n * PageSize {
        if p in page {
          assert (n - 1) * PageSize + |pages[n - 1]| <= n * PageSize;
        }
      }
    }
  }

  /** The folders created for a listing. */
  function Folders(products: seq<Product>): seq<string> {
    seq(|products|, i requires 0 <= i < |products| => ProductFolder(products[i].number, products[i].name))
  }

  /** When no page shows more than 36 tiles, every product gets a folder of its own:
      no product's files overwrite another's. */
  lemma FoldersDistinct(pages: seq<seq<Option<string>>>)
    requires forall k :: 0 <= k < |pages| ==> |pages[k]| <= PageSize
    ensures var folders := Folders(Listing(pages));
      forall i, j :: 0 <= i < j < |folders| ==> folders[i] != folders[j]
  {
    var products := Listing(pages);
    ListingIncreases(pages);
    forall i, j | 0 <= i < j < |products|
      ensures ProductFolder(products[i].number, products[i].name) != ProductFolder(products[j].number, products[j].name)
    {
      if ProductFolder(products[i].number, products[i].name) == ProductFolder(products[j].number, products[j].name) {
        ProductFolderInjective(products[i].number, products[i].name, products[j].number, products[j].name);
      }
    }
  }

  /** The folders of a listing split along a concatenation. */
  lemma FoldersAppend(a: seq<Product>, b: seq<Product>)
    ensures Folders(a + b) == Folders(a) + Folders(b)
  {
  }

  /** The tile loop of `scrape_products` on one result page. */
  method ScrapePage(page: nat, tiles: seq<Option<string>>) returns (folders: seq<string>)
    requires page >= 1
    ensures folders == Folders(PageProducts(page, tiles))
  {
    folders := [];
    var idx := 1;
    while idx <= |tiles|
      invariant 1 <= idx <= |tiles| + 1
      invariant folders == Folders(PageProducts(page, tiles[..idx - 1]))
    {
      ghost var done := PageProducts(page, tiles[..idx - 1]);
      assert tiles[..idx][..idx - 1] == tiles[..idx - 1];
      if tiles[idx - 1].Some? {
        var name := tiles[idx - 1].value;
        var productId := "product_" + NatToString((page - 1) * 36 + idx);
        var folder := productId + "_" + MakeValidFilename(name);
        assert folder == ProductFolder(ProductNumber(page, idx), name);
        assert PageProducts(page, tiles[..idx]) == done + [Product(ProductNumber(page, idx), name)];
        FoldersAppend(done, [Product(ProductNumber(page, idx), name)]);
        folders := folders + [folder];
      } else {
        assert PageProducts(page, tiles[..idx]) == done;
      }
      idx := idx + 1;
    }
    assert tiles[..|tiles|] == tiles;
  }

  /** `scrape_products`: page after page, the folder of every tile whose name and link
      could be read. */
  method ScrapeProducts(pages: seq<seq<Option<string>>>) returns (folders: seq<string>)
    ensures folders == Folders(Listing(pages))
  {
    folders := [];
    var page := 1;
    while page <= |pages|
      invariant 1 <= page <= |pages| + 1
      invariant folders == Folders(Listing(pages[..page - 1]))
    {
      var pageFolders := ScrapePage(page, pages[page - 1]);
      assert pages[..page][..page - 1] == pages[..page - 1];
      FoldersAppend(Listing(pages[..page - 1]), PageProducts(page, pages[page - 1]));
      folders := folders + pageFolders;
      page := page + 1;
    }
    assert pages[..|pages|] == pages;
  }

  // ---------------------------------------------------------------------------
  // Product details
  // ---------------------------------------------------------------------------

  /** The metadata file written for a product. */
  datatype Metadata = Metadata(name: string, url: string, images: seq<string>, price: string)

  /** `image_{idx}.jpg`. */
  function ImageFileName(idx: nat): string {
    "image_" + NatToString(idx) + ".jpg"
  }

  /** Different positions name different files. */
  lemma ImageFileNameInjective(i: nat, j: nat)
    requires ImageFileName(i) == ImageFileName(j)
    ensures i == j
  {
    var f := ImageFileName(i);
    var tail1 := NatToString(i) + ".jpg";
    var tail2 := NatToString(j) + ".jpg";
    assert f == "image_" + tail1 == "image_" + tail2;
    assert tail1 == f[6..] == tail2;
    assert tail1 == NatToString(i) + ['.'] + "jpg";
    assert tail2 == NatToString(j) + ['.'] + "jpg";
    DigitsBeforeMark(NatToString(i), "jpg", NatToString(j), "jpg", '.');
    NatToStringInjective(i, j);
  }

  /** The positions (counted from 1) whose URL is non-empty and whose download
      succeeded; `downloaded[k]` is what `download_image` returns for the (k+1)-th URL. */
  function KeptPositions(urls: seq<string>, downloaded: seq<bool>): seq<nat>
    requires |downloaded| == |urls|
    decreases |urls|
  {
    if urls == [] then []
    else
      var n := |urls|;
      KeptPositions(urls[..n - 1], downloaded[..n - 1])
      + (if urls[n - 1] != [] && downloaded[n - 1] then [n] else [])
  }

  /** Kept positions increase, and a position is kept exactly when its URL is non-empty
      and its download succeeded. */
  lemma {:induction false} KeptPositionsSpec(urls: seq<string>, downloaded: seq<bool>)
    requires |downloaded| == |urls|
    ensures forall i, j :: 0 <= i < j < |KeptPositions(urls, downloaded)| ==>
      KeptPositions(urls, downloaded)[i] < KeptPositions(urls, downloaded)[j]
    ensures forall k :: k in KeptPositions(urls, downloaded) ==> 1 <= k <= |urls|
    ensures forall k :: 1 <= k <= |urls| ==>
      (k in KeptPositions(urls, downloaded) <==> urls[k - 1] != [] && downloaded[k - 1])
    decreases |urls|
  {
    if urls != [] {
      var n := |urls|;
      var urls', downloaded' := urls[..n - 1], downloaded[..n - 1];
      KeptPositionsSpec(urls', downloaded');
      var before := KeptPositions(urls', downloaded');
      var kept := KeptPositions(urls, downloaded);
      assert kept == before + (if urls[n - 1] != [] && downloaded[n - 1] then [n] else []);
      forall i, j | 0 <= i < j < |kept| ensures kept[i] < kept[j] {
        if j >= |before| {
          assert kept[i] in before;
        }
      }
      forall k | 1 <= k < n
        ensures k in kept <==> urls[k - 1] != [] && downloaded[k - 1]
      {
        assert urls'[k - 1] == urls[k - 1] && downloaded'[k - 1] == downloaded[k - 1];
      }
    }
  }

  /** The `images` list of the metadata. */
  function KeptImages(urls: seq<string>, downloaded: seq<bool>): seq<string>
    requires |downloaded| == |urls|
  {
    var kept := KeptPositions(urls, downloaded);
    seq(|kept|, i requires 0 <= i < |kept| => ImageFileName(kept[i]))
  }

  /** The metadata lists `image_{k}.jpg` exactly for the positions with a non-empty URL
      and a successful download, each once, in increasing position order. */
  lemma KeptImagesSpec(urls: seq<string>, downloaded: seq<bool>)
    requires |downloaded| == |urls|
    ensures var images := KeptImages(urls, downloaded);
      |images| <= |urls|
      && (forall k :: 1 <= k <= |urls| ==>
            (ImageFileName(k) in images <==> urls[k - 1] != [] && downloaded[k - 1]))
      && (forall i, j :: 0 <= i < j < |images| ==> images[i] != images[j])
  {
    var kept := KeptPositions(urls, downloaded);
    var images := KeptImages(urls, downloaded);
    KeptPositionsSpec(urls, downloaded);
    forall k | 1 <= k <= |urls| && ImageFileName(k) in images
      ensures k in kept
    {
      var i :| 0 <= i < |images| && images[i] == ImageFileName(k);
      ImageFileNameInjective(kept[i], k);
    }
    forall k | 1 <= k <= |urls| && k in kept
      ensures ImageFileName(k) in images
    {
      var i :| 0 <= i < |kept| && kept[i] == k;
      assert images[i] == ImageFileName(k);
    }
    forall i, j | 0 <= i < j < |images| ensures images[i] != images[j] {
      if images[i] == images[j] {
        ImageFileNameInjective(kept[i], kept[j]);
      }
    }
    PositionsBound(kept, |urls|);
  }

  /** A strictly increasing sequence of positions in `1..n` has at most `n` entries. */
  lemma {:induction false} PositionsBound(kept: seq<nat>, n: nat)
    requires forall i, j :: 0 <= i < j < |kept| ==> kept[i] < kept[j]
    requires forall k :: k in kept ==> 1 <= k <= n
    ensures |kept| <= n
    decreases n
  {
    if kept != [] {
      var last := kept[|kept| - 1];
      assert last in kept;
      var init := kept[..|kept| - 1];
      forall k | k in init ensures 1 <= k <= n - 1 {
        var i :| 0 <= i < |init| && init[i] == k;
        assert init[i] == kept[i] && kept[i] in kept && kept[i] < last;
      }
      PositionsBound(init, n - 1);
    }
  }

  const NoPrice := "N/A"

  /** The recorded price: the price element's stripped text, or "N/A" when the page has
      none. */
  function PriceText(found: Option<string>): (r: string)
    ensures found.None? ==> r == NoPrice
    ensures found.Some? ==> r == PyStrip(found.value) && |r| <= |found.value|
  {
    if found.Some? then PyStrip(found.value) else NoPrice
  }

  /** `scrape_product_details`: the price, then the image downloads in order, recording
      each one that succeeded. */
  method ScrapeProductDetails(name: string, url: string, price: Option<string>,
                              imageUrls: seq<string>, downloaded: seq<bool>)
    returns (metadata: Metadata)
    requires |downloaded| == |imageUrls|
    ensures metadata == Metadata(name, url, KeptImages(imageUrls, downloaded), PriceText(price))
  {
    metadata := Metadata(name, url, [], []);
    if price.Some? {
      metadata := metadata.(price := PyStrip(price.value));
    } else {
      metadata := metadata.(price := NoPrice);
    }
    var idx := 1;
    while idx <= |imageUrls|
      invariant 1 <= idx <= |imageUrls| + 1
      invariant metadata == Metadata(name, url, KeptImages(imageUrls[..idx - 1], downloaded[..idx - 1]), PriceText(price))
    {
      assert imageUrls[..idx][..idx - 1] == imageUrls[..idx - 1];
      assert downloaded[..idx][..idx - 1] == downloaded[..idx - 1];
      if imageUrls[idx - 1] != [] && downloaded[idx - 1] {
        metadata := metadata.(images := metadata.images + [ImageFileName(idx)]);
      }
      idx := idx + 1;
    }
    assert imageUrls[..|imageUrls|] == imageUrls;
    assert downloaded[..|downloaded|] == downloaded;
  }
}
