/**
 * The product details view: the gallery it builds (main image first, then
 * the product's extra images, duplicates by url removed keeping the first
 * occurrence) and the text labels with their fallbacks.
 */
module ProductDetails {
  import opened Common
  import opened ProductSlice

  const ImageBase := "https://admin.refabry.com/storage/product/"

  /** One gallery entry. */
  datatype GalleryImage = GalleryImage(id: int, url: string)

  function ImageUrl(name: string): (url: string)
    ensures |url| == |ImageBase| + |name| && url[..|ImageBase|] == ImageBase && url[|ImageBase|..] == name
  {
    ImageBase + name
  }

  /** Different file names give different urls. */
  lemma ImageUrlInjective(a: string, b: string)
    requires ImageUrl(a) == ImageUrl(b)
    ensures a == b
  {
    assert a == ImageUrl(a)[|ImageBase|..];
  }

  /**
   * productImages: the main image with id 1, then one entry per
   * `product_images` element (none when the field is absent).
   */
  function ProductImages(p: Product): (r: seq<GalleryImage>)
    ensures |r| >= 1 && r[0] == GalleryImage(1, ImageUrl(p.image))
    ensures p.productImages.None? ==> |r| == 1
    ensures p.productImages.Some? ==>
      var extra := p.productImages.value;
      |r| == 1 + |extra| && forall i :: 0 <= i < |extra| ==> r[i + 1] == GalleryImage(extra[i].id, ImageUrl(extra[i].name))
  {
    var extra := if p.productImages.Some? then p.productImages.value else [];
    [GalleryImage(1, ImageUrl(p.image))]
      + seq(|extra|, i requires 0 <= i < |extra| => GalleryImage(extra[i].id, ImageUrl(extra[i].name)))
  }

  /** `self.findIndex(t => t.url === url)`: the first position with that url, or -1. */
  function FirstUrlIndex(images: seq<GalleryImage>, url: string): (k: int)
    ensures -1 <= k < |images|
    ensures k >= 0 ==> images[k].url == url && forall j :: 0 <= j < k ==> images[j].url != url
    ensures k == -1 <==> forall j :: 0 <= j < |images| ==> images[j].url != url
  {
    if images == [] then -1
    else if images[0].url == url then 0
    else
      var k := FirstUrlIndex(images[1..], url);
      if k == -1 then -1 else k + 1
  }

  /** Position `i` holds the first occurrence of its url. */
  predicate IsFirstOccurrence(images: seq<GalleryImage>, i: nat) {
    i < |images| && FirstUrlIndex(images, images[i].url) == i
  }

  /** The filter of uniqueImages applied to the first `n` positions. */
  function KeepFirst(images: seq<GalleryImage>, n: nat): (r: seq<GalleryImage>)
    requires n <= |images|
    ensures |r| <= n
  {
    if n == 0 then []
    else
      var init := KeepFirst(images, n - 1);
      if IsFirstOccurrence(images, n - 1) then init + [images[n - 1]] else init
  }

  /** The positions KeepFirst keeps. */
  function KeptPositions(images: seq<GalleryImage>, n: nat): seq<nat>
    requires n <= |images|
  {
    if n == 0 then []
    else if IsFirstOccurrence(images, n - 1) then KeptPositions(images, n - 1) + [n - 1]
    else KeptPositions(images, n - 1)
  }

  /** One step of KeepFirst and KeptPositions: both grow together, or neither does. */
  lemma KeptPositionsStep(images: seq<GalleryImage>, n: nat)
    requires 0 < n <= |images|
    ensures var r0, idx0 := KeepFirst(images, n - 1), KeptPositions(images, n - 1);
      || (KeepFirst(images, n) == r0 + [images[n - 1]] && KeptPositions(images, n) == idx0 + [n - 1])
      || (KeepFirst(images, n) == r0 && KeptPositions(images, n) == idx0)
  {
  }

  /** The kept positions pick out KeepFirst's entries, in order. */
  lemma {:induction false} KeptPositionsEmbed(images: seq<GalleryImage>, n: nat)
    requires n <= |images|
    ensures Embeds(KeepFirst(images, n), images, KeptPositions(images, n))
    ensures forall i :: 0 <= i < |KeptPositions(images, n)| ==> KeptPositions(images, n)[i] < n
  {
    if n > 0 {
      KeptPositionsEmbed(images, n - 1);
      var r0, idx0 := KeepFirst(images, n - 1), KeptPositions(images, n - 1);
      KeptPositionsStep(images, n);
      EmbedsStep(r0, images, idx0, KeepFirst(images, n), KeptPositions(images, n), n - 1);
    }
  }

  /** Every kept position holds the first occurrence of its url. */
  lemma {:induction false} KeptPositionsAreFirsts(images: seq<GalleryImage>, n: nat)
    requires n <= |images|
    ensures forall i :: 0 <= i < |KeptPositions(images, n)| ==> IsFirstOccurrence(images, KeptPositions(images, n)[i])
  {
    if n > 0 {
      KeptPositionsAreFirsts(images, n - 1);
      var idx0 := KeptPositions(images, n - 1);
      if IsFirstOccurrence(images, n - 1) {
        assert KeptPositions(images, n) == idx0 + [n - 1];
      }
    }
  }

  /** No two kept entries share a url. */
  lemma KeepFirstDistinct(images: seq<GalleryImage>, n: nat)
    requires n <= |images|
    ensures forall i, j :: 0 <= i < j < |KeepFirst(images, n)| ==> KeepFirst(images, n)[i].url != KeepFirst(images, n)[j].url
  {
    var r := KeepFirst(images, n);
    var idx := KeptPositions(images, n);
    KeptPositionsEmbed(images, n);
    KeptPositionsAreFirsts(images, n);
    forall i, j | 0 <= i < j < |r|
      ensures r[i].url != r[j].url
    {
      assert FirstUrlIndex(images, images[idx[j]].url) == idx[j];
      assert idx[i] < idx[j];
    }
  }

  /** uniqueImages: the images whose url does not occur earlier, in order. */
  function UniqueImages(images: seq<GalleryImage>): (r: seq<GalleryImage>)
    ensures |r| <= |images|
    ensures forall i :: 0 <= i < |r| ==> r[i] in images
    ensures forall i, j :: 0 <= i < j < |r| ==> r[i].url != r[j].url
  {
    KeptPositionsEmbed(images, |images|);
    KeepFirstDistinct(images, |images|);
    KeepFirst(images, |images|)
  }

  /** The de-duplicated gallery is a subsequence of the full one. */
  lemma UniqueImagesIsSubsequence(images: seq<GalleryImage>)
    ensures IsSubsequence(UniqueImages(images), images)
  {
    var idx := KeptPositions(images, |images|);
    KeptPositionsEmbed(images, |images|);
  }

  /** Every first occurrence among the first `n` positions is kept. */
  lemma {:induction false} KeptPositionsHasFirsts(images: seq<GalleryImage>, n: nat, i: nat)
    requires i < n <= |images|
    requires IsFirstOccurrence(images, i)
    ensures i in KeptPositions(images, n)
  {
    var init := KeptPositions(images, n - 1);
    if i < n - 1 {
      KeptPositionsHasFirsts(images, n - 1, i);
    } else {
      assert KeptPositions(images, n) == init + [i];
    }
  }

  /** Every first occurrence of a url is kept. */
  lemma UniqueImagesKeepsFirsts(images: seq<GalleryImage>, i: nat)
    requires i < |images| && IsFirstOccurrence(images, i)
    ensures images[i] in UniqueImages(images)
  {
    var idx := KeptPositions(images, |images|);
    KeptPositionsEmbed(images, |images|);
    KeptPositionsHasFirsts(images, |images|, i);
    var k :| 0 <= k < |idx| && idx[k] == i;
    assert UniqueImages(images)[k] == images[i];
  }

  /** Every url of the gallery survives de-duplication. */
  lemma UniqueImagesKeepsEveryUrl(images: seq<GalleryImage>)
    ensures forall i :: 0 <= i < |images| ==>
      exists j :: 0 <= j < |UniqueImages(images)| && UniqueImages(images)[j].url == images[i].url
  {
    var r := UniqueImages(images);
    forall i | 0 <= i < |images|
      ensures exists j :: 0 <= j < |r| && r[j].url == images[i].url
    {
      var k := FirstUrlIndex(images, images[i].url);
      UniqueImagesKeepsFirsts(images, k);
      var j :| 0 <= j < |r| && r[j] == images[k];
      assert r[j].url == images[i].url;
    }
  }

  /** The main image, always at position 0 of the gallery, stays first. */
  lemma UniqueImagesKeepsMainFirst(images: seq<GalleryImage>)
    requires |images| > 0
    ensures |UniqueImages(images)| > 0 && UniqueImages(images)[0] == images[0]
  {
    var idx := KeptPositions(images, |images|);
    KeptPositionsEmbed(images, |images|);
    assert IsFirstOccurrence(images, 0);
    KeptPositionsHasFirsts(images, |images|, 0);
    var k :| 0 <= k < |idx| && idx[k] == 0;
    assert idx[0] <= idx[k];
  }

  /** The gallery the view shows always opens with the product's main image. */
  lemma GalleryOpensWithMainImage(p: Product)
    ensures var shown := UniqueImages(ProductImages(p));
      |shown| > 0 && shown[0] == GalleryImage(1, ImageUrl(p.image))
  {
    UniqueImagesKeepsMainFirst(ProductImages(p));
  }

  /** A gallery without repeated urls is shown as it is. */
  lemma {:induction false} KeepFirstOfDistinct(images: seq<GalleryImage>, n: nat)
    requires n <= |images|
    requires forall i, j :: 0 <= i < j < |images| ==> images[i].url != images[j].url
    ensures KeepFirst(images, n) == images[..n]
  {
    if n > 0 {
      KeepFirstOfDistinct(images, n - 1);
      assert IsFirstOccurrence(images, n - 1) by {
        var k := FirstUrlIndex(images, images[n - 1].url);
        assert k >= 0 && images[k].url == images[n - 1].url;
      }
      assert KeepFirst(images, n) == KeepFirst(images, n - 1) + [images[n - 1]];
      assert images[..n] == images[..n - 1] + [images[n - 1]];
    }
  }

  lemma UniqueImagesOfDistinct(images: seq<GalleryImage>)
    requires forall i, j :: 0 <= i < j < |images| ==> images[i].url != images[j].url
    ensures UniqueImages(images) == images
  {
    KeepFirstOfDistinct(images, |images|);
    assert images[..|images|] == images;
  }

  /** De-duplicating twice gives the same gallery as de-duplicating once. */
  lemma UniqueImagesIdempotent(images: seq<GalleryImage>)
    ensures UniqueImages(UniqueImages(images)) == UniqueImages(images)
  {
    UniqueImagesOfDistinct(UniqueImages(images));
  }

  /** The stock badge. */
  function StockLabel(p: Product): (s: string)
    ensures s == "In Stock" <==> p.stock > 0
    ensures s == "In Stock" || s == "Out of Stock"
  {
    if p.stock > 0 then "In Stock" else "Out of Stock"
  }

  /** `value || fallback` on an optional text: the value unless it is absent or empty. */
  function OrFallback(value: Option<string>, fallback: string): (s: string)
    ensures value.Some? && value.value != "" ==> s == value.value
    ensures value.None? || value.value == "" ==> s == fallback
  {
    if value.Some? && value.value != "" then value.value else fallback
  }

  /** `product.category?.name || "Uncategorized"`. */
  function CategoryLabel(p: Product): (s: string)
    ensures s != ""
    ensures p.category.Some? && p.category.value.name != "" ==> s == p.category.value.name
    ensures p.category.None? || p.category.value.name == "" ==> s == "Uncategorized"
  {
    OrFallback(if p.category.Some? then Some(p.category.value.name) else None, "Uncategorized")
  }

  /** `product.code || "N/A"`. */
  function CodeLabel(p: Product): (s: string)
    ensures s != ""
    ensures p.code.Some? && p.code.value != "" ==> s == p.code.value
    ensures p.code.None? || p.code.value == "" ==> s == "N/A"
  {
    OrFallback(p.code, "N/A")
  }

  /** `product.unique_id || "N/A"`. */
  function SkuLabel(p: Product): (s: string)
    ensures s != ""
    ensures p.uniqueId.Some? && p.uniqueId.value != "" ==> s == p.uniqueId.value
    ensures p.uniqueId.None? || p.uniqueId.value == "" ==> s == "N/A"
  {
    OrFallback(p.uniqueId, "N/A")
  }
}
