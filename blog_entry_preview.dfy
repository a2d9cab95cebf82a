/**
 * The blog entry preview: the header it shows, the blocks it renders from
 * the entry's `content` (falsy elements dropped, the rest dispatched on their
 * `type`), and what the `Products`, `Text`, `Images` and `StorageImage`
 * components show for their inputs. Fetching entities and resolving
 * download URLs are asynchronous calls into the backend; they appear here as
 * function parameters that give the settled answer.
 */
module BlogEntryPreview {
  import opened Common
  import opened BlogSchema

  // ---------------------------------------------------------------------------
  // Header

  /** The props of the header component. */
  datatype PostHead = PostHead(headerUrl: string, title: string, tags: seq<string>)

  /** Header values, each falling back (`??`) to an empty string or list when missing. */
  function Header(values: Option<BlogEntry>): (h: PostHead)
    ensures values.None? ==> h == PostHead("", "", [])
    ensures values.Some? && values.value.imageUrl.Some? ==> h.headerUrl == values.value.imageUrl.value
    ensures values.Some? && values.value.name.Some? ==> h.title == values.value.name.value
    ensures values.Some? && values.value.tags.Some? ==> h.tags == values.value.tags.value
    ensures (values.None? || values.value.imageUrl.None?) ==> h.headerUrl == ""
    ensures (values.None? || values.value.name.None?) ==> h.title == ""
    ensures (values.None? || values.value.tags.None?) ==> h.tags == []
  {
    match values
    case None => PostHead("", "", [])
    case Some(v) =>
      PostHead(
        if v.imageUrl.Some? then v.imageUrl.value else "",
        if v.name.Some? then v.name.value else "",
        if v.tags.Some? then v.tags.value else [])
  }

  // ---------------------------------------------------------------------------
  // Content blocks

  /** What the preview renders for one content entry. */
  datatype Block =
    | TextView(markdownText: ContentValue)
    | ImageLinkView(href: ContentValue, src: ContentValue)
    | ProductsView(references: ContentValue)
    | ErrorView(error: string)

  const UnexpectedEntryError := "Unexpected value in blog entry"

  /** The dispatch on an entry's `type`: text, image, products, or an error block for anything else. */
  function RenderEntry(typeTag: Option<string>, value: ContentValue): (b: Block)
    ensures typeTag == Some(TextTag) ==> b == TextView(value)
    ensures typeTag == Some(ImageTag) ==> b == ImageLinkView(value, value)
    ensures typeTag == Some(ProductsTag) ==> b == ProductsView(value)
    ensures b.ErrorView? <==> typeTag !in {Some(TextTag), Some(ImageTag), Some(ProductsTag)}
    ensures b.ErrorView? ==> b.error == UnexpectedEntryError
  {
    if typeTag == Some(TextTag) then TextView(value)
    else if typeTag == Some(ImageTag) then ImageLinkView(value, value)
    else if typeTag == Some(ProductsTag) then ProductsView(value)
    else ErrorView(UnexpectedEntryError)
  }

  /** `content.filter(e => !!e)`: the truthy entries, in their original order. */
  function KeepTruthy(s: seq<ContentEntry>): (r: seq<ContentEntry>)
    ensures |r| <= |s|
    ensures forall k :: 0 <= k < |r| ==> r[k].Entry?
  {
    if s == [] then []
    else if s[0].Falsy? then KeepTruthy(s[1..])
    else [s[0]] + KeepTruthy(s[1..])
  }

  /** `.map(...)` over entries that are all truthy: one block per entry, in order. */
  function RenderAll(s: seq<ContentEntry>): (r: seq<Block>)
    requires forall k :: 0 <= k < |s| ==> s[k].Entry?
    ensures |r| == |s|
    ensures forall k :: 0 <= k < |s| ==> r[k] == RenderEntry(s[k].typeTag, s[k].value)
  {
    if s == [] then [] else [RenderEntry(s[0].typeTag, s[0].value)] + RenderAll(s[1..])
  }

  /** The blocks the preview shows; a missing entry or missing `content` shows none. */
  function PreviewContent(values: Option<BlogEntry>): (r: seq<Block>)
    ensures values.None? || values.value.content.None? ==> r == []
  {
    if values.None? || values.value.content.None? then []
    else RenderAll(KeepTruthy(values.value.content.value))
  }

  /** The positions, from `i` on, of the truthy entries of `s`, in increasing order. */
  function TruthyPositions(s: seq<ContentEntry>, i: nat): seq<nat>
    requires i <= |s|
    decreases |s| - i
  {
    if i == |s| then []
    else if s[i].Falsy? then TruthyPositions(s, i + 1)
    else [i] + TruthyPositions(s, i + 1)
  }

  /** The truthy positions from `i` on lie in `[i, |s|)` and increase strictly. */
  lemma {:induction false} TruthyPositionsIncrease(s: seq<ContentEntry>, i: nat)
    requires i <= |s|
    ensures forall k :: 0 <= k < |TruthyPositions(s, i)| ==> i <= TruthyPositions(s, i)[k] < |s|
    ensures forall j, k :: 0 <= j < k < |TruthyPositions(s, i)| ==> TruthyPositions(s, i)[j] < TruthyPositions(s, i)[k]
    decreases |s| - i
  {
    if i < |s| {
      TruthyPositionsIncrease(s, i + 1);
    }
  }

  /** The k-th survivor of the filter on `s[i..]` is the entry at the k-th truthy position. */
  lemma {:induction false} TruthyPositionsSelect(s: seq<ContentEntry>, i: nat)
    requires i <= |s|
    ensures |TruthyPositions(s, i)| == |KeepTruthy(s[i..])|
    ensures forall k :: 0 <= k < |TruthyPositions(s, i)| ==>
      TruthyPositions(s, i)[k] < |s| && KeepTruthy(s[i..])[k] == s[TruthyPositions(s, i)[k]]
    decreases |s| - i
  {
    TruthyPositionsIncrease(s, i);
    if i < |s| {
      TruthyPositionsSelect(s, i + 1);
      var t := s[i..];
      assert t[1..] == s[i + 1..];
      assert t[0] == s[i];
      if s[i].Falsy? {
        assert KeepTruthy(t) == KeepTruthy(s[i + 1..]);
        assert TruthyPositions(s, i) == TruthyPositions(s, i + 1);
      } else {
        assert KeepTruthy(t) == [s[i]] + KeepTruthy(s[i + 1..]);
        assert TruthyPositions(s, i) == [i] + TruthyPositions(s, i + 1);
      }
    }
  }

  /** Every truthy position from `i` on is listed. */
  lemma {:induction false} TruthyPositionsComplete(s: seq<ContentEntry>, i: nat)
    requires i <= |s|
    ensures forall j :: i <= j < |s| && s[j].Entry? ==> j in TruthyPositions(s, i)
    decreases |s| - i
  {
    if i < |s| {
      TruthyPositionsComplete(s, i + 1);
    }
  }

  /**
   * The filter keeps exactly the truthy entries, in order: the k-th survivor
   * is the entry at the k-th truthy position, the positions increase, and
   * every truthy position is among them.
   */
  lemma KeepTruthyIsOrderedSelection(s: seq<ContentEntry>)
    ensures |TruthyPositions(s, 0)| == |KeepTruthy(s)|
    ensures forall k :: 0 <= k < |TruthyPositions(s, 0)| ==>
      TruthyPositions(s, 0)[k] < |s| && KeepTruthy(s)[k] == s[TruthyPositions(s, 0)[k]]
    ensures forall j, k :: 0 <= j < k < |TruthyPositions(s, 0)| ==> TruthyPositions(s, 0)[j] < TruthyPositions(s, 0)[k]
    ensures forall j :: 0 <= j < |s| && s[j].Entry? ==> j in TruthyPositions(s, 0)
  {
    assert s[0..] == s;
    TruthyPositionsIncrease(s, 0);
    TruthyPositionsSelect(s, 0);
    TruthyPositionsComplete(s, 0);
  }

  /** The k-th block of the preview is the dispatch of the k-th truthy entry. */
  lemma PreviewBlockAt(values: BlogEntry, k: nat)
    requires values.content.Some?
    requires k < |KeepTruthy(values.content.value)|
    ensures var c := values.content.value;
      && |PreviewContent(Some(values))| == |TruthyPositions(c, 0)|
      && k < |TruthyPositions(c, 0)|
      && TruthyPositions(c, 0)[k] < |c|
      && c[TruthyPositions(c, 0)[k]].Entry?
      && PreviewContent(Some(values))[k] == RenderEntry(c[TruthyPositions(c, 0)[k]].typeTag, c[TruthyPositions(c, 0)[k]].value)
  {
    KeepTruthyIsOrderedSelection(values.content.value);
  }

  /** Dropping falsy entries commutes with joining two parts of the content. */
  lemma {:induction false} KeepTruthyAppend(a: seq<ContentEntry>, b: seq<ContentEntry>)
    ensures KeepTruthy(a + b) == KeepTruthy(a) + KeepTruthy(b)
  {
    if a == [] {
      assert a + b == b;
    } else {
      assert (a + b)[0] == a[0];
      assert (a + b)[1..] == a[1..] + b;
      KeepTruthyAppend(a[1..], b);
      if a[0].Falsy? {
        assert KeepTruthy(a + b) == KeepTruthy(a[1..] + b);
      } else {
        assert KeepTruthy(a + b) == [a[0]] + KeepTruthy(a[1..] + b);
      }
    }
  }

  /** The block the preview shows for a declared block. */
  function ViewOf(b: ContentBlock): Block
  {
    match b
    case ImageBlock(url) => ImageLinkView(TextValue(url), TextValue(url))
    case TextBlock(markdown) => TextView(TextValue(markdown))
    case ProductsBlock(refs) => ProductsView(ReferencesValue(refs))
  }

  function EncodeAll(bs: seq<ContentBlock>): (r: seq<ContentEntry>)
    ensures |r| == |bs|
    ensures forall k :: 0 <= k < |bs| ==> r[k] == EncodeBlock(bs[k])
  {
    if bs == [] then [] else [EncodeBlock(bs[0])] + EncodeAll(bs[1..])
  }

  /**
   * Content written through the schema previews block for block: nothing is
   * dropped, the order is kept, and no error block appears.
   */
  lemma {:induction false} PreviewOfDeclaredContent(values: BlogEntry, bs: seq<ContentBlock>)
    requires values.content == Some(EncodeAll(bs))
    ensures |PreviewContent(Some(values))| == |bs|
    ensures forall k :: 0 <= k < |bs| ==> PreviewContent(Some(values))[k] == ViewOf(bs[k])
    ensures forall k :: 0 <= k < |bs| ==> !PreviewContent(Some(values))[k].ErrorView?
  {
    var c := EncodeAll(bs);
    KeepTruthyOfTruthy(c);
    var r := RenderAll(c);
    assert PreviewContent(Some(values)) == r;
    forall k | 0 <= k < |bs| ensures r[k] == ViewOf(bs[k]) {
      RenderEncoded(bs[k]);
    }
  }

  /** A declared block is dispatched to its own view. */
  lemma RenderEncoded(b: ContentBlock)
    ensures RenderEntry(EncodeBlock(b).typeTag, EncodeBlock(b).value) == ViewOf(b)
  {
  }

  /** Content without falsy entries is left as it is by the filter. */
  lemma {:induction false} KeepTruthyOfTruthy(s: seq<ContentEntry>)
    requires forall k :: 0 <= k < |s| ==> s[k].Entry?
    ensures KeepTruthy(s) == s
  {
    if s != [] {
      KeepTruthyOfTruthy(s[1..]);
    }
  }

  // ---------------------------------------------------------------------------
  // Products

  /** What the `Products` component shows. */
  datatype ProductsRender<E> = RendersNothing | Spinner | ProductCards(products: seq<E>)

  /** The entities the fetches returned, with failed fetches dropped, in reference order. */
  function FetchedProducts<E>(refs: seq<EntityReference>, fetch: EntityReference -> Option<E>): (r: seq<E>)
    ensures |r| <= |refs|
    ensures forall k :: 0 <= k < |r| ==> exists ref :: ref in refs && fetch(ref) == Some(r[k])
  {
    if refs == [] then []
    else
      var rest := FetchedProducts(refs[1..], fetch);
      assert forall k :: 0 <= k < |rest| ==> exists ref :: ref in refs[1..] && fetch(ref) == Some(rest[k]);
      match fetch(refs[0])
      case None => rest
      case Some(p) => [p] + rest
  }

  /** Fetching the references of two lists is fetching each in turn: the order of the references is kept. */
  lemma {:induction false} FetchedProductsAppend<E>(a: seq<EntityReference>, b: seq<EntityReference>, fetch: EntityReference -> Option<E>)
    ensures FetchedProducts(a + b, fetch) == FetchedProducts(a, fetch) + FetchedProducts(b, fetch)
  {
    if a == [] {
      assert a + b == b;
    } else {
      assert (a + b)[0] == a[0];
      assert (a + b)[1..] == a[1..] + b;
      FetchedProductsAppend(a[1..], b, fetch);
    }
  }

  /** When every reference resolves, one card is shown per reference, in the same order. */
  lemma {:induction false} FetchedProductsAllFound<E>(refs: seq<EntityReference>, fetch: EntityReference -> Option<E>)
    requires forall k :: 0 <= k < |refs| ==> fetch(refs[k]).Some?
    ensures |FetchedProducts(refs, fetch)| == |refs|
    ensures forall k :: 0 <= k < |refs| ==> FetchedProducts(refs, fetch)[k] == fetch(refs[k]).value
  {
    if refs != [] {
      FetchedProductsAllFound(refs[1..], fetch);
    }
  }

  /**
   * The `Products` component. `previous` is the `products` state left by
   * earlier fetches (`None` before the first one settles); it is not reset
   * when `references` changes. Nothing without references; while the current
   * fetches are pending, a spinner if nothing was fetched before and the
   * previous cards otherwise; once they settle, the fetched entities.
   */
  function ProductsComponent<E>(references: Option<seq<EntityReference>>, previous: Option<seq<E>>, settled: bool, fetch: EntityReference -> Option<E>): (r: ProductsRender<E>)
    ensures references.None? <==> r.RendersNothing?
    ensures references.Some? && !settled ==> r == (if previous.None? then Spinner else ProductCards(previous.value))
    ensures r.Spinner? <==> references.Some? && !settled && previous.None?
    ensures references.Some? && settled ==> r == ProductCards(FetchedProducts(references.value, fetch))
    ensures references.Some? && settled ==> |r.products| <= |references.value|
  {
    if references.None? then RendersNothing
    else if !settled then (if previous.None? then Spinner else ProductCards(previous.value))
    else ProductCards(FetchedProducts(references.value, fetch))
  }

  // ---------------------------------------------------------------------------
  // Text and images

  /** `Text`: an empty or missing text renders nothing; otherwise its markdown. */
  function TextComponent(markdownText: Option<string>): (r: Option<string>)
    ensures r.None? <==> !Truthy(markdownText)
    ensures r.Some? ==> r == markdownText
  {
    if !Truthy(markdownText) then None else markdownText
  }

  /** What `StorageImage` shows: nothing for an empty path, otherwise an image whose source is the URL once resolved. */
  datatype ImageRender = NoImage | Image(src: Option<string>)

  function StorageImage(storagePath: string, resolve: string -> Option<string>): (r: ImageRender)
    ensures r.NoImage? <==> storagePath == ""
    ensures r.Image? ==> r.src == resolve(storagePath)
  {
    if storagePath == "" then NoImage else Image(resolve(storagePath))
  }

  /**
   * `Images`: a missing path list renders nothing; otherwise one image slot
   * per path, in order. An empty list is not falsy, so it renders an empty row.
   */
  function ImagesComponent(storagePaths: Option<seq<string>>, resolve: string -> Option<string>): (r: Option<seq<ImageRender>>)
    ensures r.None? <==> storagePaths.None?
    ensures r.Some? ==> |r.value| == |storagePaths.value|
    ensures r.Some? ==> forall k :: 0 <= k < |r.value| ==> r.value[k] == StorageImage(storagePaths.value[k], resolve)
  {
    if storagePaths.None? then None
    else Some(seq(|storagePaths.value|, k requires 0 <= k < |storagePaths.value| => StorageImage(storagePaths.value[k], resolve)))
  }
}
