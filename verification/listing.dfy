/** Bucket enumeration and paginated key listing (`GetS3Bucket`, `GetS3Dir`,
  `GetS3Keys`, s3s.go).

  The SDK paginator is abstracted as a function from the list request to the
  finite sequence of page results it would produce: `PageOk` for a page the
  server returned, `PageErr` for a `NextPage` call that failed. Trusting the
  server's has-more flag, the sequence simply ends after the last page.
 */
module Listing {
  import opened Outcomes

  /** Go's `int32`, the type of a page's `KeyCount`. */
  newtype int32 = x: int | -0x8000_0000 <= x < 0x8000_0000

  datatype Bucket = Bucket(name: string)
  datatype Object = Object(key: string)
  datatype CommonPrefix = CommonPrefix(prefix: string)

  /** One `ListObjectsV2` response page. */
  datatype Page = Page(commonPrefixes: seq<CommonPrefix>, contents: seq<Object>, keyCount: int32)

  /** The outcome of one `NextPage` call. */
  datatype PageResult = PageOk(page: Page) | PageErr(error: Error)

  /** A `ListObjectsV2Input`: a delimiter asks for the hierarchical view. */
  datatype ListRequest = ListRequest(bucket: string, prefix: string, delimiter: Option<string>)

  /** Which field of each page is collected: common prefixes or object keys. */
  datatype View = Directories | Keys

  /** What a listing call ends with: the keys, the first page error, or a Go
      runtime panic while building a page's block. */
  datatype ListOutcome = Listed(keys: seq<string>) | Failed(error: Error) | Panicked

  function DirRequest(bucket: string, prefix: string): ListRequest
  {
    ListRequest(bucket, prefix, Some("/"))
  }

  function KeysRequest(bucket: string, prefix: string): ListRequest
  {
    ListRequest(bucket, prefix, None)
  }

  function ViewOf(req: ListRequest): View
  {
    if req.delimiter.Some? then Directories else Keys
  }

  /** The directory request uses `/` as delimiter and so the hierarchical view;
      the flat request has no delimiter. */
  lemma RequestsSelectView(bucket: string, prefix: string)
    ensures DirRequest(bucket, prefix).delimiter == Some("/")
    ensures ViewOf(DirRequest(bucket, prefix)) == Directories
    ensures ViewOf(KeysRequest(bucket, prefix)) == Keys
  {
  }

  // ---------------------------------------------------------------------------
  // Reference semantics

  /** The block of strings one page contributes, or `None` when building it
      panics. A key block has exactly `KeyCount` slots: the page's keys in
      order, then empty strings. */
  function Batch(view: View, p: Page): Option<seq<string>>
  {
    match view
    case Directories =>
      Some(seq(|p.commonPrefixes|, i requires 0 <= i < |p.commonPrefixes| => p.commonPrefixes[i].prefix))
    case Keys =>
      if |p.contents| <= p.keyCount as int then
        Some(seq(p.keyCount as int, i requires 0 <= i < p.keyCount as int =>
          if i < |p.contents| then p.contents[i].key else ""))
      else None
  }

  /** A page result that lets the listing go on. */
  predicate Healthy(view: View, r: PageResult)
  {
    r.PageOk? && Batch(view, r.page).Some?
  }

  /** `k` is the first page result that stops the listing. */
  predicate IsFirstFault(view: View, pages: seq<PageResult>, k: int)
  {
    && 0 <= k < |pages|
    && !Healthy(view, pages[k])
    && forall j :: 0 <= j < k ==> Healthy(view, pages[j])
  }

  /** What a listing ends with when `r` stops it. */
  function FaultOutcome(r: PageResult): ListOutcome
  {
    if r.PageErr? then Failed(r.error) else Panicked
  }

  /** Puts `block` in front of a successful listing; a failed one stays as it is. */
  function Prepend(block: seq<string>, l: ListOutcome): ListOutcome
  {
    if l.Listed? then Listed(block + l.keys) else l
  }

  /** The listing of `pages` as a right fold: page blocks concatenated in
      arrival order, unless some page stops the listing first. */
  function Expected(view: View, pages: seq<PageResult>): ListOutcome
    decreases |pages|
  {
    if pages == [] then Listed([])
    else match pages[0]
      case PageErr(e) => Failed(e)
      case PageOk(p) =>
        match Batch(view, p)
        case None => Panicked
        case Some(block) => Prepend(block, Expected(view, pages[1..]))
  }

  /** Listing `a` then `b`: the second part matters only when the first succeeds. */
  function Then(first: ListOutcome, rest: ListOutcome): ListOutcome
  {
    if first.Listed? then Prepend(first.keys, rest) else first
  }

  // ---------------------------------------------------------------------------
  // Properties of the reference semantics

  /** Pagination is order-preserving and lossless: splitting the pages anywhere,
      the listing is the first part's keys followed by the second part's. */
  lemma {:induction false} ExpectedAppend(view: View, a: seq<PageResult>, b: seq<PageResult>)
    ensures Expected(view, a + b) == Then(Expected(view, a), Expected(view, b))
    decreases |a|
  {
    if a == [] {
      assert a + b == b;
    } else {
      var ab := a + b;
      assert ab[0] == a[0];
      assert ab[1..] == a[1..] + b;
      match a[0]
      case PageErr(_) =>
      case PageOk(p) =>
        match Batch(view, p)
        case None =>
        case Some(block) =>
          ExpectedAppend(view, a[1..], b);
          PrependThen(block, Expected(view, a[1..]), Expected(view, b));
    }
  }

  /** Prepending a block commutes with sequencing two listings. */
  lemma PrependThen(block: seq<string>, first: ListOutcome, rest: ListOutcome)
    ensures Prepend(block, Then(first, rest)) == Then(Prepend(block, first), rest)
  {
  }

  /** A listing succeeds exactly when every page was fetched and its block built. */
  lemma {:induction false} ListedIffAllHealthy(view: View, pages: seq<PageResult>)
    ensures Expected(view, pages).Listed? <==>
      forall i :: 0 <= i < |pages| ==> Healthy(view, pages[i])
    decreases |pages|
  {
    if pages != [] {
      ListedIffAllHealthy(view, pages[1..]);
      assert forall i :: 1 <= i < |pages| ==> pages[i] == pages[1..][i - 1];
    }
  }

  /** All or nothing: the first page that stops the listing decides its outcome,
      whatever came before it and whatever would have come after it. */
  lemma {:induction false} FirstFaultDecides(view: View, pages: seq<PageResult>, k: int)
    requires IsFirstFault(view, pages, k)
    ensures Expected(view, pages) == FaultOutcome(pages[k])
    ensures Expected(view, pages) == Expected(view, pages[..k + 1])
    decreases k
  {
    if k > 0 {
      assert IsFirstFault(view, pages[1..], k - 1) by {
        assert forall j :: 0 <= j < k - 1 ==> pages[1..][j] == pages[j + 1];
        assert Healthy(view, pages[0]);
      }
      FirstFaultDecides(view, pages[1..], k - 1);
      assert pages[..k + 1][1..] == pages[1..][..k];
    }
  }

  /** Conversely, a listing that does not succeed was stopped by a first fault. */
  lemma {:induction false} NotListedHasFirstFault(view: View, pages: seq<PageResult>)
    requires !Expected(view, pages).Listed?
    ensures exists k :: IsFirstFault(view, pages, k) && Expected(view, pages) == FaultOutcome(pages[k])
    decreases |pages|
  {
    if Healthy(view, pages[0]) {
      NotListedHasFirstFault(view, pages[1..]);
      var k :| IsFirstFault(view, pages[1..], k) && Expected(view, pages[1..]) == FaultOutcome(pages[1..][k]);
      assert IsFirstFault(view, pages, k + 1) by {
        forall j | 0 <= j < k + 1
          ensures Healthy(view, pages[j])
        {
          if j > 0 {
            assert pages[j] == pages[1..][j - 1];
          }
        }
      }
    } else {
      assert IsFirstFault(view, pages, 0);
    }
  }

  /** Collecting common prefixes never panics. */
  lemma {:induction false} DirectoriesNeverPanic(pages: seq<PageResult>)
    ensures Expected(Directories, pages) != Panicked
  {
    if Expected(Directories, pages) == Panicked {
      NotListedHasFirstFault(Directories, pages);
    }
  }

  /** The flat listing panics only on a page whose `Contents` outnumber its `KeyCount`. */
  lemma KeysPanicOnlyOnOversizedPage(pages: seq<PageResult>)
    requires Expected(Keys, pages) == Panicked
    ensures exists k :: (0 <= k < |pages| && pages[k].PageOk? &&
      |pages[k].page.contents| > pages[k].page.keyCount as int)
  {
  }

  /** Pages that all arrive but contribute nothing to the view list nothing,
      successfully: a directory page without common prefixes, or a key page with
      `KeyCount` 0 and no contents. */
  lemma {:induction false} EmptyPagesListNothing(view: View, pages: seq<PageResult>)
    requires forall i :: 0 <= i < |pages| ==>
      pages[i].PageOk? && Batch(view, pages[i].page) == Some([])
    ensures Expected(view, pages) == Listed([])
    decreases |pages|
  {
    if pages != [] {
      assert forall i :: 0 <= i < |pages[1..]| ==> pages[1..][i] == pages[i + 1];
      EmptyPagesListNothing(view, pages[1..]);
    }
  }

  /** Concatenation of blocks, first block first. */
  function Flatten(blocks: seq<seq<string>>): seq<string>
    decreases |blocks|
  {
    if blocks == [] then [] else blocks[0] + Flatten(blocks[1..])
  }

  /** When every page arrives and its block can be built, the listing is the
      concatenation of the pages' blocks in page order. */
  lemma {:induction false} HealthyListingIsConcatenation(view: View, pages: seq<PageResult>)
    requires forall i :: 0 <= i < |pages| ==> Healthy(view, pages[i])
    ensures Expected(view, pages) ==
      Listed(Flatten(seq(|pages|, i requires 0 <= i < |pages| && Healthy(view, pages[i]) =>
        Batch(view, pages[i].page).value)))
    decreases |pages|
  {
    var blocks := seq(|pages|, i requires 0 <= i < |pages| && Healthy(view, pages[i]) =>
      Batch(view, pages[i].page).value);
    if pages != [] {
      var rest := pages[1..];
      assert forall i :: 0 <= i < |rest| ==> rest[i] == pages[i + 1];
      HealthyListingIsConcatenation(view, rest);
      var restBlocks := seq(|rest|, i requires 0 <= i < |rest| && Healthy(view, rest[i]) =>
        Batch(view, rest[i].page).value);
      assert blocks[1..] == restBlocks;
    }
  }

  /** Sum of the `KeyCount`s of the successfully fetched pages. */
  function TotalKeyCount(pages: seq<PageResult>): int
    decreases |pages|
  {
    if pages == [] then 0
    else (if pages[0].PageOk? then pages[0].page.keyCount as int else 0) + TotalKeyCount(pages[1..])
  }

  /** A successful flat listing holds exactly `KeyCount` strings per page. */
  lemma {:induction false} KeysListingLength(pages: seq<PageResult>)
    requires Expected(Keys, pages).Listed?
    ensures |Expected(Keys, pages).keys| == TotalKeyCount(pages)
    decreases |pages|
  {
    if pages != [] {
      KeysListingLength(pages[1..]);
    }
  }

  /** A block with the page's prefixes, in order, is the page's directory batch. */
  lemma PrefixBlockIsBatch(p: Page, block: seq<string>)
    requires |block| == |p.commonPrefixes|
    requires forall i :: 0 <= i < |block| ==> block[i] == p.commonPrefixes[i].prefix
    ensures Batch(Directories, p) == Some(block)
  {
    var b := Batch(Directories, p).value;
    assert |b| == |block| && forall i :: 0 <= i < |b| ==> b[i] == block[i];
    assert b == block;
  }

  /** A `KeyCount`-long block holding the page's keys, then empty strings, is the
      page's key batch. */
  lemma KeyBlockIsBatch(p: Page, block: seq<string>)
    requires |p.contents| <= p.keyCount as int == |block|
    requires forall i :: 0 <= i < |p.contents| ==> block[i] == p.contents[i].key
    requires forall i :: |p.contents| <= i < |block| ==> block[i] == ""
    ensures Batch(Keys, p) == Some(block)
  {
    var b := Batch(Keys, p).value;
    assert |b| == |block| && forall i :: 0 <= i < |b| ==> b[i] == block[i];
    assert b == block;
  }

  // ---------------------------------------------------------------------------
  // The client's loops

  /** `GetS3Bucket`'s copy loop: one name per bucket, in the service's order. */
  method GetS3Bucket(response: Result<seq<Bucket>>) returns (r: Result<seq<string>>)
    ensures response.Err? ==> r == Err(response.error)
    ensures response.Ok? ==> r.Ok? && |r.value| == |response.value|
    ensures response.Ok? ==> forall i :: 0 <= i < |r.value| ==> r.value[i] == response.value[i].name
  {
    if response.Err? {
      return Err(response.error);
    }
    var buckets := response.value;
    var names := seq(|buckets|, _ => "");
    for i := 0 to |buckets|
      invariant |names| == |buckets|
      invariant forall j :: 0 <= j < i ==> names[j] == buckets[j].name
    {
      names := names[i := buckets[i].name];
    }
    return Ok(names);
  }

  /** `GetS3Dir`'s per-page copy of the common prefixes. */
  method CopyPrefixes(prefixes: seq<CommonPrefix>) returns (pageKeys: seq<string>)
    ensures |pageKeys| == |prefixes|
    ensures forall i :: 0 <= i < |prefixes| ==> pageKeys[i] == prefixes[i].prefix
  {
    pageKeys := seq(|prefixes|, _ => "");
    for i := 0 to |prefixes|
      invariant |pageKeys| == |prefixes|
      invariant forall j :: 0 <= j < i ==> pageKeys[j] == prefixes[j].prefix
    {
      pageKeys := pageKeys[i := prefixes[i].prefix];
    }
  }

  /** `GetS3Keys`'s per-page block: a slice of `KeyCount` empty strings whose
      first slots are overwritten by the page's keys. `None` stands for the Go
      runtime panic of a negative `make` length or an index out of range. */
  method FillPageKeys(contents: seq<Object>, keyCount: int32) returns (block: Option<seq<string>>)
    ensures block.Some? <==> |contents| <= keyCount as int
    ensures block.Some? ==> |block.value| == keyCount as int
    ensures block.Some? ==> forall i :: 0 <= i < |contents| ==> block.value[i] == contents[i].key
    ensures block.Some? ==> forall i :: |contents| <= i < |block.value| ==> block.value[i] == ""
  {
    if keyCount < 0 {
      return None;
    }
    var pageKeys := seq(keyCount as int, _ => "");
    var i := 0;
    while i < |contents|
      invariant 0 <= i <= |contents| && i <= |pageKeys| == keyCount as int
      invariant forall j :: 0 <= j < i ==> pageKeys[j] == contents[j].key
      invariant forall j :: i <= j < |pageKeys| ==> pageKeys[j] == ""
    {
      if i >= |pageKeys| {
        return None;
      }
      pageKeys := pageKeys[i := contents[i].key];
      i := i + 1;
    }
    return Some(pageKeys);
  }

  /** The shared pagination loop: appends each page's block in arrival order
      and returns on the first failed page, dropping what it had gathered. */
  method Paginate(view: View, pages: seq<PageResult>) returns (r: ListOutcome)
    ensures r == Expected(view, pages)
  {
    var keys: seq<string> := [];
    for i := 0 to |pages|
      invariant Expected(view, pages) == Prepend(keys, Expected(view, pages[i..]))
    {
      assert pages[i..][1..] == pages[i + 1..];
      match pages[i]
      case PageErr(e) =>
        return Failed(e);
      case PageOk(page) =>
        var block: seq<string>;
        if view == Directories {
          block := CopyPrefixes(page.commonPrefixes);
          PrefixBlockIsBatch(page, block);
        } else {
          var filled := FillPageKeys(page.contents, page.keyCount);
          if filled.None? {
            return Panicked;
          }
          block := filled.value;
          KeyBlockIsBatch(page, block);
        }
        keys := keys + block;
    }
    assert pages[|pages|..] == [];
    return Listed(keys);
  }

  /** `GetS3Dir`: the hierarchical listing of `prefix` under delimiter `/`. */
  method GetS3Dir(bucket: string, prefix: string, paginator: ListRequest -> seq<PageResult>)
    returns (r: ListOutcome)
    ensures r == Expected(Directories, paginator(DirRequest(bucket, prefix)))
    ensures !r.Panicked?
  {
    var req := DirRequest(bucket, prefix);
    r := Paginate(ViewOf(req), paginator(req));
    DirectoriesNeverPanic(paginator(req));
  }

  /** `GetS3Keys`: the flat listing of every key under `prefix`. */
  method GetS3Keys(bucket: string, prefix: string, paginator: ListRequest -> seq<PageResult>)
    returns (r: ListOutcome)
    ensures r == Expected(Keys, paginator(KeysRequest(bucket, prefix)))
  {
    var req := KeysRequest(bucket, prefix);
    r := Paginate(ViewOf(req), paginator(req));
  }
}
