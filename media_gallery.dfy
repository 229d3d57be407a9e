/** The media gallery: a cursor-paginated feed that accumulates pages, drops items whose id is
    already loaded, and renders a spinner, an error, an empty notice or the grid. */
module MediaGallery {
  import opened JsValues
  import opened Cookies

  datatype MediaType = Image | Video | CarouselAlbum

  datatype MediaComment = MediaComment(id: string, text: string, username: string, timestamp: string)

  datatype Media = Media(
    id: string,
    caption: Option<string>,
    mediaType: MediaType,
    mediaUrl: string,
    thumbnailUrl: Option<string>,
    permalink: string,
    timestamp: string,
    comments: Option<seq<MediaComment>>)

  datatype Cursors = Cursors(after: string)

  datatype Paging = Paging(cursors: Option<Cursors>, next: Option<string>)

  /** The body of a successful feed response: one page and where the next one starts. */
  datatype MediaResponse = MediaResponse(data: seq<Media>, paging: Paging)

  /** What one feed request produced: a response, an HTTP error (carrying the server's
      `error` field when the body had one), or any other exception. */
  datatype FetchOutcome =
    | Fetched(response: MediaResponse)
    | HttpFailure(serverError: Option<string>)
    | OtherFailure

  const FailedToLoadMedia: string := "Failed to load media"
  const UnexpectedError: string := "An unexpected error occurred"
  /** The length at which grid cards cut captions. */
  const CaptionPreviewLength: int := 100

  function IdsOf(items: seq<Media>): set<string>
  {
    set x | x in items :: x.id
  }

  /** No two items share an id. */
  predicate UniqueIds(items: seq<Media>)
  {
    forall i, j :: 0 <= i < j < |items| ==> items[i].id != items[j].id
  }

  /** `a` is `b` with some elements left out, the rest in their original order. */
  predicate IsSubsequence<T(==)>(a: seq<T>, b: seq<T>)
    decreases |b|
  {
    a == [] || (b != [] && if a[0] == b[0] then IsSubsequence(a[1..], b[1..]) else IsSubsequence(a, b[1..]))
  }

  /** `incoming.filter(item => !seen.has(item.id))`. */
  function KeepUnseen(incoming: seq<Media>, seen: set<string>): (r: seq<Media>)
    ensures forall x :: x in r <==> x in incoming && x.id !in seen
    ensures IsSubsequence(r, incoming)
  {
    if incoming == [] then []
    else if incoming[0].id in seen then KeepUnseen(incoming[1..], seen)
    else [incoming[0]] + KeepUnseen(incoming[1..], seen)
  }

  /** The list after a page arrives: the items already loaded, then the page's items whose id
      is not among theirs, in server order. */
  function Merge(prev: seq<Media>, incoming: seq<Media>): (r: seq<Media>)
    ensures prev <= r
    ensures forall k :: |prev| <= k < |r| ==> r[k] in incoming && r[k].id !in IdsOf(prev)
    ensures forall x :: x in incoming && x.id !in IdsOf(prev) ==> x in r[|prev|..]
    ensures IsSubsequence(r[|prev|..], incoming)
  {
    var kept := KeepUnseen(incoming, IdsOf(prev));
    assert (prev + kept)[|prev|..] == kept;
    prev + kept
  }

  /** An incoming item whose id is already loaded does not replace the loaded entry: it is in
      the result only if it was loaded already. */
  lemma MergeKeepsLoadedEntry(prev: seq<Media>, incoming: seq<Media>, x: Media)
    requires x in incoming && x.id in IdsOf(prev)
    ensures x in Merge(prev, incoming) <==> x in prev
  {
  }

  lemma IdsOfAppend(a: seq<Media>, b: seq<Media>)
    ensures IdsOf(a + b) == IdsOf(a) + IdsOf(b)
  {
    forall id | id in IdsOf(a + b) ensures id in IdsOf(a) + IdsOf(b) {
      var x :| x in a + b && x.id == id;
    }
  }

  lemma {:induction false} KeepUnseenAppend(a: seq<Media>, b: seq<Media>, seen: set<string>)
    ensures KeepUnseen(a + b, seen) == KeepUnseen(a, seen) + KeepUnseen(b, seen)
  {
    if a == [] {
      assert a + b == b;
    } else {
      assert (a + b)[0] == a[0];
      assert (a + b)[1..] == a[1..] + b;
      KeepUnseenAppend(a[1..], b, seen);
    }
  }

  /** The positions of `incoming` holding an item whose id is not in `seen`. */
  function KeptPositions(incoming: seq<Media>, seen: set<string>): set<int>
  {
    set i | 0 <= i < |incoming| && incoming[i].id !in seen
  }

  lemma KeptPositionsSnoc(init: seq<Media>, last: Media, seen: set<string>)
    ensures KeptPositions(init + [last], seen)
         == KeptPositions(init, seen) + (if last.id in seen then {} else {|init|})
  {
    var s := init + [last];
    assert forall i :: 0 <= i < |init| ==> s[i] == init[i];
    assert s[|init|] == last;
  }

  lemma KeepUnseenSingle(x: Media, seen: set<string>)
    ensures KeepUnseen([x], seen) == if x.id in seen then [] else [x]
  {
    assert [x][1..] == [];
  }

  lemma {:induction false} KeepUnseenLength(incoming: seq<Media>, seen: set<string>)
    ensures |KeepUnseen(incoming, seen)| == |KeptPositions(incoming, seen)|
  {
    if incoming == [] {
      assert KeptPositions(incoming, seen) == {};
    } else {
      var init, last := incoming[..|incoming| - 1], incoming[|incoming| - 1];
      assert incoming == init + [last];
      KeepUnseenAppend(init, [last], seen);
      KeepUnseenSingle(last, seen);
      KeepUnseenLength(init, seen);
      KeptPositionsSnoc(init, last, seen);
      assert |init| !in KeptPositions(init, seen);
    }
  }

  /** The new length is the old one plus the number of incoming items whose id was not
      already loaded. */
  lemma MergeLength(prev: seq<Media>, incoming: seq<Media>)
    ensures |Merge(prev, incoming)| == |prev| + |KeptPositions(incoming, IdsOf(prev))|
  {
    KeepUnseenLength(incoming, IdsOf(prev));
  }

  /** After a merge every id of the page is loaded, and no other id appears. */
  lemma MergeIds(prev: seq<Media>, incoming: seq<Media>)
    ensures IdsOf(Merge(prev, incoming)) == IdsOf(prev) + IdsOf(incoming)
  {
    var r := Merge(prev, incoming);
    forall id | id in IdsOf(r) ensures id in IdsOf(prev) + IdsOf(incoming) {
      var x :| x in r && x.id == id;
      var k :| 0 <= k < |r| && r[k] == x;
      if k < |prev| { assert prev[k] == x; }
    }
    forall id | id in IdsOf(prev) + IdsOf(incoming) ensures id in IdsOf(r) {
      if id in IdsOf(prev) {
        var x :| x in prev && x.id == id;
        var k :| 0 <= k < |prev| && prev[k] == x;
        assert r[k] == x;
      } else {
        var x :| x in incoming && x.id == id;
        assert x in r[|prev|..];
      }
    }
  }

  /** Ids stay unique when an item is added at the end exactly when its id is new. */
  lemma UniqueIdsSnoc(items: seq<Media>, y: Media)
    ensures UniqueIds(items + [y]) <==> UniqueIds(items) && y.id !in IdsOf(items)
  {
    var s := items + [y];
    assert forall i :: 0 <= i < |items| ==> s[i] == items[i];
    if UniqueIds(s) {
      forall k | 0 <= k < |items| ensures items[k].id != y.id {
        assert s[k] == items[k] && s[|items|] == y;
      }
    }
  }

  lemma {:induction false} KeepUnseenUnique(incoming: seq<Media>, seen: set<string>)
    requires UniqueIds(incoming)
    ensures UniqueIds(KeepUnseen(incoming, seen))
  {
    if incoming != [] {
      var init, last := incoming[..|incoming| - 1], incoming[|incoming| - 1];
      assert incoming == init + [last];
      UniqueIdsSnoc(init, last);
      KeepUnseenUnique(init, seen);
      KeepUnseenAppend(init, [last], seen);
      KeepUnseenSingle(last, seen);
      var kept := KeepUnseen(init, seen);
      assert IdsOf(kept) <= IdsOf(init);
      UniqueIdsSnoc(kept, last);
    }
  }

  /** Merging keeps ids unique provided the page itself has no repeated id. */
  lemma MergeKeepsUniqueIds(prev: seq<Media>, incoming: seq<Media>)
    requires UniqueIds(prev) && UniqueIds(incoming)
    ensures UniqueIds(Merge(prev, incoming))
  {
    var kept := KeepUnseen(incoming, IdsOf(prev));
    KeepUnseenUnique(incoming, IdsOf(prev));
    var r := Merge(prev, incoming);
    forall i, j | 0 <= i < j < |r| ensures r[i].id != r[j].id {
      if j < |prev| {
        assert r[i] == prev[i] && r[j] == prev[j];
      } else if i < |prev| {
        assert r[i] == prev[i] && r[i].id in IdsOf(prev);
      } else {
        assert r[i] == kept[i - |prev|] && r[j] == kept[j - |prev|];
      }
    }
  }

  /** Only previously loaded ids are checked: an item repeated within one page is kept twice. */
  lemma DuplicateWithinPageKept(x: Media)
    ensures Merge([], [x, x]) == [x, x]
    ensures !UniqueIds(Merge([], [x, x]))
  {
    assert IdsOf([]) == {};
    assert [x, x][1..] == [x] && [x][1..] == [];
    assert KeepUnseen([x], {}) == [x];
  }

  /** Reference order: the items of `s` whose id did not occur earlier in `s`. */
  function FirstSeen(s: seq<Media>): (r: seq<Media>)
    ensures UniqueIds(r)
    ensures IdsOf(r) == IdsOf(s)
  {
    if s == [] then []
    else
      var init, last := s[..|s| - 1], s[|s| - 1];
      assert s == init + [last];
      var p := FirstSeen(init);
      if last.id in IdsOf(init) then p
      else
        IdsOfAppend(init, [last]);
        IdsOfAppend(p, [last]);
        assert forall i :: 0 <= i < |p| ==> p[i].id in IdsOf(p);
        p + [last]
  }

  /** All pages in the order they were fetched, concatenated. */
  function Concat(pages: seq<seq<Media>>): seq<Media>
  {
    if pages == [] then [] else Concat(pages[..|pages| - 1]) + pages[|pages| - 1]
  }

  /** The feed after the pages have been merged in one after another, starting empty. */
  function Accumulate(pages: seq<seq<Media>>): seq<Media>
  {
    if pages == [] then [] else Merge(Accumulate(pages[..|pages| - 1]), pages[|pages| - 1])
  }

  lemma FirstSeenSnoc(s: seq<Media>, y: Media)
    ensures FirstSeen(s + [y]) == FirstSeen(s) + (if y.id in IdsOf(s) then [] else [y])
  {
    assert (s + [y])[..|s|] == s;
  }

  lemma MergeSnoc(prev: seq<Media>, b: seq<Media>, y: Media)
    ensures Merge(prev, b + [y]) == Merge(prev, b) + (if y.id in IdsOf(prev) then [] else [y])
  {
    KeepUnseenAppend(b, [y], IdsOf(prev));
    KeepUnseenSingle(y, IdsOf(prev));
  }

  lemma {:induction false} MergeFirstSeen(a: seq<Media>, b: seq<Media>)
    requires UniqueIds(b)
    ensures Merge(FirstSeen(a), b) == FirstSeen(a + b)
  {
    if b == [] {
      assert a + b == a;
    } else {
      var init, y := b[..|b| - 1], b[|b| - 1];
      assert b == init + [y];
      assert a + b == (a + init) + [y];
      UniqueIdsSnoc(init, y);
      MergeFirstSeen(a, init);
      MergeSnoc(FirstSeen(a), init, y);
      FirstSeenSnoc(a + init, y);
      IdsOfAppend(a, init);
    }
  }

  /** Property of the whole feed: when no page repeats an id within itself, the accumulated
      list holds each id once, in the order ids were first seen across the pages. */
  lemma {:induction false} AccumulateIsFirstSeen(pages: seq<seq<Media>>)
    requires forall i :: 0 <= i < |pages| ==> UniqueIds(pages[i])
    ensures Accumulate(pages) == FirstSeen(Concat(pages))
    ensures UniqueIds(Accumulate(pages)) && IdsOf(Accumulate(pages)) == IdsOf(Concat(pages))
  {
    if pages != [] {
      var init := pages[..|pages| - 1];
      AccumulateIsFirstSeen(init);
      MergeFirstSeen(Concat(init), pages[|pages| - 1]);
    }
  }

  /** `truncateCaption(text, maxLength)`: captions longer than `maxLength` are cut to their first
      `maxLength` characters and marked with an ellipsis (`substring` treats a negative end
      as 0). */
  function TruncateCaption(text: string, maxLength: int): (r: string)
    ensures |text| <= maxLength ==> r == text
    ensures |text| > maxLength ==> r == text[..if maxLength < 0 then 0 else maxLength] + "..."
    ensures |r| <= (if maxLength < 0 then 0 else maxLength) + 3
  {
    if |text| > maxLength then text[..if maxLength < 0 then 0 else maxLength] + "..." else text
  }

  /** A grid card shows a caption of up to 100 characters whole, and a longer one as its
      first 100 characters and `...`, so the card's caption never exceeds 103 characters. */
  lemma CardCaption(caption: string)
    ensures |caption| <= CaptionPreviewLength ==> TruncateCaption(caption, CaptionPreviewLength) == caption
    ensures |caption| > CaptionPreviewLength ==>
      var shown := TruncateCaption(caption, CaptionPreviewLength);
      |shown| == CaptionPreviewLength + 3 && shown[..CaptionPreviewLength] == caption[..CaptionPreviewLength]
      && shown[CaptionPreviewLength..] == "..."
    ensures |TruncateCaption(caption, CaptionPreviewLength)| <= CaptionPreviewLength + 3
  {
  }

  /** `media.filter(item => item.media_url)`: the items the grid shows. */
  function WithMediaUrl(media: seq<Media>): (r: seq<Media>)
    ensures forall x :: x in r <==> x in media && x.mediaUrl != ""
    ensures forall x :: multiset(r)[x] == if x.mediaUrl != "" then multiset(media)[x] else 0
    ensures IsSubsequence(r, media)
  {
    if media == [] then []
    else
      assert media == [media[0]] + media[1..];
      if media[0].mediaUrl == "" then WithMediaUrl(media[1..])
      else [media[0]] + WithMediaUrl(media[1..])
  }

  datatype GalleryView =
    | Spinner
    | ErrorPanel(message: string)
    | NoPosts
    | Grid(items: seq<Media>, loadMoreButton: bool, loadMoreBusy: bool)

  /** What the gallery renders: the spinner while loading, else the error panel, else the
      empty notice when nothing is loaded, else the grid with a load-more button when the
      last response had a `next` link. */
  function RenderGallery(loading: bool, error: Option<string>, media: seq<Media>, paging: Paging, isLoadingMore: bool): (v: GalleryView)
    ensures v.Spinner? <==> loading
    ensures v.ErrorPanel? <==> !loading && Truthy(error)
    ensures v.ErrorPanel? ==> v.message == error.value
    ensures v.NoPosts? <==> !loading && !Truthy(error) && media == []
    ensures v.Grid? ==> media != [] && v.items == WithMediaUrl(media)
    ensures v.Grid? ==> v.loadMoreButton == Truthy(paging.next) && v.loadMoreBusy == isLoadingMore
  {
    if loading then Spinner
    else if Truthy(error) then ErrorPanel(error.value)
    else if media == [] then NoPosts
    else Grid(WithMediaUrl(media), Truthy(paging.next), isLoadingMore)
  }

  /** `handleLoadMore`'s guard: the last response gave a non-empty `cursors.after` and no
      load-more is pending. */
  predicate LoadMoreAllowed(paging: Paging, isLoadingMore: bool)
  {
    paging.cursors.Some? && paging.cursors.value.after != "" && !isLoadingMore
  }

  /** The load-more button and its guard test different fields: a response with a `next` link
      but no `cursors.after` shows an enabled button whose click issues nothing. */
  lemma ButtonWithoutCursor(media: seq<Media>, next: string)
    requires media != [] && next != ""
    ensures var v := RenderGallery(false, None, media, Paging(None, Some(next)), false);
      v.Grid? && v.loadMoreButton && !v.loadMoreBusy
    ensures !LoadMoreAllowed(Paging(None, Some(next)), false)
  {
  }

  /** The state of one gallery component. */
  class Gallery {
    var media: seq<Media>
    var paging: Paging
    var loading: bool
    var error: Option<string>
    var isLoadingMore: bool
    var selectedItem: Option<Media>

    constructor ()
      ensures media == [] && paging == Paging(None, None) && loading && error == None
      ensures !isLoadingMore && selectedItem == None
    {
      media := [];
      paging := Paging(None, None);
      loading := true;
      error := None;
      isLoadingMore := false;
      selectedItem := None;
    }

    /** One call of `loadMedia(cursor)`, from its start to its `finally` block. The token is
        read from the token cookie; `outcome` is what the request produced (no request is
        made without a token). */
    method LoadMedia(cursor: Option<string>, jar: CookieJar, outcome: FetchOutcome)
      modifies this
      ensures Truthy(jar.Get(TokenCookie)) && outcome.Fetched? ==>
        media == Merge(old(media), outcome.response.data) && paging == outcome.response.paging && error == None
      ensures !(Truthy(jar.Get(TokenCookie)) && outcome.Fetched?) ==> media == old(media) && paging == old(paging)
      ensures !Truthy(jar.Get(TokenCookie)) ==> error == Some(UnexpectedError)
      ensures Truthy(jar.Get(TokenCookie)) && outcome.HttpFailure? ==>
        error == Some(if Truthy(outcome.serverError) then outcome.serverError.value else FailedToLoadMedia)
      ensures Truthy(jar.Get(TokenCookie)) && outcome.OtherFailure? ==> error == Some(UnexpectedError)
      ensures loading == (if Truthy(cursor) then old(loading) else false)
      ensures !isLoadingMore && selectedItem == old(selectedItem)
      ensures old(UniqueIds(media)) && (outcome.Fetched? ==> UniqueIds(outcome.response.data)) ==> UniqueIds(media)
    {
      var token := jar.Get(TokenCookie);
      var isInitialLoad := !Truthy(cursor);
      if !Truthy(token) {
        error := Some(UnexpectedError);
      } else {
        if isInitialLoad {
          loading := true;
        }
        match outcome {
          case Fetched(response) =>
            var merged := Merge(media, response.data);
            assert UniqueIds(media) && UniqueIds(response.data) ==> UniqueIds(merged) by {
              if UniqueIds(media) && UniqueIds(response.data) {
                MergeKeepsUniqueIds(media, response.data);
              }
            }
            media := merged;
            paging := response.paging;
            error := None;
          case HttpFailure(serverError) =>
            error := Some(if Truthy(serverError) then serverError.value else FailedToLoadMedia);
          case OtherFailure =>
            error := Some(UnexpectedError);
        }
      }
      if isInitialLoad {
        loading := false;
      }
      isLoadingMore := false;
    }

    /** `handleLoadMore`: when allowed, marks a load-more as pending and starts
        `loadMedia(paging.cursors.after)`; it returns the cursor requested, and the request
        completes with `LoadMedia`. When not allowed, it does nothing. */
    method HandleLoadMore() returns (request: Option<string>)
      modifies this
      ensures old(LoadMoreAllowed(paging, isLoadingMore)) ==>
        request == Some(old(paging).cursors.value.after) && isLoadingMore
      ensures !old(LoadMoreAllowed(paging, isLoadingMore)) ==>
        request == None && isLoadingMore == old(isLoadingMore)
      ensures request.Some? ==> Truthy(request)
      ensures media == old(media) && paging == old(paging) && loading == old(loading)
      ensures error == old(error) && selectedItem == old(selectedItem)
    {
      if LoadMoreAllowed(paging, isLoadingMore) {
        isLoadingMore := true;
        request := Some(paging.cursors.value.after);
      } else {
        request := None;
      }
    }

    /** Clicking a grid card opens it in the detail overlay. */
    method Select(item: Media)
      modifies this`selectedItem
      ensures selectedItem == Some(item)
    {
      selectedItem := Some(item);
    }

    /** Closing the detail overlay. */
    method CloseModal()
      modifies this`selectedItem
      ensures selectedItem == None
    {
      selectedItem := None;
    }
  }

  /** The first page always goes in whole, duplicates and all. */
  lemma {:induction false} MergeIntoEmpty(incoming: seq<Media>)
    ensures Merge([], incoming) == incoming
  {
    assert IdsOf([]) == {};
    KeepUnseenNothingSeen(incoming);
  }

  lemma {:induction false} KeepUnseenNothingSeen(incoming: seq<Media>)
    ensures KeepUnseen(incoming, {}) == incoming
  {
    if incoming != [] {
      KeepUnseenNothingSeen(incoming[1..]);
    }
  }

  /** The feed of two pages, `[a, b]` and then `[b, c]`, is `[a, b, c]`. */
  lemma TwoPageMerge(a: Media, b: Media, c: Media)
    requires a.id == "a" && b.id == "b" && c.id == "c"
    ensures Merge([], [a, b]) == [a, b]
    ensures Merge([a, b], [b, c]) == [a, b, c]
  {
    MergeIntoEmpty([a, b]);
    var seen := IdsOf([a, b]);
    assert "b" in seen by {
      assert b in [a, b];
    }
    assert "c" !in seen;
    assert [b, c][1..] == [c];
    KeepUnseenSingle(c, seen);
  }

  /** Two pages where the second repeats an item of the first: the feed ends as `[a, b, c]`, a
      second load-more while the first is pending issues nothing, and once the server stops
      sending a cursor no further load-more is issued. */
  method TwoPageScenario(a: Media, b: Media, c: Media, jar: CookieJar)
    returns (items: seq<Media>, whilePending: Option<string>, afterLast: Option<string>)
    requires a.id == "a" && b.id == "b" && c.id == "c" && Truthy(jar.Get(TokenCookie))
    ensures items == [a, b, c]
    ensures whilePending == None && afterLast == None
  {
    var g := new Gallery();
    g.LoadMedia(None, jar, Fetched(MediaResponse([a, b], Paging(Some(Cursors("c1")), Some("next")))));
    var request := g.HandleLoadMore();
    whilePending := g.HandleLoadMore();
    g.LoadMedia(request, jar, Fetched(MediaResponse([b, c], Paging(None, None))));
    TwoPageMerge(a, b, c);
    items := g.media;
    afterLast := g.HandleLoadMore();
  }
}
