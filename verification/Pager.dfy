/** Listing the unfinished multipart uploads of one object key, page by page. */
module Pager {
  import opened Common

  datatype Marker = Marker(key: string, id: nat)

  /** One listed upload; a provider may leave out either field. */
  datatype Listed = Listed(key: Option<string>, id: Option<nat>)

  /** A page; next is None when the provider sends no usable pair of markers. */
  datatype Page = Page(uploads: seq<Listed>, truncated: bool, next: Option<Marker>)

  /** What the provider answers to its n-th request with the given markers. */
  type Provider = (nat, Option<Marker>) -> Page

  datatype Listing = Ids(ids: seq<nat>) | PaginationError

  function Matching(page: Page, objectKey: string): set<nat> {
    set u | u in page.uploads && u.key == Some(objectKey) && u.id.Some? :: u.id.value
  }

  ghost predicate DrawsFrom(provider: Provider, markers: set<Marker>) {
    forall n, m :: provider(n, m).next.Some? ==> provider(n, m).next.value in markers
  }

  /** The ids on the pages from here on, or None when the provider makes no progress. */
  ghost function Walk(provider: Provider, objectKey: string, markers: set<Marker>, n: nat, at: Option<Marker>,
                      seen: set<Marker>): Option<set<nat>>
    requires DrawsFrom(provider, markers) && seen <= markers
    decreases markers - seen
  {
    var page := provider(n, at);
    if !page.truncated then Some(Matching(page, objectKey))
    else if page.next.None? || page.next.value in seen then None
    else
      var rest := Walk(provider, objectKey, markers, n + 1, page.next, seen + {page.next.value});
      if rest.None? then None else Some(Matching(page, objectKey) + rest.value)
  }

  ghost predicate SortedListOf(ids: seq<nat>, s: set<nat>) {
    && (forall i, j :: 0 <= i < j < |ids| ==> ids[i] < ids[j])
    && (forall x :: x in ids <==> x in s)
  }

  lemma {:induction false} Least(s: set<nat>) returns (least: nat)
    requires s != {}
    ensures least in s && forall y :: y in s ==> least <= y
  {
    var a :| a in s;
    var others := s - {a};
    least := a;
    if others != {} {
      var b := Least(others);
      least := if a <= b then a else b;
      forall y | y in s ensures least <= y {
        assert y == a || y in others;
      }
    } else {
      forall y | y in s ensures a <= y {
        assert y !in others;
      }
    }
  }

  method Sorted(s: set<nat>) returns (ids: seq<nat>)
    ensures SortedListOf(ids, s)
  {
    var left := s;
    ids := [];
    while left != {}
      invariant left <= s
      invariant forall i, j :: 0 <= i < j < |ids| ==> ids[i] < ids[j]
      invariant forall x :: x in ids <==> x in s - left
      invariant forall x, y :: x in ids && y in left ==> x < y
      decreases left
    {
      ghost var least := Least(left);
      var x :| x in left && forall y :: y in left ==> x <= y;
      assert forall i :: 0 <= i < |ids| ==> ids[i] in ids && ids[i] < x;
      left := left - {x};
      ids := ids + [x];
    }
  }

  /** Ends for every provider that draws its markers from a finite set: each page costs an unseen marker. */
  method ListMultipartUploads(provider: Provider, objectKey: string, ghost markers: set<Marker>) returns (r: Listing)
    requires DrawsFrom(provider, markers)
    ensures r.Ids? <==> Walk(provider, objectKey, markers, 0, None, {}).Some?
    ensures r.Ids? ==> SortedListOf(r.ids, Walk(provider, objectKey, markers, 0, None, {}).value)
  {
    var multipartIds: set<nat> := {};
    var seenMarkers: set<Marker> := {};
    var at: Option<Marker> := None;
    var n := 0;
    while true
      invariant seenMarkers <= markers
      invariant var total, rest := Walk(provider, objectKey, markers, 0, None, {}),
                                   Walk(provider, objectKey, markers, n, at, seenMarkers);
                total.Some? == rest.Some? && (rest.Some? ==> total.value == multipartIds + rest.value)
      decreases markers - seenMarkers
    {
      var page := provider(n, at);
      multipartIds := multipartIds + Matching(page, objectKey);
      if !page.truncated {
        var ids := Sorted(multipartIds);
        return Ids(ids);
      }
      if page.next.None? {
        return PaginationError;
      }
      var nextMarkers := page.next.value;
      if nextMarkers in seenMarkers {
        return PaginationError;
      }
      seenMarkers := seenMarkers + {nextMarkers};
      at := Some(nextMarkers);
      n := n + 1;
    }
  }

  // ----- a faithful provider -----

  function MarkerAt(uploads: seq<Marker>, i: nat): Option<Marker>
    requires i <= |uploads|
  {
    if i == 0 then None else Some(uploads[i - 1])
  }

  function AsListed(uploads: seq<Marker>): seq<Listed> {
    seq(|uploads|, i requires 0 <= i < |uploads| => Listed(Some(uploads[i].key), Some(uploads[i].id)))
  }

  function PageEnd(uploads: seq<Marker>, i: nat, extra: nat): (e: nat)
    requires i <= |uploads|
    ensures i <= e <= |uploads| && (i < |uploads| ==> i < e)
  {
    if i + 1 + extra < |uploads| then i + 1 + extra else |uploads|
  }

  /** Pages are consecutive stretches of one fixed list, of any sizes, each marked by its last entry. */
  ghost predicate Faithful(provider: Provider, uploads: seq<Marker>, extra: nat -> nat) {
    forall n: nat, i: nat :: i <= |uploads| ==>
      var e := PageEnd(uploads, i, extra(n));
      provider(n, MarkerAt(uploads, i)) == Page(AsListed(uploads[i..e]), e < |uploads|, MarkerAt(uploads, e))
  }

  function IdsOf(uploads: seq<Marker>, objectKey: string): set<nat> {
    set u | u in uploads && u.key == objectKey :: u.id
  }

  lemma MatchingListed(uploads: seq<Marker>, objectKey: string, page: Page)
    requires page.uploads == AsListed(uploads)
    ensures Matching(page, objectKey) == IdsOf(uploads, objectKey)
  {
    forall u | u in uploads && u.key == objectKey ensures u.id in Matching(page, objectKey) {
      var i :| 0 <= i < |uploads| && uploads[i] == u;
      assert page.uploads[i] in page.uploads;
    }
    forall x | x in Matching(page, objectKey) ensures x in IdsOf(uploads, objectKey) {
      var u :| u in page.uploads && u.key == Some(objectKey) && u.id == Some(x);
      var i :| 0 <= i < |page.uploads| && page.uploads[i] == u;
      assert uploads[i] in uploads;
    }
  }

  lemma {:induction false} WalkIsExact(provider: Provider, uploads: seq<Marker>, extra: nat -> nat, objectKey: string,
                                       markers: set<Marker>, n: nat, i: nat, seen: set<Marker>)
    requires DrawsFrom(provider, markers) && seen <= markers
    requires Faithful(provider, uploads, extra) && Distinct(uploads) && i <= |uploads|
    requires forall m :: m in seen ==> m in uploads[..i]
    ensures Walk(provider, objectKey, markers, n, MarkerAt(uploads, i), seen) == Some(IdsOf(uploads[i..], objectKey))
    decreases |uploads| - i
  {
    var e := PageEnd(uploads, i, extra(n));
    var page := provider(n, MarkerAt(uploads, i));
    assert page == Page(AsListed(uploads[i..e]), e < |uploads|, MarkerAt(uploads, e));
    MatchingListed(uploads[i..e], objectKey, page);
    assert uploads[i..] == uploads[i..e] + uploads[e..];
    if e < |uploads| {
      var next := uploads[e - 1];
      NextIsUnseen(uploads, i, e, seen);
      WalkIsExact(provider, uploads, extra, objectKey, markers, n + 1, e, seen + {next});
      assert IdsOf(uploads[i..], objectKey) == IdsOf(uploads[i..e], objectKey) + IdsOf(uploads[e..], objectKey);
    } else {
      assert uploads[i..e] == uploads[i..];
    }
  }

  /** The marker of a page end was not seen before, and all seen markers lie before it. */
  lemma NextIsUnseen(uploads: seq<Marker>, i: nat, e: nat, seen: set<Marker>)
    requires Distinct(uploads) && i < e <= |uploads|
    requires forall m :: m in seen ==> m in uploads[..i]
    ensures uploads[e - 1] !in seen
    ensures forall m :: m in seen + {uploads[e - 1]} ==> m in uploads[..e]
  {
    assert forall m :: m in uploads[..i] ==> m in uploads[..e];
    assert uploads[e - 1] == uploads[..e][e - 1];
  }

  /**
   * Over a faithful provider, whatever its page sizes, the listing is exactly the uploads whose key is
   * the object key, although the provider lists every key that starts with it.
   */
  lemma ListingIsExact(provider: Provider, uploads: seq<Marker>, extra: nat -> nat, objectKey: string,
                       markers: set<Marker>, active: set<Marker>)
    requires DrawsFrom(provider, markers) && Faithful(provider, uploads, extra) && Distinct(uploads)
    requires forall m :: m in uploads <==> m in active && objectKey <= m.key
    ensures Walk(provider, objectKey, markers, 0, None, {}) == Some(set m | m in active && m.key == objectKey :: m.id)
  {
    WalkIsExact(provider, uploads, extra, objectKey, markers, 0, 0, {});
    assert uploads[0..] == uploads;
    assert IdsOf(uploads, objectKey) == set m | m in active && m.key == objectKey :: m.id;
  }
}
