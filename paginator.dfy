/** The paginator: `recursiveFetchSpotify` in main.ts. The HTTP fetch is
    replaced by an oracle `pages`, where `pages[i]` is the response for the
    request at offset `PageSize * i`; the model records every request and
    every progress report in order as a trace of events. */
module Paginator {
  import opened Tracks

  /** The fixed step between the offsets of consecutive requests. */
  const PageSize: nat := 20

  /** What the paginator does besides computing its result: a page request
      at an offset, or a progress report `(total, current)`. */
  datatype Event = Fetch(offset: nat) | Report(total: nat, current: nat)

  /** The collected records and the events that produced them. */
  datatype Export = Export(items: seq<TrackItem>, trace: seq<Event>)

  /** Some page at index `i` or later says there is no next page, so
      pagination started at `i` stops. */
  predicate HasLastPage(pages: seq<Page>, i: nat)
  {
    exists j :: i <= j < |pages| && !pages[j].next
  }

  /** The index of the first page at or after `i` without a next page:
      the last page a run started at `i` fetches. */
  function LastPage(pages: seq<Page>, i: nat): (s: nat)
    requires HasLastPage(pages, i)
    ensures i <= s < |pages| && !pages[s].next
    ensures forall j :: i <= j < s ==> pages[j].next
    decreases |pages| - i
  {
    if !pages[i].next then i else LastPage(pages, i + 1)
  }

  /** `recursiveFetchSpotify(token, PageSize * i)`: fetch the page, and when
      it has a next page report progress with its total and the current
      offset, then prepend its records to those of the following pages. */
  function FetchFrom(pages: seq<Page>, i: nat): (r: Export)
    requires HasLastPage(pages, i)
    ensures r.trace != [] && r.trace[0] == Fetch(PageSize * i)
    decreases |pages| - i
  {
    var page := pages[i];
    var offset := PageSize * i;
    if page.next then
      var rest := FetchFrom(pages, i + 1);
      Export(PrepareTrackData(page) + rest.items, [Fetch(offset), Report(page.total, offset)] + rest.trace)
    else
      Export(PrepareTrackData(page), [Fetch(offset)])
  }

  /** The whole export, started at offset 0 as `run` does: the records of
      pages 0 up to the first page without a next page, in order, and a
      trace that alternates the requests at offsets 0, 20, 40, ... with one
      progress report after each page that has a next page. */
  function ExportAll(pages: seq<Page>): (r: Export)
    requires HasLastPage(pages, 0)
    ensures var s := LastPage(pages, 0);
      && r.items == ConcatProjected(pages[..s + 1])
      && |r.trace| == 2 * s + 1
      && forall k :: 0 <= k < |r.trace| ==> r.trace[k] == ExpectedEvent(pages, 0, k)
  {
    FetchFromSpec(pages, 0);
    assert pages[0..LastPage(pages, 0) + 1] == pages[..LastPage(pages, 0) + 1];
    FetchFrom(pages, 0)
  }

  /** The records of some pages, page after page. */
  function ConcatProjected(ps: seq<Page>): seq<TrackItem>
  {
    if ps == [] then [] else PrepareTrackData(ps[0]) + ConcatProjected(ps[1..])
  }

  /** The number of raw entries in some pages. */
  function TotalItems(ps: seq<Page>): nat
  {
    if ps == [] then 0 else |ps[0].items| + TotalItems(ps[1..])
  }

  /** The event at position `k` of the trace of a run started at page `i`:
      even positions are the requests at offsets PageSize * i, PageSize * (i + 1), ...,
      and each odd position reports the total of the page fetched just
      before it with that page's offset. */
  function ExpectedEvent(pages: seq<Page>, i: nat, k: nat): Event
    requires 2 * i + k < 2 * |pages|
  {
    var j := i + k / 2;
    if k % 2 == 0 then Fetch(PageSize * j) else Report(pages[j].total, PageSize * j)
  }

  /** The offsets requested, in order. */
  function Offsets(trace: seq<Event>): seq<nat>
  {
    if trace == [] then []
    else if trace[0].Fetch? then [trace[0].offset] + Offsets(trace[1..])
    else Offsets(trace[1..])
  }

  /** The progress reports, in order. */
  function Reports(trace: seq<Event>): seq<Event>
  {
    if trace == [] then []
    else if trace[0].Report? then [trace[0]] + Reports(trace[1..])
    else Reports(trace[1..])
  }

  /** Two positions further on, a run started one page later. */
  lemma ExpectedEventShift(pages: seq<Page>, i: nat, k: nat)
    requires 2 <= k && 2 * i + k < 2 * |pages|
    ensures ExpectedEvent(pages, i + 1, k - 2) == ExpectedEvent(pages, i, k)
  {
  }

  lemma ConcatProjectedCons(p: Page, ps: seq<Page>)
    ensures ConcatProjected([p] + ps) == PrepareTrackData(p) + ConcatProjected(ps)
  {
  }

  /** A run started at page `i` fetches exactly the pages `i` up to its
      last page: its records are theirs, concatenated in order, and its
      trace alternates requests at consecutive offsets with one progress
      report for each page that has a next page. */
  lemma {:induction false} FetchFromSpec(pages: seq<Page>, i: nat)
    requires HasLastPage(pages, i)
    ensures var r, s := FetchFrom(pages, i), LastPage(pages, i);
      && r.items == ConcatProjected(pages[i..s + 1])
      && |r.trace| == 2 * (s - i) + 1
      && forall k :: 0 <= k < |r.trace| ==> r.trace[k] == ExpectedEvent(pages, i, k)
    decreases |pages| - i
  {
    var r, s := FetchFrom(pages, i), LastPage(pages, i);
    if !pages[i].next {
      assert pages[i..s + 1] == [pages[i]];
      ConcatProjectedCons(pages[i], []);
    } else {
      FetchFromSpec(pages, i + 1);
      var rest := FetchFrom(pages, i + 1);
      assert LastPage(pages, i + 1) == s;
      assert pages[i..s + 1] == [pages[i]] + pages[i + 1..s + 1];
      ConcatProjectedCons(pages[i], pages[i + 1..s + 1]);
      forall k | 2 <= k < |r.trace|
        ensures r.trace[k] == ExpectedEvent(pages, i, k)
      {
        assert r.trace[k] == rest.trace[k - 2];
        ExpectedEventShift(pages, i, k);
      }
    }
  }

  /** The requests are made at offsets PageSize * i, PageSize * (i + 1), ...,
      up to and including the last page's offset, and there is one progress
      report fewer than there are requests. */
  lemma {:induction false} FetchFromCounts(pages: seq<Page>, i: nat)
    requires HasLastPage(pages, i)
    ensures var r, s := FetchFrom(pages, i), LastPage(pages, i);
      && Offsets(r.trace) == seq(s - i + 1, k requires 0 <= k => PageSize * (i + k))
      && |Reports(r.trace)| == s - i
    decreases |pages| - i
  {
    var r, s := FetchFrom(pages, i), LastPage(pages, i);
    if pages[i].next {
      FetchFromCounts(pages, i + 1);
      var rest := FetchFrom(pages, i + 1);
      var t := [Fetch(PageSize * i), Report(pages[i].total, PageSize * i)] + rest.trace;
      assert t[1..] == [Report(pages[i].total, PageSize * i)] + rest.trace;
      assert t[1..][1..] == rest.trace;
    } else {
      assert [Fetch(PageSize * i)][1..] == [];
    }
  }

  /** The pages after the last one fetched play no part: two oracles that
      agree up to it give the same export. */
  lemma {:induction false} LaterPagesIgnored(pages: seq<Page>, other: seq<Page>, i: nat)
    requires HasLastPage(pages, i)
    requires LastPage(pages, i) < |other|
    requires forall j :: i <= j <= LastPage(pages, i) ==> other[j] == pages[j]
    ensures HasLastPage(other, i)
    ensures FetchFrom(other, i) == FetchFrom(pages, i)
    decreases |pages| - i
  {
    var s := LastPage(pages, i);
    assert !other[s].next;
    if pages[i].next {
      LaterPagesIgnored(pages, other, i + 1);
    }
  }

  /** The records of some pages are as many as their raw entries. */
  lemma {:induction false} ConcatProjectedLength(ps: seq<Page>)
    ensures |ConcatProjected(ps)| == TotalItems(ps)
  {
    if ps != [] {
      ConcatProjectedLength(ps[1..]);
    }
  }

  /** The counts of the whole export: one record per raw entry of the pages
      0 up to the first page without a next page, requests at offsets 0, 20,
      40, ... and one progress report for each page that has a next page. */
  lemma ExportAllSpec(pages: seq<Page>)
    requires HasLastPage(pages, 0)
    ensures var r, s := ExportAll(pages), LastPage(pages, 0);
      && |r.items| == TotalItems(pages[..s + 1])
      && Offsets(r.trace) == seq(s + 1, k requires 0 <= k => PageSize * k)
      && |Reports(r.trace)| == s
  {
    var s := LastPage(pages, 0);
    FetchFromCounts(pages, 0);
    ConcatProjectedLength(pages[..s + 1]);
    assert seq(s + 1, k requires 0 <= k => PageSize * (0 + k)) == seq(s + 1, k requires 0 <= k => PageSize * k);
  }

  /** When the first page has no next page, exactly one request is made, no
      progress is reported and the result is that page's records. */
  lemma SinglePage(pages: seq<Page>)
    requires |pages| > 0 && !pages[0].next
    ensures HasLastPage(pages, 0)
    ensures ExportAll(pages) == Export(PrepareTrackData(pages[0]), [Fetch(0)])
  {
  }

  /** Two pages, the first with a next page: two requests, at offsets 0 and
      20, with a single progress report between them carrying the first
      page's total and offset 0; the records of both pages, in order. */
  lemma TwoPages(pages: seq<Page>)
    requires |pages| >= 2 && pages[0].next && !pages[1].next
    ensures HasLastPage(pages, 0)
    ensures ExportAll(pages).trace == [Fetch(0), Report(pages[0].total, 0), Fetch(20)]
    ensures ExportAll(pages).items == PrepareTrackData(pages[0]) + PrepareTrackData(pages[1])
    ensures |ExportAll(pages).items| == |pages[0].items| + |pages[1].items|
  {
    assert HasLastPage(pages, 1);
    assert FetchFrom(pages, 1) == Export(PrepareTrackData(pages[1]), [Fetch(20)]);
  }
}
