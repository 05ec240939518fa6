/** Watchlist enrichment: each watchlist of the listing gets a `posterUrl`
    resolved from the metadata of its first title, with a fixed fallback. */
module Enrichment {
  import opened Records

  /** The settled outcome of one title-metadata request: the response's
      `poster` field (which may itself be missing), or a failed request. */
  datatype Lookup = Found(poster: Option<string>) | Failed

  /** Outcome of the request that the watchlist at a given position of the
      listing makes for a given title id. Each watchlist makes its own
      request, so two watchlists asking for the same title may see
      different outcomes. */
  type Lookups = (nat, string) -> Lookup

  /** The title id the watchlist's request is keyed by; None when no request is made. */
  function RequestKey(w: Watchlist): Option<string>
  {
    if |w.titles| > 0 then Some(w.titles[0]) else None
  }

  /** The copy of one watchlist, at position `at`, with its poster resolved. */
  function EnrichOne(w: Watchlist, at: nat, lookup: Lookups): (r: Watchlist)
    ensures r == w.(posterUrl := r.posterUrl)
    ensures |w.titles| == 0 ==> r.posterUrl == Some(FallbackTitleImage)
    ensures |w.titles| > 0 && lookup(at, w.titles[0]).Failed? ==> r.posterUrl == Some(FallbackTitleImage)
    ensures |w.titles| > 0 && lookup(at, w.titles[0]).Found? ==> r.posterUrl == lookup(at, w.titles[0]).poster
  {
    if |w.titles| > 0 then
      match lookup(at, w.titles[0])
      case Found(poster) => w.(posterUrl := poster)
      case Failed => w.(posterUrl := Some(FallbackTitleImage))
    else
      w.(posterUrl := Some(FallbackTitleImage))
  }

  /** The enriched listing: same length and order, only `posterUrl` set. */
  function Enrich(ws: seq<Watchlist>, lookup: Lookups): (r: seq<Watchlist>)
    ensures |r| == |ws|
    ensures forall i :: 0 <= i < |ws| ==> r[i] == ws[i].(posterUrl := r[i].posterUrl)
    ensures forall i :: 0 <= i < |ws| && |ws[i].titles| == 0 ==> r[i].posterUrl == Some(FallbackTitleImage)
    ensures forall i :: 0 <= i < |ws| && |ws[i].titles| > 0 && lookup(i, ws[i].titles[0]).Failed? ==>
              r[i].posterUrl == Some(FallbackTitleImage)
    ensures forall i :: 0 <= i < |ws| && |ws[i].titles| > 0 && lookup(i, ws[i].titles[0]).Found? ==>
              r[i].posterUrl == lookup(i, ws[i].titles[0]).poster
  {
    seq(|ws|, i requires 0 <= i < |ws| => EnrichOne(ws[i], i, lookup))
  }

  /** Enrichment depends on the lookups only through each watchlist's
      request for its first title, and not at all for a watchlist with no
      titles: two lookups that agree on those requests enrich alike. */
  lemma EnrichReadsOnlyFirstTitles(ws: seq<Watchlist>, l1: Lookups, l2: Lookups)
    requires forall i :: 0 <= i < |ws| && RequestKey(ws[i]).Some? ==>
               l1(i, RequestKey(ws[i]).value) == l2(i, RequestKey(ws[i]).value)
    ensures Enrich(ws, l1) == Enrich(ws, l2)
  {
  }

  /** A failing (or otherwise different) request of the watchlist at
      position `k` changes no other watchlist's enrichment; a failure there
      gives that watchlist the fallback poster. */
  lemma EnrichFailureIsolated(ws: seq<Watchlist>, lookup: Lookups, k: nat)
    requires k < |ws| && |ws[k].titles| > 0
    ensures var failing := (i: nat, t: string) => if i == k then Failed else lookup(i, t);
            var r, r' := Enrich(ws, lookup), Enrich(ws, failing);
            r'[k].posterUrl == Some(FallbackTitleImage) &&
            forall i :: 0 <= i < |ws| && i != k ==> r'[i] == r[i]
  {
  }

  /** After enrichment a watchlist lacks a poster only when its lookup
      succeeded without one. */
  lemma EnrichedPosterAbsentOnlyIfMissing(ws: seq<Watchlist>, lookup: Lookups, i: nat)
    requires i < |ws|
    ensures Enrich(ws, lookup)[i].posterUrl.None? ==>
              |ws[i].titles| > 0 && lookup(i, ws[i].titles[0]) == Found(None)
  {
  }

  /** The image a watchlist card shows: `posterUrl || fallback`. */
  function Thumbnail(w: Watchlist): (r: string)
    ensures r != ""
    ensures w.posterUrl.Some? && w.posterUrl.value != "" ==> r == w.posterUrl.value
    ensures w.posterUrl.None? || w.posterUrl.value == "" ==> r == FallbackTitleImage
  {
    match w.posterUrl
    case Some(p) => if p != "" then p else FallbackTitleImage
    case None => FallbackTitleImage
  }

  /** Every enriched watchlist shows either its resolved poster or the
      fallback image, and the fallback whenever it had no titles or its
      lookup failed. */
  lemma EnrichedThumbnail(ws: seq<Watchlist>, lookup: Lookups, i: nat)
    requires i < |ws|
    ensures var t := Thumbnail(Enrich(ws, lookup)[i]);
            (t == FallbackTitleImage || (|ws[i].titles| > 0 && lookup(i, ws[i].titles[0]) == Found(Some(t)))) &&
            (|ws[i].titles| == 0 || lookup(i, ws[i].titles[0]).Failed? ==> t == FallbackTitleImage)
  {
  }
}
