/** The `/videos` relay after the upstream page has been fetched: the local,
    case-insensitive search filter over one page and the recount of `meta.total`. */
module Search {
  import opened Text
  import opened Sequences

  /** One video record of the upstream page (the fields the relay passes on). */
  datatype Video = Video(id: string, title: string, description: string, thumbnailUrl: string, views: int)

  /** The page metadata; `total` is the only field the relay rewrites. */
  datatype Meta = Meta(total: int, page: int)

  /** The decoded upstream response `{videos: [...], meta: {...}}`. */
  datatype VideoPage = VideoPage(videos: seq<Video>, meta: Meta)

  /** A video is kept when the (already lowercased) query occurs in its lowercased
      title or in its lowercased description. */
  predicate Matches(query: string, v: Video)
  {
    Contains(Lower(v.title), query) || Contains(Lower(v.description), query)
  }

  /** The list comprehension that keeps the matching videos of the page. */
  function FilterVideos(query: string, videos: seq<Video>): (r: seq<Video>)
    ensures IsSubsequence(r, videos)
    ensures forall i :: 0 <= i < |r| ==> r[i] in videos && Matches(query, r[i])
    ensures forall i :: 0 <= i < |videos| && Matches(query, videos[i]) ==> videos[i] in r
  {
    FilterIsSubsequence(v => Matches(query, v), videos);
    Filter(v => Matches(query, v), videos)
  }

  /** The response of `/videos` for the fetched page `data` and the raw query string `q`:
      the query is lowercased once; an empty query returns the page untouched, a non-empty
      one filters the videos and sets `meta.total` to the number kept. */
  function SearchPage(data: VideoPage, q: string): (r: VideoPage)
    ensures q == [] ==> r == data
    ensures q != [] ==> r.meta == data.meta.(total := |r.videos|)
    ensures IsSubsequence(r.videos, data.videos)
    ensures forall i :: 0 <= i < |data.videos| ==>
              (data.videos[i] in r.videos <==> q == [] || Matches(Lower(q), data.videos[i]))
  {
    var query := Lower(q);
    if query != [] then
      var kept := FilterVideos(query, data.videos);
      data.(videos := kept, meta := data.meta.(total := |kept|))
    else
      SubsequenceReflexive(data.videos);
      data
  }

  /** A video is in the filtered list exactly when it is on the page and matches. */
  lemma FilterVideosMembership(query: string, videos: seq<Video>, v: Video)
    ensures v in FilterVideos(query, videos) <==> v in videos && Matches(query, v)
  {
    var r := FilterVideos(query, videos);
    if v in r {
      var i :| 0 <= i < |r| && r[i] == v;
    } else if v in videos {
      var i :| 0 <= i < |videos| && videos[i] == v;
    }
  }

  /** A video is in the result of a non-empty search exactly when it is on the page and
      the lowercased query is a substring of its lowercased title or description. */
  lemma SearchKeepsExactlyMatches(data: VideoPage, q: string, v: Video)
    requires q != []
    ensures v in SearchPage(data, q).videos <==>
              v in data.videos &&
              (Contains(Lower(v.title), Lower(q)) || Contains(Lower(v.description), Lower(q)))
  {
    var query := Lower(q);
    assert |query| == |q|;
    assert SearchPage(data, q).videos == FilterVideos(query, data.videos);
    FilterVideosMembership(query, data.videos, v);
  }

  /** Repeating the same search on its own result changes nothing, `meta.total` included. */
  lemma SearchIdempotent(data: VideoPage, q: string)
    ensures SearchPage(SearchPage(data, q), q) == SearchPage(data, q)
  {
    var query := Lower(q);
    if query != [] {
      FilterIdempotent(v => Matches(query, v), data.videos);
    }
  }

  /** The search is case-insensitive in the query: it behaves as its lowercase form. */
  lemma SearchIgnoresQueryCase(data: VideoPage, q: string)
    ensures SearchPage(data, q) == SearchPage(data, Lower(q))
  {
    LowerIdempotent(q);
  }

  /** The example of a page with "Cats" and "Dogs" searched for "cat": only "Cats" is
      returned and the total becomes 1. */
  lemma CatsAndDogs()
    ensures var cats := Video("1", "Cats", "", "", 0);
            var dogs := Video("2", "Dogs", "", "", 0);
            SearchPage(VideoPage([cats, dogs], Meta(2, 1)), "cat") == VideoPage([cats], Meta(1, 1))
  {
  }
}
