# Video relay and playlist store — a Dafny model

The system is a small Flask backend (`youtube.py`). It relays pages of videos from an
upstream video API, filtering a page locally by a search query. It also keeps named
playlists of video records in a single JSON document that every request reads in full and
every mutating request writes back in full.

This project models the logic of the four route handlers, separated from HTTP and files:

- `sequences.dfy` (module `Sequences`): order-preserving filtering, the meaning of a
  Python list comprehension with an `if`. Both the search filter and the removal of a
  video from a playlist are instances of it.
- `text.dfy` (module `Text`): `str.lower()` restricted to ASCII, and Python's substring
  test `q in s`. The test is proved equal to a positional definition ("there is an index
  where `q` occurs").
- `search.dfy` (module `Search`): `/videos` after the upstream page has been fetched. The
  query is lowercased once. An empty query returns the page untouched. A non-empty query
  keeps the videos whose lowercased title or description contains it and sets
  `meta.total` to the number kept.
- `playlists.dfy` (module `Playlists`): the playlist document as the `playlists` field of
  a `Store` class. The counter `saves` records each time a handler writes the document
  back. The handlers are the methods `Upsert`, `Get`, `Delete`, `RemoveVideo` and
  `ListAll`. The upsert's record-building `for` loop is the method `BuildRecords`. The
  class invariant `Valid` says every stored record has `video_id == id` and zero likes
  and comments, and every mutating handler preserves it.

Inputs the handlers read from outside are parameters:

- the fetched upstream page is the `data` argument of `SearchPage`;
- the JSON request body is an `UpsertRequest` value, with absent keys as `None`;
- the document found on disk at start-up is the constructor's argument, and `None`
  means no file;
- the wall clock is a function `clock: nat -> string`, where `clock(n)` is the n-th
  reading. Video `k` of an upsert takes readings `2k` (`created_at`) and `2k + 1`
  (`updated_at`), in the order the dictionary literal evaluates them.

Behaviour taken from the code where the prose description is silent:

- A request without `name` stores its playlist under the Python key `None`. `json.dump`
  writes that key as `"null"`, so the persisted key is `"null"`. The confirmation
  message renders the name as `None` (`NameKey`, `NameText`).
- A video missing both `id` and `title` raises `KeyError('id')`, because `id` is looked
  up first. The first incomplete video aborts the whole request. Nothing is stored or
  saved, and the error surfaces as a server error.
- The remove-video handler saves the document even when no record matched.

## Model

| member | source | states |
|---|---|---|
| Sequences.Filter | youtube.py:34 | the comprehension result is no longer than its input; every element it holds comes from the input and satisfies the condition; every input element that satisfies the condition is in it |
| Sequences.FilterIsSubsequence | youtube.py:34 | the comprehension result is a subsequence of its input: relative order kept, no new elements |
| Sequences.FilterCount | youtube.py:84 | each value that satisfies the condition is kept exactly as many times as it occurs in the input; every other value occurs zero times |
| Sequences.FilterKeepsAll | youtube.py:84 | a condition that rejects no element returns the input unchanged |
| Sequences.FilterIdempotent | youtube.py:34 | filtering twice with the same condition equals filtering once |
| Text.Lower | youtube.py:29 | lowercasing keeps the length, maps each character through ASCII lowercase, and leaves no upper-case letter |
| Text.LowerIdempotent | youtube.py:29 | lowercasing an already lowercased string changes nothing |
| Text.ContainsIff | youtube.py:34 | the substring test `q in s` holds exactly when `q` occurs in `s` at some index, in both directions |
| Search.FilterVideos | youtube.py:34 | the filtered videos are a subsequence of the page; each kept video matches the query in title or description; each matching video is kept |
| Search.FilterVideosMembership | youtube.py:34 | a video is in the filtered list if and only if it is on the page and matches |
| Search.SearchPage | youtube.py:29-35 | an empty query returns the page unchanged; a non-empty query gives `meta.total` equal to the number of videos kept, with the rest of `meta` unchanged; the result is a subsequence of the page; a page video is kept if and only if the query is empty or its lowercase form matches the video |
| Search.SearchKeepsExactlyMatches | youtube.py:33-34 | with a non-empty query, a video is in the result if and only if it is on the page and the lowercased query is a substring of its lowercased title or description |
| Search.SearchIdempotent | youtube.py:33-35 | repeating the same search on its own result changes neither the videos nor `meta` |
| Search.SearchIgnoresQueryCase | youtube.py:29 | a query and its lowercase form give the same result |
| Search.CatsAndDogs | youtube.py:29-35 | on a page with "Cats" and "Dogs", the query "cat" keeps only "Cats" and sets the total to 1 |
| Playlists.FormatVideo | youtube.py:48-59 | a record is built exactly when the input has `id` and `title`, otherwise `KeyError('id')` (checked first) or `KeyError('title')`; the built record has `video_id == id ==` the input id, the input title, zero likes and comments, description and thumbnail URL defaulting to empty, views defaulting to 0, and the two given timestamps |
| Playlists.BuildRecords | youtube.py:46-60 | succeeds exactly when every input video has `id` and `title`; then the records match the inputs one for one, in order, each built from its video and its own two clock readings, all well formed; otherwise the error is the `KeyError` of the first incomplete video |
| Playlists.WithoutVideo | youtube.py:84 | the new list is a subsequence of the old; no record in it has the removed `video_id`; every record with another `video_id` is kept |
| Playlists.WithoutVideoIdempotent | youtube.py:84 | removing the same video twice equals removing it once |
| Playlists.WithoutAbsentVideo | youtube.py:84 | an id that matches no record leaves the list unchanged |
| Playlists.WithoutVideoCount | youtube.py:84 | each record with another `video_id` keeps its number of occurrences; records with the removed `video_id` occur zero times |
| Playlists.WithoutVideoWellFormed | youtube.py:84 | removing a video from a list of well-formed records leaves well-formed records |
| Playlists.Store.constructor | youtube.py:12-16 | the store starts as the document on disk, or empty when there is no file, with no saves |
| Playlists.Store.ListAll | youtube.py:64 | returns the whole document; nothing is written |
| Playlists.Store.Upsert | youtube.py:41-63 | if every video has `id` and `title`: the name's key is bound to exactly as many records as input videos, in order, each built from its video; the new list replaces any earlier one with no merge; every other playlist is unchanged; one save; the confirmation message. Otherwise: the document is unchanged, nothing is saved, and a server error names the first incomplete video's missing key. Well-formedness of the store is preserved |
| Playlists.Store.Get | youtube.py:69-72 | returns the playlist's records when the name is present and "Playlist not found" otherwise; the store is not modified |
| Playlists.Store.Delete | youtube.py:74-78 | a present name is removed with all other playlists unchanged, one save, and the deletion message; an absent name gives "Playlist not found" with the document unchanged and no save; afterwards the name is absent either way |
| Playlists.Store.RemoveVideo | youtube.py:82-87 | a present playlist's list becomes `WithoutVideo` of the old list, other playlists are unchanged, there is one save and the removal message, also when nothing matched; an absent playlist gives "Playlist not found" with no change and no save |

`Playlists.FavesScenario` and `Playlists.ReplaceScenario` compose these contracts on the
documented sequences of calls. An upsert followed by a get returns one record with
`video_id` "v1", views 0 and likes 0. A delete makes the next get answer "Playlist not
found". A second upsert under the same name keeps only the second list.

## Left out

- HTTP routing, request parsing, `jsonify` and status codes: responses are a `Response`
  datatype. An uncaught `KeyError` (an HTTP 500) is `ServerError`.
- The upstream `requests.get` call and `response.json()` (network I/O): the fetched page
  is an input. Upstream failures and malformed pages are not modelled. `Video` always
  has a title and a description, so the `KeyError` that the source raises when a
  non-matching video lacks `description` is not captured.
- The `page` query argument and its integer parsing: it only selects the upstream page.
- `load_playlists`/`save_playlists` and the JSON file (disk I/O): the document is the
  in-memory `playlists` field, and a save is a `saves` increment. The JSON round trip is
  assumed to give back the same mapping. The one visible effect of the serialiser, the
  `None` key written as "null", is modelled.
- JSON's dynamic typing: ids, titles and names are strings, and views are integers.
  Explicit `null` values, a non-string `id`, a missing request body and a `videos` value
  that is not a list are not modelled. So a record whose numeric `video_id` can never
  equal the URL's string id is not captured.
- Records in a hand-edited document that lack `video_id`: `Record` always has one.
- `datetime.now().isoformat()`: a clock function supplies opaque timestamp strings.
- Text.Lower: does not model Unicode `str.lower()`. Only ASCII `A`–`Z` are lowercased;
  every other character is unchanged.
- Concurrency: concurrent requests race on the file with last-writer-wins. Each method
  here is one whole request.
- The HTML/JS template (presentation code running in the browser).
