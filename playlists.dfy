/** The playlist store behind `/playlists`: a document mapping each playlist name to
    an ordered list of video records, read in full and written back in full by every
    mutating handler. The document is the `playlists` field of a `Store`; `saves`
    counts the times a handler wrote it back. */
module Playlists {
  import opened Sequences

  datatype Option<T> = None | Some(value: T)
  {
    /** `dict.get(key, default)` */
    function GetOr(default: T): T
    {
      match this
      case Some(v) => v
      case None => default
    }
  }

  /** A computation that either yields a value or raises `KeyError(key)`. */
  datatype Result<T> = Ok(value: T) | KeyError(key: string)

  /** One entry of the request's `videos` list; a field absent from the JSON is `None`. */
  datatype InputVideo = InputVideo(
    id: Option<string>,
    title: Option<string>,
    description: Option<string>,
    thumbnailUrl: Option<string>,
    views: Option<int>)

  /** The JSON body of a POST to `/playlists`: `{name, videos}`, either of which may be absent. */
  datatype UpsertRequest = UpsertRequest(name: Option<string>, videos: Option<seq<InputVideo>>)

  /** A stored playlist video record, its fields in the order the handler writes them. */
  datatype Record = Record(
    comments: int,
    createdAt: string,
    description: string,
    id: string,
    likes: int,
    thumbnailUrl: string,
    title: string,
    updatedAt: string,
    videoId: string,
    views: int)

  /** What a handler answers: a `{message}` body, a playlist's records,
      a 404 `{error}` body, or the server error an uncaught `KeyError` becomes. */
  datatype Response =
    | Message(text: string)
    | Records(records: seq<Record>)
    | NotFound(error: string)
    | ServerError(missingKey: string)

  const NotFoundText := "Playlist not found"

  /** A record as the upsert handler builds it: `video_id` duplicates `id`, and likes and
      comments are always zero. */
  predicate WellFormed(r: Record)
  {
    r.id == r.videoId && r.likes == 0 && r.comments == 0
  }

  predicate AllWellFormed(records: seq<Record>)
  {
    forall k :: 0 <= k < |records| ==> WellFormed(records[k])
  }

  /** The input carries the two keys the handler indexes without a default. */
  predicate HasRequiredKeys(v: InputVideo)
  {
    v.id.Some? && v.title.Some?
  }

  predicate AllHaveRequiredKeys(videos: seq<InputVideo>)
  {
    forall k :: 0 <= k < |videos| ==> HasRequiredKeys(videos[k])
  }

  /** The record built from one input video with the two clock readings taken for it.
      `id` is looked up before `title`, so a video missing both raises `KeyError('id')`. */
  function FormatVideo(v: InputVideo, createdAt: string, updatedAt: string): (r: Result<Record>)
    ensures r.Ok? <==> HasRequiredKeys(v)
    ensures r.KeyError? ==> r.key == (if v.id.None? then "id" else "title")
    ensures r.Ok? ==> WellFormed(r.value)
    ensures r.Ok? ==> r.value.videoId == v.id.value && r.value.title == v.title.value
    ensures r.Ok? ==> (r.value.description == v.description.GetOr("")
                       && r.value.thumbnailUrl == v.thumbnailUrl.GetOr("")
                       && r.value.views == v.views.GetOr(0))
    ensures r.Ok? ==> r.value.createdAt == createdAt && r.value.updatedAt == updatedAt
  {
    match (v.id, v.title)
    case (None, _) => KeyError("id")
    case (Some(_), None) => KeyError("title")
    case (Some(id), Some(title)) =>
      Ok(Record(0, createdAt, v.description.GetOr(""), id, 0, v.thumbnailUrl.GetOr(""),
                title, updatedAt, id, v.views.GetOr(0)))
  }

  /** The loop that formats every input video in order. `clock(n)` is the n-th reading of
      the current time; video `k` takes readings `2k` (created_at) and `2k + 1` (updated_at).
      The first video missing `id` or `title` aborts the loop with its `KeyError`. */
  method BuildRecords(videos: seq<InputVideo>, clock: nat -> string) returns (r: Result<seq<Record>>)
    ensures r.Ok? <==> AllHaveRequiredKeys(videos)
    ensures r.Ok? ==> |r.value| == |videos|
    ensures r.Ok? ==> forall k :: 0 <= k < |videos| ==>
                        FormatVideo(videos[k], clock(2 * k), clock(2 * k + 1)) == Ok(r.value[k])
    ensures r.Ok? ==> AllWellFormed(r.value)
    ensures r.KeyError? ==> exists k :: 0 <= k < |videos| && !HasRequiredKeys(videos[k])
                              && (forall j :: 0 <= j < k ==> HasRequiredKeys(videos[j]))
                              && r.key == FormatVideo(videos[k], clock(2 * k), clock(2 * k + 1)).key
  {
    var formatted: seq<Record> := [];
    var k := 0;
    while k < |videos|
      invariant 0 <= k <= |videos|
      invariant |formatted| == k
      invariant forall j :: 0 <= j < k ==> HasRequiredKeys(videos[j])
      invariant forall j :: 0 <= j < k ==>
                  FormatVideo(videos[j], clock(2 * j), clock(2 * j + 1)) == Ok(formatted[j])
    {
      var f := FormatVideo(videos[k], clock(2 * k), clock(2 * k + 1));
      if f.KeyError? {
        return KeyError(f.key);
      }
      formatted := formatted + [f.value];
      k := k + 1;
    }
    return Ok(formatted);
  }

  /** The list comprehension of the remove-video handler: the records whose `video_id`
      differs from `videoId`, in their original order. */
  function WithoutVideo(records: seq<Record>, videoId: string): (r: seq<Record>)
    ensures IsSubsequence(r, records)
    ensures forall k :: 0 <= k < |r| ==> r[k].videoId != videoId
    ensures forall k :: 0 <= k < |records| && records[k].videoId != videoId ==> records[k] in r
  {
    FilterIsSubsequence((rec: Record) => rec.videoId != videoId, records);
    Filter((rec: Record) => rec.videoId != videoId, records)
  }

  /** Removing the same video a second time changes nothing. */
  lemma WithoutVideoIdempotent(records: seq<Record>, videoId: string)
    ensures WithoutVideo(WithoutVideo(records, videoId), videoId) == WithoutVideo(records, videoId)
  {
    FilterIdempotent((rec: Record) => rec.videoId != videoId, records);
  }

  /** An id that matches no record leaves the playlist as it was. */
  lemma WithoutAbsentVideo(records: seq<Record>, videoId: string)
    requires forall k :: 0 <= k < |records| ==> records[k].videoId != videoId
    ensures WithoutVideo(records, videoId) == records
  {
    FilterKeepsAll((rec: Record) => rec.videoId != videoId, records);
  }

  /** Each record with another `video_id` is kept as often as it occurred, and every
      record with this `video_id` is gone. */
  lemma WithoutVideoCount(records: seq<Record>, videoId: string, x: Record)
    ensures multiset(WithoutVideo(records, videoId))[x] ==
              if x.videoId != videoId then multiset(records)[x] else 0
  {
    FilterCount((rec: Record) => rec.videoId != videoId, records, x);
  }

  /** Removing a video keeps the records well formed. */
  lemma WithoutVideoWellFormed(records: seq<Record>, videoId: string)
    ensures AllWellFormed(records) ==> AllWellFormed(WithoutVideo(records, videoId))
  {
    var r := WithoutVideo(records, videoId);
    if AllWellFormed(records) {
      forall k | 0 <= k < |r| ensures WellFormed(r[k]) {
        var j :| 0 <= j < |records| && records[j] == r[k];
      }
    }
  }

  /** The dictionary key a request's `name` is stored under: a missing name is the Python
      key `None`, which the JSON document writes as "null". */
  function NameKey(name: Option<string>): string
  {
    name.GetOr("null")
  }

  /** How a request's `name` is rendered inside the confirmation message. */
  function NameText(name: Option<string>): string
  {
    name.GetOr("None")
  }

  class Store {
    /** The persisted document: playlist name to its ordered records. */
    var playlists: map<string, seq<Record>>
    /** How many times a handler has written the document back. */
    var saves: nat

    /** Every stored record is one the upsert handler could have built. */
    ghost predicate Valid()
      reads this
    {
      forall name :: name in playlists ==> AllWellFormed(playlists[name])
    }

    /** Loads the document: an absent file is an empty store. */
    constructor (document: Option<map<string, seq<Record>>>)
      ensures playlists == document.GetOr(map[]) && saves == 0
      ensures document.None? ==> Valid()
    {
      playlists := document.GetOr(map[]);
      saves := 0;
    }

    /** GET `/playlists`: the whole document, unchanged. */
    method ListAll() returns (document: map<string, seq<Record>>)
      ensures document == playlists
    {
      document := playlists;
    }

    /** POST `/playlists`: builds the records, replaces the playlist under the name with
        them wholesale and saves. A video missing `id` or `title` raises before anything
        is stored or saved. */
    method Upsert(request: UpsertRequest, clock: nat -> string) returns (response: Response)
      modifies this
      ensures var videos := request.videos.GetOr([]);
              var key := NameKey(request.name);
              if AllHaveRequiredKeys(videos) then
                && key in playlists
                && playlists.Keys == old(playlists).Keys + {key}
                && (forall other :: other in old(playlists) && other != key ==>
                      playlists[other] == old(playlists)[other])
                && |playlists[key]| == |videos|
                && (forall k :: 0 <= k < |videos| ==>
                      FormatVideo(videos[k], clock(2 * k), clock(2 * k + 1)) == Ok(playlists[key][k]))
                && saves == old(saves) + 1
                && response == Message("Playlist '" + NameText(request.name) + "' updated successfully")
              else
                && playlists == old(playlists)
                && saves == old(saves)
                && response.ServerError?
                && exists k :: 0 <= k < |videos| && !HasRequiredKeys(videos[k])
                     && (forall j :: 0 <= j < k ==> HasRequiredKeys(videos[j]))
                     && response.missingKey == FormatVideo(videos[k], clock(2 * k), clock(2 * k + 1)).key
      ensures old(Valid()) ==> Valid()
    {
      var name := request.name;
      var videos := request.videos.GetOr([]);
      var formatted := BuildRecords(videos, clock);
      if formatted.KeyError? {
        return ServerError(formatted.key);
      }
      playlists := playlists[NameKey(name) := formatted.value];
      saves := saves + 1;
      response := Message("Playlist '" + NameText(name) + "' updated successfully");
    }

    /** GET `/playlists/<name>`: the playlist's records, or 404 when there is none. */
    method Get(name: string) returns (response: Response)
      ensures name in playlists ==> response == Records(playlists[name])
      ensures name !in playlists ==> response == NotFound(NotFoundText)
    {
      if name in playlists {
        return Records(playlists[name]);
      }
      return NotFound(NotFoundText);
    }

    /** DELETE `/playlists/<name>`: removes the playlist and saves, or answers 404 without
        touching or saving the document. */
    method Delete(name: string) returns (response: Response)
      modifies this
      ensures name in old(playlists) ==>
                && playlists == old(playlists) - {name}
                && saves == old(saves) + 1
                && response == Message("Playlist '" + name + "' deleted successfully")
      ensures name !in old(playlists) ==>
                playlists == old(playlists) && saves == old(saves) && response == NotFound(NotFoundText)
      ensures name !in playlists
      ensures old(Valid()) ==> Valid()
    {
      if name in playlists {
        playlists := playlists - {name};
        saves := saves + 1;
        return Message("Playlist '" + name + "' deleted successfully");
      }
      return NotFound(NotFoundText);
    }

    /** DELETE `/playlists/<name>/videos/<video_id>`: drops every record of that video from
        the playlist and saves (also when none matched), or answers 404 without saving. */
    method RemoveVideo(name: string, videoId: string) returns (response: Response)
      modifies this
      ensures name in old(playlists) ==>
                && playlists == old(playlists)[name := WithoutVideo(old(playlists)[name], videoId)]
                && saves == old(saves) + 1
                && response == Message("Video removed from playlist '" + name + "'")
      ensures name !in old(playlists) ==>
                playlists == old(playlists) && saves == old(saves) && response == NotFound(NotFoundText)
      ensures old(Valid()) ==> Valid()
    {
      if name in playlists {
        WithoutVideoWellFormed(playlists[name], videoId);
        playlists := playlists[name := WithoutVideo(playlists[name], videoId)];
        saves := saves + 1;
        return Message("Video removed from playlist '" + name + "'");
      }
      return NotFound(NotFoundText);
    }
  }

  /** The documented end-to-end use: create "Faves" with one video, read it back, delete
      it, and read it again. */
  method FavesScenario(clock: nat -> string)
  {
    var store := new Store(None);
    var hello := InputVideo(Some("v1"), Some("Hello"), None, None, None);
    var response := store.Upsert(UpsertRequest(Some("Faves"), Some([hello])), clock);
    var got := store.Get("Faves");
    assert FormatVideo(hello, clock(0), clock(1)) == Ok(got.records[0]);
    assert |got.records| == 1 && got.records[0].videoId == "v1";
    assert got.records[0].views == 0 && got.records[0].likes == 0;

    response := store.Delete("Faves");
    got := store.Get("Faves");
    assert got == NotFound(NotFoundText);
    response := store.Delete("Faves");
    assert response.NotFound? && store.saves == 2;
  }

  /** Upserting a name twice keeps only the second list: a replacement, not a merge. */
  method ReplaceScenario(store: Store, first: InputVideo, second: InputVideo, clock: nat -> string)
    requires HasRequiredKeys(first) && HasRequiredKeys(second)
    modifies store
  {
    var response := store.Upsert(UpsertRequest(Some("x"), Some([first])), clock);
    response := store.Upsert(UpsertRequest(Some("x"), Some([second])), clock);
    var got := store.Get("x");
    assert |got.records| == 1 && FormatVideo(second, clock(0), clock(1)) == Ok(got.records[0]);
  }
}
