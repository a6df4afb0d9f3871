/**
  What one submit of the form shows: the error message, the current video and the
  next video, as a function of the URL typed, the remote service and the language.
  The step-by-step handler in AppComponent is proved to end in this view.
 */
module Resolution {
  import opened Wrappers
  import opened YouTubeTypes
  import opened VideoIdParser
  import opened Lookups
  import opened Pagination
  import opened Translations

  /** The three remote lookups the handler performs. */
  datatype Remote = Remote(videos: VideosEndpoint, channels: ChannelsEndpoint, playlistItems: PlaylistItemsEndpoint)

  /**
    The page chain of the uploads playlist a search for `videoId` reaches ends, so
    getAllPlaylistItems settles there. Nothing is asked of other playlists, nor when
    a lookup before it throws or finds nothing.
   */
  ghost predicate UploadsEnd(remote: Remote, videoId: string)
  {
    match GetVideoDetails(remote.videos, videoId)
    case Success(Some(video)) =>
      (match GetChannelUploadsPlaylistId(remote.channels, video.channelId)
       case Success(uploads) => Truthy(uploads) ==> Terminates(remote.playlistItems, uploads.value)
       case Failure(_) => true)
    case _ => true
  }

  /** A submit of `url` settles: it is rejected before any lookup, or its search's uploads chain ends. */
  ghost predicate SubmitEnds(url: string, remote: Remote)
  {
    !IsBlank(url) && ExtractVideoId(url).Some? ==> UploadsEnd(remote, ExtractVideoId(url).value)
  }

  /** The part of the component's state a submit decides. */
  datatype View = View(error: Option<string>, currentVideo: Option<PlaylistItem>, nextVideo: Option<PlaylistItem>)

  /** The item found and the one shown as next, when there is one. */
  datatype Match = Match(current: PlaylistItem, next: Option<PlaylistItem>)

  /** The characters `String.prototype.trim` removes: white space and line terminators. */
  predicate IsTrimmed(c: char)
  {
    || c == '\t' || c == '\n' || c == '\U{000B}' || c == '\U{000C}' || c == '\r' || c == ' '
    || c == '\U{00A0}' || c == '\U{1680}' || ('\U{2000}' <= c <= '\U{200A}')
    || c == '\U{2028}' || c == '\U{2029}' || c == '\U{202F}' || c == '\U{205F}'
    || c == '\U{3000}' || c == '\U{FEFF}'
  }

  /** `!url.trim()`: the URL is empty once trimmed. */
  predicate IsBlank(url: string)
  {
    forall i :: 0 <= i < |url| ==> IsTrimmed(url[i])
  }

  /** `t(key)` in the selected language. */
  function T(lang: Language, key: MessageKey): string
  {
    CatalogHasEnglish();
    Lookup(Catalog, lang, key)
  }

  /** The catch block's message: an Error's own message, otherwise the unknown-error text. */
  function CaughtMessage(e: Thrown, lang: Language): string
  {
    match e
    case ErrorObject(message) => message
    case NonErrorValue => T(lang, ErrorUnknown)
  }

  /** `findIndex` from `from` on: the first item whose resource video is `videoId`, or -1. */
  function FindIndexFrom(items: seq<PlaylistItem>, videoId: string, from: nat): (r: int)
    requires from <= |items|
    decreases |items| - from
    ensures r == -1 || from <= r < |items|
    ensures r >= 0 ==> items[r].videoId == videoId
    ensures r >= 0 ==> forall j :: from <= j < r ==> items[j].videoId != videoId
    ensures r == -1 <==> forall j :: from <= j < |items| ==> items[j].videoId != videoId
  {
    if from == |items| then -1
    else if items[from].videoId == videoId then from
    else FindIndexFrom(items, videoId, from + 1)
  }

  /** `allVideos.findIndex(item => item.snippet.resourceId.videoId === videoId)`. */
  function FindIndex(items: seq<PlaylistItem>, videoId: string): (r: int)
    ensures -1 <= r < |items|
    ensures r >= 0 ==> items[r].videoId == videoId && forall j :: 0 <= j < r ==> items[j].videoId != videoId
    ensures r == -1 <==> forall j :: 0 <= j < |items| ==> items[j].videoId != videoId
  {
    FindIndexFrom(items, videoId, 0)
  }

  /** The current item and, one place towards the newest end, the next one. */
  function Neighbours(items: seq<PlaylistItem>, idx: nat): (m: Match)
    requires idx < |items|
  {
    Match(items[idx], if idx > 0 then Some(items[idx - 1]) else None)
  }

  /**
    In a newest-first list, the item Neighbours picks as next is the one uploaded
    right after the current one: later than it, with nothing in between; and there
    is none exactly when the current one is the newest.
   */
  lemma NextIsChronologicalSuccessor(items: seq<PlaylistItem>, idx: nat, uploadTime: PlaylistItem -> int)
    requires idx < |items|
    requires forall i, j :: 0 <= i < j < |items| ==> uploadTime(items[i]) > uploadTime(items[j])
    ensures Neighbours(items, idx).current == items[idx]
    ensures Neighbours(items, idx).next.None? <==> forall k :: 0 <= k < |items| ==> uploadTime(items[k]) <= uploadTime(items[idx])
    ensures Neighbours(items, idx).next.Some? ==>
              var next := Neighbours(items, idx).next.value;
              && next in items
              && uploadTime(next) > uploadTime(items[idx])
              && forall k :: 0 <= k < |items| ==> !(uploadTime(items[idx]) < uploadTime(items[k]) < uploadTime(next))
  {
  }

  /** The try block of the handler: the item found and its successor, or what it throws. */
  ghost function Search(remote: Remote, videoId: string, lang: Language): Result<Match, Thrown>
    requires UploadsEnd(remote, videoId)
  {
    match GetVideoDetails(remote.videos, videoId)
    case Failure(e) => Failure(e)
    case Success(None) => Failure(ErrorObject(T(lang, ErrorFetchVideoDetails)))
    case Success(Some(video)) =>
      match GetChannelUploadsPlaylistId(remote.channels, video.channelId)
      case Failure(e) => Failure(e)
      case Success(uploads) =>
        if !Truthy(uploads) then Failure(ErrorObject(T(lang, ErrorFindUploadsPlaylist)))
        else match AllPlaylistItems(remote.playlistItems, uploads.value)
          case Failure(e) => Failure(e)
          case Success(items) =>
            var idx := FindIndex(items, videoId);
            if idx == -1 then Failure(ErrorObject(T(lang, ErrorVideoNotFoundInUploads)))
            else Success(Neighbours(items, idx))
  }

  /** The view a submit of `url` ends in. */
  ghost function Resolve(url: string, remote: Remote, lang: Language): View
    requires SubmitEnds(url, remote)
  {
    if IsBlank(url) then View(Some(T(lang, ErrorInvalidUrl)), None, None)
    else match ExtractVideoId(url)
      case None => View(Some(T(lang, ErrorInvalidUrl)), None, None)
      case Some(videoId) =>
        match Search(remote, videoId, lang)
        case Failure(e) => View(Some(CaughtMessage(e, lang)), None, None)
        case Success(Match(current, Some(next))) => View(None, Some(current), Some(next))
        case Success(Match(current, None)) => View(Some(T(lang, ErrorLatestVideo)), Some(current), None)
  }

  /** Every lookup up to the playlist succeeds and yields `items` for the video `videoId` of `url`. */
  ghost predicate ReachesPlaylist(url: string, remote: Remote, videoId: string, items: seq<PlaylistItem>)
  {
    && !IsBlank(url)
    && ExtractVideoId(url) == Some(videoId)
    && GetVideoDetails(remote.videos, videoId).Success?
    && GetVideoDetails(remote.videos, videoId).value.Some?
    && var channelId := GetVideoDetails(remote.videos, videoId).value.value.channelId;
       && GetChannelUploadsPlaylistId(remote.channels, channelId).Success?
       && Truthy(GetChannelUploadsPlaylistId(remote.channels, channelId).value)
       && Terminates(remote.playlistItems, GetChannelUploadsPlaylistId(remote.channels, channelId).value.value)
       && AllPlaylistItems(remote.playlistItems, GetChannelUploadsPlaylistId(remote.channels, channelId).value.value) == Success(items)
  }

  /** A blank URL, or one no pattern recognises, is rejected before any lookup. */
  lemma InvalidUrlRejected(url: string, remote: Remote, lang: Language)
    requires IsBlank(url) || ExtractVideoId(url).None?
    ensures Resolve(url, remote, lang) == View(Some(T(lang, ErrorInvalidUrl)), None, None)
  {
  }

  /** No video record, or no uploads playlist: the matching message and no video shown. */
  lemma MissingRecordsReported(url: string, remote: Remote, lang: Language, videoId: string)
    requires !IsBlank(url) && ExtractVideoId(url) == Some(videoId) && SubmitEnds(url, remote)
    ensures GetVideoDetails(remote.videos, videoId) == Success(None) ==>
              Resolve(url, remote, lang) == View(Some(T(lang, ErrorFetchVideoDetails)), None, None)
    ensures (GetVideoDetails(remote.videos, videoId).Success? && GetVideoDetails(remote.videos, videoId).value.Some? &&
             var channelId := GetVideoDetails(remote.videos, videoId).value.value.channelId;
             GetChannelUploadsPlaylistId(remote.channels, channelId).Success? &&
             !Truthy(GetChannelUploadsPlaylistId(remote.channels, channelId).value)) ==>
              Resolve(url, remote, lang) == View(Some(T(lang, ErrorFindUploadsPlaylist)), None, None)
  {
  }

  /** A video absent from every page of the uploads: the not-found message and no video shown. */
  lemma AbsentFromUploads(url: string, remote: Remote, lang: Language, videoId: string, items: seq<PlaylistItem>)
    requires ReachesPlaylist(url, remote, videoId, items)
    requires forall k :: 0 <= k < |items| ==> items[k].videoId != videoId
    ensures Resolve(url, remote, lang) == View(Some(T(lang, ErrorVideoNotFoundInUploads)), None, None)
  {
  }

  /**
    The first item whose resource video is the parsed id is the current video. Below
    the newest, the item before it is the next video and there is no error; at the
    newest there is no next video and the latest-video error is shown beside it.
   */
  lemma FoundInUploads(url: string, remote: Remote, lang: Language, videoId: string, items: seq<PlaylistItem>, idx: nat)
    requires ReachesPlaylist(url, remote, videoId, items)
    requires idx < |items| && items[idx].videoId == videoId
    requires forall j :: 0 <= j < idx ==> items[j].videoId != videoId
    ensures idx > 0 ==> Resolve(url, remote, lang) == View(None, Some(items[idx]), Some(items[idx - 1]))
    ensures idx == 0 ==> Resolve(url, remote, lang) == View(Some(T(lang, ErrorLatestVideo)), Some(items[0]), None)
  {
    assert FindIndex(items, videoId) == idx;
  }

  /**
    Whatever the try block throws, from any of the three lookups or from the checks
    between them, shows the Error's message (or the unknown-error text) and no video.
   */
  lemma ThrownSurfaced(url: string, remote: Remote, lang: Language, videoId: string)
    requires !IsBlank(url) && ExtractVideoId(url) == Some(videoId) && SubmitEnds(url, remote)
    requires Search(remote, videoId, lang).Failure?
    ensures Resolve(url, remote, lang) == View(Some(CaughtMessage(Search(remote, videoId, lang).error, lang)), None, None)
  {
  }

  /**
    A lookup that throws ends the search with what it threw: the video lookup, the
    channel lookup after a found video, and the playlist read after a truthy uploads id.
   */
  lemma SearchPropagates(remote: Remote, videoId: string, lang: Language)
    requires UploadsEnd(remote, videoId)
    ensures GetVideoDetails(remote.videos, videoId).Failure? ==>
              Search(remote, videoId, lang) == Failure(GetVideoDetails(remote.videos, videoId).error)
    ensures GetVideoDetails(remote.videos, videoId).Success? && GetVideoDetails(remote.videos, videoId).value.Some? ==>
              var channelId := GetVideoDetails(remote.videos, videoId).value.value.channelId;
              var uploads := GetChannelUploadsPlaylistId(remote.channels, channelId);
              && (uploads.Failure? ==> Search(remote, videoId, lang) == Failure(uploads.error))
              && (uploads.Success? && Truthy(uploads.value) && AllPlaylistItems(remote.playlistItems, uploads.value.value).Failure? ==>
                    Search(remote, videoId, lang) == Failure(AllPlaylistItems(remote.playlistItems, uploads.value.value).error))
  {
  }

  /**
    After any submit: an error and a next video are never shown together, a next
    video is only shown beside a current one, and a current video is always the
    item of the video the URL names.
   */
  lemma ViewInvariant(url: string, remote: Remote, lang: Language)
    requires SubmitEnds(url, remote)
    ensures var v := Resolve(url, remote, lang);
            && !(v.error.Some? && v.nextVideo.Some?)
            && (v.nextVideo.Some? ==> v.currentVideo.Some?)
            && (v.currentVideo.Some? ==> ExtractVideoId(url).Some? && v.currentVideo.value.videoId == ExtractVideoId(url).value)
            && (v.error.None? ==> v.nextVideo.Some?)
  {
    if !IsBlank(url) && ExtractVideoId(url).Some? {
      SearchFindsVideo(remote, ExtractVideoId(url).value, lang);
    }
  }

  /** A successful search yields the item of the video searched for. */
  lemma SearchFindsVideo(remote: Remote, videoId: string, lang: Language)
    requires UploadsEnd(remote, videoId)
    ensures Search(remote, videoId, lang).Success? ==> Search(remote, videoId, lang).value.current.videoId == videoId
  {
  }
}
