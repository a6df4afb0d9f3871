/**
  Worked submits against small fixed servers: a channel whose uploads are X, Y, Z
  (newest first), served on one page or split over two, and a server that refuses
  every request for quota.
 */
module Scenarios {
  import opened Wrappers
  import opened YouTubeTypes
  import opened VideoIdParser
  import opened ApiErrors
  import opened Lookups
  import opened Pagination
  import opened Translations
  import opened Resolution

  const IdX: string := "BBBBBBBBBBB"
  const IdY: string := "AAAAAAAAAAA"
  const IdZ: string := "CCCCCCCCCCC"

  const ItemX: PlaylistItem := PlaylistItem("item-x", 0, IdX, "X", "Channel", "2024-03-01T00:00:00Z")
  const ItemY: PlaylistItem := PlaylistItem("item-y", 1, IdY, "Y", "Channel", "2024-02-01T00:00:00Z")
  const ItemZ: PlaylistItem := PlaylistItem("item-z", 2, IdZ, "Z", "Channel", "2024-01-01T00:00:00Z")

  /** Every video belongs to channel `UC1`. */
  function VideosOfChannel(videoId: string): Exchange<Video>
  {
    Received(Response(true, 200, "OK", Json(None, [Video(videoId, "UC1", "title", "Channel", "2024")], None)))
  }

  /** Every channel's uploads playlist is `UU1`. */
  function ChannelWithUploads(channelId: string): Exchange<Channel>
  {
    Received(Response(true, 200, "OK", Json(None, [Channel(channelId, "UU1")], None)))
  }

  /** The uploads X, Y, Z on a single page. */
  function OnePage(playlistId: string, pageToken: Option<string>): Exchange<PlaylistItem>
  {
    Received(Response(true, 200, "OK", Json(None, [ItemX, ItemY, ItemZ], None)))
  }

  /** The uploads X on the first page, Y and Z on the page token `p2` names. */
  function TwoPages(playlistId: string, pageToken: Option<string>): Exchange<PlaylistItem>
  {
    if pageToken == Some("p2") then Received(Response(true, 200, "OK", Json(None, [ItemY, ItemZ], None)))
    else Received(Response(true, 200, "OK", Json(None, [ItemX], Some("p2"))))
  }

  /** Every videos request answered 403 with the API's quota message. */
  function QuotaExceeded(videoId: string): Exchange<Video>
  {
    Received(Response(false, 403, "Forbidden", Json(Some("quota exceeded"), [], None)))
  }

  const SinglePage: Remote := Remote(VideosOfChannel, ChannelWithUploads, OnePage)
  const SplitPages: Remote := Remote(VideosOfChannel, ChannelWithUploads, TwoPages)
  const NoQuota: Remote := Remote(QuotaExceeded, ChannelWithUploads, OnePage)

  /** One page: every playlist reads X, Y, Z. */
  lemma OnePageReadsUploads()
    ensures forall playlistId :: Terminates(OnePage, playlistId)
    ensures forall playlistId :: AllPlaylistItems(OnePage, playlistId) == Success([ItemX, ItemY, ItemZ])
  {
    forall playlistId: string
      ensures Terminates(OnePage, playlistId)
      ensures AllPlaylistItems(OnePage, playlistId) == Success([ItemX, ItemY, ItemZ])
    {
      assert Drain(OnePage, playlistId, None, 1) == Some(Success([ItemX, ItemY, ItemZ]));
      AllPlaylistItemsByFuel(OnePage, playlistId, 1);
    }
  }

  /** Two pages: the token of the first is sent for the second and the items are joined in order. */
  lemma TwoPagesReadUploads()
    ensures forall playlistId :: Terminates(TwoPages, playlistId)
    ensures forall playlistId :: AllPlaylistItems(TwoPages, playlistId) == Success([ItemX, ItemY, ItemZ])
  {
    forall playlistId: string
      ensures Terminates(TwoPages, playlistId)
      ensures AllPlaylistItems(TwoPages, playlistId) == Success([ItemX, ItemY, ItemZ])
    {
      assert Drain(TwoPages, playlistId, Some("p2"), 1) == Some(Success([ItemY, ItemZ]));
      assert [ItemX] + [ItemY, ItemZ] == [ItemX, ItemY, ItemZ];
      assert Drain(TwoPages, playlistId, None, 2) == Some(Success([ItemX, ItemY, ItemZ]));
      AllPlaylistItemsByFuel(TwoPages, playlistId, 2);
    }
  }

  /** Submitting Y's watch link shows Y as current and X, the next upload, as next. */
  lemma MiddleVideoShowsNext(lang: Language)
    ensures SubmitEnds(WatchUrl(IdY), SinglePage)
    ensures Resolve(WatchUrl(IdY), SinglePage, lang) == View(None, Some(ItemY), Some(ItemX))
  {
    OnePageReadsUploads();
    WatchUrlRoundTrip(IdY);
    assert WatchUrl(IdY)[0] == 'h';
    FoundInUploads(WatchUrl(IdY), SinglePage, lang, IdY, [ItemX, ItemY, ItemZ], 1);
  }

  /** The same answer when the uploads come over two pages. */
  lemma MiddleVideoAcrossPages(lang: Language)
    ensures SubmitEnds(WatchUrl(IdY), SplitPages)
    ensures Resolve(WatchUrl(IdY), SplitPages, lang) == View(None, Some(ItemY), Some(ItemX))
  {
    TwoPagesReadUploads();
    WatchUrlRoundTrip(IdY);
    assert WatchUrl(IdY)[0] == 'h';
    FoundInUploads(WatchUrl(IdY), SplitPages, lang, IdY, [ItemX, ItemY, ItemZ], 1);
  }

  /** Submitting X, the newest upload, shows X with the latest-video message and no next video. */
  lemma NewestVideoHasNoNext(lang: Language)
    ensures SubmitEnds(WatchUrl(IdX), SinglePage)
    ensures Resolve(WatchUrl(IdX), SinglePage, lang) == View(Some(T(lang, ErrorLatestVideo)), Some(ItemX), None)
  {
    OnePageReadsUploads();
    WatchUrlRoundTrip(IdX);
    assert WatchUrl(IdX)[0] == 'h';
    FoundInUploads(WatchUrl(IdX), SinglePage, lang, IdX, [ItemX, ItemY, ItemZ], 0);
  }

  /** A video of the channel that is not among its public uploads is reported as not found. */
  lemma UnlistedVideoNotFound(lang: Language)
    ensures SubmitEnds(WatchUrl("DDDDDDDDDDD"), SinglePage)
    ensures Resolve(WatchUrl("DDDDDDDDDDD"), SinglePage, lang) == View(Some(T(lang, ErrorVideoNotFoundInUploads)), None, None)
  {
    var id := "DDDDDDDDDDD";
    var items := [ItemX, ItemY, ItemZ];
    OnePageReadsUploads();
    assert IsVideoId(id) by {
      assert forall i :: 0 <= i < |id| ==> id[i] == 'D';
    }
    WatchUrlRoundTrip(id);
    assert WatchUrl(id)[0] == 'h';
    assert forall k :: 0 <= k < |items| ==> items[k].videoId != id by {
      assert IdX[0] != id[0] && IdY[0] != id[0] && IdZ[0] != id[0];
    }
    AbsentFromUploads(WatchUrl(id), SinglePage, lang, id, items);
  }

  /** The quota reply makes getVideoDetails throw an Error carrying the API's message. */
  lemma QuotaReplyThrows(videoId: string)
    ensures GetVideoDetails(QuotaExceeded, videoId) == Failure(ErrorObject("YouTube API Error: quota exceeded"))
  {
    var reply := QuotaExceeded(videoId).response;
    assert ApiFailure(reply, VideoDetailsFailed) == Some(ApiErrorPrefix + "quota exceeded");
    assert ApiErrorPrefix + "quota exceeded" == "YouTube API Error: quota exceeded";
  }

  /** A 403 whose body carries the API's message shows that message behind the API prefix. */
  lemma QuotaErrorShown(lang: Language)
    ensures SubmitEnds(WatchUrl(IdY), NoQuota)
    ensures Resolve(WatchUrl(IdY), NoQuota, lang) == View(Some("YouTube API Error: quota exceeded"), None, None)
  {
    WatchUrlRoundTrip(IdY);
    assert WatchUrl(IdY)[0] == 'h';
    QuotaReplyThrows(IdY);
    SearchPropagates(NoQuota, IdY, lang);
    ThrownSurfaced(WatchUrl(IdY), NoQuota, lang, IdY);
  }

  /** Text that names no video is rejected before any request. */
  lemma PlainTextRejected(lang: Language)
    ensures SubmitEnds("hello", SinglePage)
    ensures Resolve("hello", SinglePage, lang) == View(Some(T(lang, ErrorInvalidUrl)), None, None)
  {
    assert "hello"[0] == 'h';
    assert ExtractVideoId("hello").None?;
  }
}
