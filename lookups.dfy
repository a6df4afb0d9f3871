/** getVideoDetails and getChannelUploadsPlaylistId: one call each, first item or null. */
module Lookups {
  import opened Wrappers
  import opened YouTubeTypes
  import opened ApiErrors

  const VideoDetailsFailed: string := "Failed to fetch video details from YouTube API."
  const ChannelDetailsFailed: string := "Failed to fetch channel details from YouTube API."
  const PlaylistItemsFailed: string := "Failed to fetch playlist items from YouTube API."

  /** The fields of a list response that the service reads. */
  datatype Listing<T> = Listing(items: seq<T>, nextPageToken: Option<string>)

  /**
    `fetch`, then handleApiError, then `response.json()`: what one call yields, or
    what it throws. A rejected fetch propagates its reason, an error status becomes
    an Error with handleApiError's message, and an ok body that does not decode
    throws the decoder's syntax error.
   */
  function ReadListing<T>(exchange: Exchange<T>, defaultMessage: string): (r: Result<Listing<T>, Thrown>)
    ensures r.Success? <==> exchange.Received? && exchange.response.ok && exchange.response.body.Json?
    ensures r.Success? ==> r.value == Listing(exchange.response.body.items, exchange.response.body.nextPageToken)
    ensures exchange.Rejected? ==> r == Failure(exchange.reason)
    ensures exchange.Received? && !exchange.response.ok ==>
              r == Failure(ErrorObject(ApiFailure(exchange.response, defaultMessage).value))
    ensures exchange.Received? && exchange.response.ok && exchange.response.body.Unparseable? ==>
              r == Failure(ErrorObject(exchange.response.body.syntaxError))
  {
    match exchange
    case Rejected(reason) => Failure(reason)
    case Received(response) =>
      match ApiFailure(response, defaultMessage)
      case Some(message) => Failure(ErrorObject(message))
      case None =>
        match response.body
        case Unparseable(syntaxError) => Failure(ErrorObject(syntaxError))
        case Json(_, items, nextPageToken) => Success(Listing(items, nextPageToken))
  }

  /** `items[0] ?? null`. */
  function FirstOrNull<T>(items: seq<T>): (r: Option<T>)
    ensures r.None? <==> items == []
    ensures r.Some? ==> r.value == items[0]
  {
    if items == [] then None else Some(items[0])
  }

  /**
    getVideoDetails: the first video the videos endpoint lists for `videoId`, None
    when it lists none (a normal outcome), or what the call throws.
   */
  function GetVideoDetails(videos: VideosEndpoint, videoId: string): (r: Result<Option<Video>, Thrown>)
    ensures r.Success? <==> ReadListing(videos(videoId), VideoDetailsFailed).Success?
    ensures r.Success? ==> var items := ReadListing(videos(videoId), VideoDetailsFailed).value.items;
                           (r.value.None? <==> items == []) && (r.value.Some? ==> r.value.value == items[0])
    ensures r.Failure? ==> r.error == ReadListing(videos(videoId), VideoDetailsFailed).error
  {
    match ReadListing(videos(videoId), VideoDetailsFailed)
    case Failure(e) => Failure(e)
    case Success(listing) => Success(FirstOrNull(listing.items))
  }

  /**
    getChannelUploadsPlaylistId: the uploads playlist id of the first channel the
    channels endpoint lists for `channelId`, None when it lists none, or what the
    call throws.
   */
  function GetChannelUploadsPlaylistId(channels: ChannelsEndpoint, channelId: string): (r: Result<Option<string>, Thrown>)
    ensures r.Success? <==> ReadListing(channels(channelId), ChannelDetailsFailed).Success?
    ensures r.Success? ==> var items := ReadListing(channels(channelId), ChannelDetailsFailed).value.items;
                           (r.value.None? <==> items == []) && (r.value.Some? ==> r.value.value == items[0].uploads)
    ensures r.Failure? ==> r.error == ReadListing(channels(channelId), ChannelDetailsFailed).error
  {
    match ReadListing(channels(channelId), ChannelDetailsFailed)
    case Failure(e) => Failure(e)
    case Success(listing) =>
      match FirstOrNull(listing.items)
      case None => Success(None)
      case Some(channel) => Success(Some(channel.uploads))
  }
}
