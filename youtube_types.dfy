/**
  The records exchanged with the YouTube Data API, reduced to the fields the
  resolution reads, and the shape of one HTTP exchange with it.
 */
module YouTubeTypes {
  import opened Wrappers

  /** A `youtube#video` resource; `channelId` is `snippet.channelId`. */
  datatype Video = Video(id: string, channelId: string, title: string, channelTitle: string, publishedAt: string)

  /** A `youtube#channel` resource; `uploads` is `contentDetails.relatedPlaylists.uploads`. */
  datatype Channel = Channel(id: string, uploads: string)

  /** A `youtube#playlistItem`; `videoId` is `snippet.resourceId.videoId`, `position` is `snippet.position`. */
  datatype PlaylistItem = PlaylistItem(
    id: string, position: int, videoId: string, title: string, channelTitle: string, publishedAt: string)

  /** A thrown JavaScript value: an `Error` object (with its message) or anything else. */
  datatype Thrown = ErrorObject(message: string) | NonErrorValue

  /**
    What `response.json()` makes of a body: a syntax error, or a JSON object whose
    `error.message`, `items` and `nextPageToken` fields are kept.
   */
  datatype Body<T> =
    | Unparseable(syntaxError: string)
    | Json(errorMessage: Option<string>, items: seq<T>, nextPageToken: Option<string>)

  /** A `fetch` response: `ok`, `status`, `statusText` and the body. */
  datatype Response<T> = Response(ok: bool, status: nat, statusText: string, body: Body<T>)

  /** One call to `fetch`: the promise rejects with a thrown value or resolves to a response. */
  datatype Exchange<T> = Rejected(reason: Thrown) | Received(response: Response<T>)

  /** The three read-only endpoints, as functions of the query parameters that vary. */
  type VideosEndpoint = string -> Exchange<Video>
  type ChannelsEndpoint = string -> Exchange<Channel>
  type PlaylistItemsEndpoint = (string, Option<string>) -> Exchange<PlaylistItem>

  /** JavaScript truthiness of a `string | undefined`: present and not empty. */
  predicate Truthy(s: Option<string>)
  {
    s.Some? && s.value != ""
  }
}
