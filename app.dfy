/**
  The App component's state and its submit handler. Each `setX(v)` of the
  component is an assignment to field `x`; the handler's steps run in order.
 */
module AppComponent {
  import opened Wrappers
  import opened YouTubeTypes
  import opened VideoIdParser
  import opened Lookups
  import opened Pagination
  import opened Translations
  import opened Resolution

  class App {
    var isLoading: bool
    var error: Option<string>
    var currentVideo: Option<PlaylistItem>
    var nextVideo: Option<PlaylistItem>
    var language: Language
    var url: string

    /** The initial state: nothing loading or shown, Spanish selected, an empty URL. */
    constructor ()
      ensures !isLoading && error.None? && currentVideo.None? && nextVideo.None?
      ensures language == Es && url == ""
    {
      isLoading := false;
      error := None;
      currentVideo := None;
      nextVideo := None;
      language := Es;
      url := "";
    }

    /** What the component currently shows. */
    function Shown(): View
      reads this
    {
      View(error, currentVideo, nextVideo)
    }

    /** resetState: clears the error and both video slots, and nothing else. */
    method ResetState()
      modifies this`error, this`currentVideo, this`nextVideo
      ensures error.None? && currentVideo.None? && nextVideo.None?
    {
      error := None;
      currentVideo := None;
      nextVideo := None;
    }

    /** handleUrlChange: the controlled input's new value. */
    method HandleUrlChange(newUrl: string)
      modifies this`url
      ensures url == newUrl
    {
      url := newUrl;
    }

    /**
      handleSubmit: shows the state Resolve prescribes for the current URL and
      language, whatever was shown before, and ends with loading off.
     */
    method HandleSubmit(remote: Remote)
      requires SubmitEnds(url, remote)
      modifies this`isLoading, this`error, this`currentVideo, this`nextVideo
      ensures !isLoading
      ensures Shown() == Resolve(url, remote, language)
    {
      isLoading := true;
      ResetState();

      if IsBlank(url) {
        error := Some(T(language, ErrorInvalidUrl));
        isLoading := false;
        return;
      }

      var videoId := ExtractVideoId(url);
      if videoId.None? {
        error := Some(T(language, ErrorInvalidUrl));
        isLoading := false;
        return;
      }

      var thrown := RunLookups(remote, videoId.value);
      if thrown.Some? {
        error := Some(CaughtMessage(thrown.value, language));
      }
      isLoading := false;
    }

    /**
      The try block of handleSubmit: on a throw nothing it owns has been set yet and
      the thrown value is returned; otherwise the current video, the next one and,
      at the newest video, the latest-video error are set.
     */
    method RunLookups(remote: Remote, videoId: string) returns (thrown: Option<Thrown>)
      requires UploadsEnd(remote, videoId)
      modifies this`error, this`currentVideo, this`nextVideo
      ensures Search(remote, videoId, language).Failure? ==>
                && thrown == Some(Search(remote, videoId, language).error)
                && error == old(error) && currentVideo == old(currentVideo) && nextVideo == old(nextVideo)
      ensures Search(remote, videoId, language).Success? ==>
                var found := Search(remote, videoId, language).value;
                && thrown.None?
                && currentVideo == Some(found.current) && nextVideo == found.next
                && error == (if found.next.None? then Some(T(language, ErrorLatestVideo)) else old(error))
    {
      var videoDetails := GetVideoDetails(remote.videos, videoId);
      if videoDetails.Failure? {
        return Some(videoDetails.error);
      }
      if videoDetails.value.None? {
        return Some(ErrorObject(T(language, ErrorFetchVideoDetails)));
      }
      var channelId := videoDetails.value.value.channelId;

      var uploadsPlaylistId := GetChannelUploadsPlaylistId(remote.channels, channelId);
      if uploadsPlaylistId.Failure? {
        return Some(uploadsPlaylistId.error);
      }
      if !Truthy(uploadsPlaylistId.value) {
        return Some(ErrorObject(T(language, ErrorFindUploadsPlaylist)));
      }

      var allVideos := GetAllPlaylistItems(remote.playlistItems, uploadsPlaylistId.value.value);
      if allVideos.Failure? {
        return Some(allVideos.error);
      }
      var items := allVideos.value;
      var currentIndex := FindIndex(items, videoId);
      if currentIndex == -1 {
        return Some(ErrorObject(T(language, ErrorVideoNotFoundInUploads)));
      }

      currentVideo := Some(items[currentIndex]);
      if currentIndex > 0 {
        nextVideo := Some(items[currentIndex - 1]);
      } else {
        error := Some(T(language, ErrorLatestVideo));
        nextVideo := None;
      }
      thrown := None;
    }
  }
}
