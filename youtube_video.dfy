/** The YouTube embed (src/components/YoutubeVideo.tsx): what the component
    shows for a song's video data. The video URL is handed to the browser's URL
    parser, which is a parameter here: it yields the URL's pathname, or None
    when `new URL(...)` throws. */
module YoutubeVideo {
  import opened Wrappers
  import opened JsRuntime

  /** One entry of `videoData.actions`; `uri` is None when the field is
      undefined or null. */
  datatype Action = Action(uri: Option<string>)

  /** The song's video data; `actions` is None when the field is missing. */
  datatype VideoData = VideoData(actions: Option<seq<Action>>)

  /** What the component renders, or the exception it throws instead. */
  datatype View =
    | NoVideoFound
    | InvalidVideoId
    | EmbeddedPlayer(src: string)
    | ReadOfUndefined   // `actions[0].uri` on an empty `actions` array
    | InvalidUrl        // `new URL(uri)` rejected the uri

  const EmbedPrefix := "https://www.youtube.com/embed/"
  const EmbedSuffix := "?&enablejsapi=1"

  /** `actions[0].uri` is falsy: undefined, null or the empty string. */
  predicate UriMissing(a: Action) {
    a.uri == None || a.uri == Some("")
  }

  /** Segment 1 of `pathname.split('/')`, or None (undefined) when the pathname
      has no `/`. */
  function VideoId(pathname: string): (id: Option<string>)
    ensures id.Some? ==> '/' !in id.value
    ensures id.Some? <==> '/' in pathname
  {
    var parts := Split(pathname, '/');
    SplitCount(pathname);
    if |parts| > 1 then Some(parts[1]) else None
  }

  /** There is more than one piece exactly when the separator occurs. */
  lemma {:induction false} SplitCount(s: string)
    ensures |Split(s, '/')| > 1 <==> '/' in s
  {
    if s != [] {
      SplitCount(s[1..]);
      assert s == [s[0]] + s[1..];
    }
  }

  /** The `src` of the embedded player for a video id (line 17): the embed
      address, the id, and the query that enables the JavaScript API. */
  function EmbedSrc(id: string): (src: string)
    ensures |src| == |EmbedPrefix| + |id| + |EmbedSuffix|
    ensures src[..|EmbedPrefix|] == EmbedPrefix
    ensures src[|EmbedPrefix|..|src| - |EmbedSuffix|] == id
    ensures src[|src| - |EmbedSuffix|..] == EmbedSuffix
  {
    EmbedPrefix + id + EmbedSuffix
  }

  /** The id can be read back from the embed `src`: different ids give
      different players. */
  lemma EmbedSrcRecoversId(id1: string, id2: string)
    requires EmbedSrc(id1) == EmbedSrc(id2)
    ensures id1 == id2
  {
    var src := EmbedSrc(id1);
    assert id1 == src[|EmbedPrefix|..|src| - |EmbedSuffix|];
  }

  /** The component (lines 3-32). */
  function Render(videoData: Option<VideoData>, urlPathname: string -> Option<string>): (v: View)
    ensures v == NoVideoFound <==>
      videoData.None? || videoData.value.actions.None? ||
      (videoData.value.actions.value != [] && UriMissing(videoData.value.actions.value[0]))
    ensures v == ReadOfUndefined <==>
      videoData.Some? && videoData.value.actions == Some([])
    ensures v == InvalidUrl <==>
      HasUri(videoData) && urlPathname(videoData.value.actions.value[0].uri.value).None?
    ensures v == InvalidVideoId <==>
      HasUri(videoData) && urlPathname(videoData.value.actions.value[0].uri.value).Some? &&
      var id := VideoId(urlPathname(videoData.value.actions.value[0].uri.value).value);
      id.None? || id == Some("")
    ensures v.EmbeddedPlayer? ==>
      exists id :: id != "" && '/' !in id && v == EmbeddedPlayer(EmbedSrc(id))
  {
    if videoData.None? || videoData.value.actions.None? then NoVideoFound
    else
      var actions := videoData.value.actions.value;
      if actions == [] then ReadOfUndefined
      else if UriMissing(actions[0]) then NoVideoFound
      else
        match urlPathname(actions[0].uri.value)
        case None => InvalidUrl
        case Some(pathname) =>
          match VideoId(pathname)
          case None => InvalidVideoId
          case Some(id) =>
            if id == "" then InvalidVideoId else EmbeddedPlayer(EmbedSrc(id))
  }

  /** Video data whose first action has a usable uri. */
  predicate HasUri(videoData: Option<VideoData>) {
    videoData.Some? && videoData.value.actions.Some? &&
    videoData.value.actions.value != [] && !UriMissing(videoData.value.actions.value[0])
  }

  /** A uri whose pathname is `/ID` or `/ID/...`, with ID non-empty and free of
      `/` (a `https://youtu.be/ID` link), embeds exactly that ID. */
  lemma EmbedsFirstPathSegment(videoData: Option<VideoData>, urlPathname: string -> Option<string>,
                               id: string, rest: string)
    requires HasUri(videoData)
    requires id != "" && '/' !in id
    requires var uri := videoData.value.actions.value[0].uri.value;
      urlPathname(uri) == Some("/" + id) || urlPathname(uri) == Some("/" + id + "/" + rest)
    ensures Render(videoData, urlPathname) == EmbeddedPlayer(EmbedSrc(id))
  {
    var uri := videoData.value.actions.value[0].uri.value;
    if urlPathname(uri) == Some("/" + id) {
      SplitWithoutSeparator(id, '/');
      SplitAfterPiece("", '/', id);
      assert "" + ['/'] + id == "/" + id;
    } else {
      SplitAfterPiece(id, '/', rest);
      SplitAfterPiece("", '/', id + "/" + rest);
      assert "" + ['/'] + (id + ['/'] + rest) == "/" + id + "/" + rest;
    }
  }

  /** A pathname whose segment 1 is empty, such as `/` or `//x`, or one with no
      `/` at all, is an invalid video id. */
  lemma EmptyIdIsInvalid(videoData: Option<VideoData>, urlPathname: string -> Option<string>,
                         rest: string)
    requires HasUri(videoData)
    requires var uri := videoData.value.actions.value[0].uri.value;
      urlPathname(uri) == Some("/") || urlPathname(uri) == Some("//" + rest) ||
      (urlPathname(uri).Some? && '/' !in urlPathname(uri).value)
    ensures Render(videoData, urlPathname) == InvalidVideoId
  {
    var uri := videoData.value.actions.value[0].uri.value;
    if urlPathname(uri) == Some("/") {
      SplitAfterPiece("", '/', "");
      assert "" + ['/'] + "" == "/";
    } else if urlPathname(uri) == Some("//" + rest) {
      SplitAfterPiece("", '/', "/" + rest);
      SplitAfterPiece("", '/', rest);
      assert "" + ['/'] + rest == "/" + rest;
      assert "" + ['/'] + ("/" + rest) == "//" + rest;
    }
  }

  /** The embedded player's id is segment 1 of the pathname and non-empty. */
  lemma EmbedUsesSegmentOne(videoData: Option<VideoData>, urlPathname: string -> Option<string>)
    requires Render(videoData, urlPathname).EmbeddedPlayer?
    ensures HasUri(videoData)
    ensures var uri := videoData.value.actions.value[0].uri.value;
      urlPathname(uri).Some? &&
      VideoId(urlPathname(uri).value).Some? &&
      VideoId(urlPathname(uri).value).value != "" &&
      Render(videoData, urlPathname) == EmbeddedPlayer(EmbedSrc(VideoId(urlPathname(uri).value).value))
  {
  }
}
