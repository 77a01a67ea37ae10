/** `load_src`'s choice of where a loaded payload goes, by its MIME type. */
module Media {
  import opened State

  predicate StartsWith(s: string, prefix: string) {
    |prefix| <= |s| && s[..|prefix|] == prefix
  }

  /** The key that receives a payload of type `contentType`: `img_src` for
      "image…", `video_src` for "video…", none otherwise. */
  function TargetFor(contentType: string): (k: Option<Key>)
    ensures k == Some(ImgSrc) <==> StartsWith(contentType, "image")
    ensures k == Some(VideoSrc) <==> StartsWith(contentType, "video")
    ensures k.None? <==> !StartsWith(contentType, "image") && !StartsWith(contentType, "video")
  {
    if StartsWith(contentType, "image") then Some(ImgSrc)
    else if StartsWith(contentType, "video") then Some(VideoSrc)
    else None
  }
}
