/** The admin list column naming a video's source. */
module VideoAdmin {
  import opened Wrappers
  import opened VideoModels

  /** The upload wins over the Vimeo id, which wins over the external URL. */
  function VideoType(v: Video): (r: string)
    ensures r == "Uploaded File" <==> Truthy(v.videoFile)
    ensures r == "Vimeo" <==> !Truthy(v.videoFile) && Truthy(v.vimeoId)
    ensures r == "External URL" <==> !Truthy(v.videoFile) && !Truthy(v.vimeoId) && Truthy(v.videoUrl)
    ensures r == "No video" <==> !Truthy(v.videoFile) && !Truthy(v.vimeoId) && !Truthy(v.videoUrl)
  {
    if Truthy(v.videoFile) then "Uploaded File"
    else if Truthy(v.vimeoId) then "Vimeo"
    else if Truthy(v.videoUrl) then "External URL"
    else "No video"
  }

  /** The column depends on the three source fields only. */
  lemma VideoTypeOnlyReadsSources(v: Video, w: Video)
    requires v.videoFile == w.videoFile && v.vimeoId == w.vimeoId && v.videoUrl == w.videoUrl
    ensures VideoType(v) == VideoType(w)
  {
  }
}
