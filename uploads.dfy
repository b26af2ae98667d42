/** `POST /:cluster/:group/media`: an upload is kept only when its sniffed media type is an image
    or a video; it then gets a media record and is saved under the record's id. */
module Uploads {
  import opened Base
  import Thumbnails

  /** The upload filter: the sniffed type must start with "image" or "video", that is, its
      first five characters must spell one of them. */
  predicate Accepted(mediaType: string): (b: bool)
    ensures b <==> |mediaType| >= 5 && (mediaType[..5] == "image" || mediaType[..5] == "video")
  {
    HasPrefix(mediaType, "image") || HasPrefix(mediaType, "video")
  }

  /** The media record the upload creates. */
  datatype Media = Media(mediaType: string, name: string, cluster: int, group: int)

  datatype Outcome =
    | Unsupported
    | Saved(record: Media, path: string)

  /** The upload handler from the sniffed type on; `id` is the id the store gives the new record. */
  function Upload(mediaType: string, fileName: string, cluster: int, group: int, id: int): (r: Outcome)
    ensures r.Unsupported? <==> !Accepted(mediaType)
    ensures r.Saved? ==> r.record == Media(mediaType, fileName, cluster, group)
    ensures r.Saved? ==> r.path == Thumbnails.MediaPath(Itoa(cluster), Itoa(id))
  {
    if !Accepted(mediaType) then Unsupported
    else Saved(Media(mediaType, fileName, cluster, group), "media/" + Itoa(cluster) + "/" + Itoa(id))
  }

  /** The status code sent back. */
  function Status(r: Outcome): (code: int)
    ensures code == 415 <==> r.Unsupported?
    ensures code == 200 <==> r.Saved?
  {
    if r.Unsupported? then 415 else 200
  }

  /** Examples: a PNG is kept, a PDF is refused with 415. */
  lemma AcceptanceExamples(cluster: int, group: int, id: int)
    ensures Upload("image/png", "a.png", cluster, group, id).Saved?
    ensures Status(Upload("application/pdf", "a.pdf", cluster, group, id)) == 415
  {
    assert HasPrefix("image/png", "image");
    var pdf := "application/pdf";
    assert pdf[..5][0] == 'a';
  }

  /** A saved upload is where the thumbnail handler looks for its source: once the file is on
      disk, a thumbnail request for the same cluster and id never answers 404. */
  lemma SavedUploadHasThumbnailSource(mediaType: string, fileName: string, cluster: int, group: int,
                                      id: int, files: Thumbnails.Files, bytes: Thumbnails.Bytes,
                                      sniff: Thumbnails.Sniffer, transcode: Thumbnails.Transcoder,
                                      written: bool)
    requires Upload(mediaType, fileName, cluster, group, id).Saved?
    ensures
      var disk := files[Upload(mediaType, fileName, cluster, group, id).path := bytes];
      Thumbnails.Serve(disk, Itoa(cluster), Itoa(id), sniff, transcode, written).0 != Thumbnails.Status(404)
  {
  }

  /** An accepted video is the kind the thumbnail handler seeks into before taking its frame. */
  lemma AcceptedVideoIsSought(mediaType: string)
    requires Accepted(mediaType) && !HasPrefix(mediaType, "image")
    ensures "ss" in Thumbnails.TranscodeArgs(mediaType)
  {
  }
}
