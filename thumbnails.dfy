/** `GET /:cluster/media/:id/thumbnail`: a cache of WebP thumbnails kept next to the uploaded
    media on disk. A cached file is served as it is; on a miss the source is transcoded, the
    result is written to the cache and served. */
module Thumbnails {
  import opened Base

  type Byte = bv8
  type Bytes = seq<Byte>

  /** The disk, as a map from path to file contents. */
  type Files = map<string, Bytes>

  /** Where an uploaded medium is stored: under `media/`, in the cluster's directory, named by
      its id. */
  function MediaPath(cluster: string, id: string): (path: string)
    ensures HasPrefix(path, "media/")
    ensures path[6..] == cluster + ['/'] + id
  {
    "media/" + cluster + "/" + id
  }

  /** Where its thumbnail is cached: under `thumbnails/`, in the cluster's directory, named by
      the id with a `.webp` extension. */
  function ThumbnailPath(cluster: string, id: string): (path: string)
    ensures HasPrefix(path, "thumbnails/")
    ensures path[11..] == cluster + ['/'] + (id + ".webp")
  {
    "thumbnails/" + cluster + "/" + id + ".webp"
  }

  /** A value of the keyword arguments given to the transcoder's output. */
  datatype Arg = IntArg(i: int) | StrArg(s: string)

  /** The transcoder's output arguments: one frame, encoded as WebP in an image2 container;
      a video is first sought 7 seconds in. */
  function TranscodeArgs(mediaType: string): (args: map<string, Arg>)
    ensures "vframes" in args && args["vframes"] == IntArg(1)
    ensures "format" in args && args["format"] == StrArg("image2")
    ensures "vcodec" in args && args["vcodec"] == StrArg("libwebp")
    ensures "ss" in args <==> HasPrefix(mediaType, "video")
    ensures "ss" in args ==> args["ss"] == IntArg(7)
    ensures args.Keys <= {"vframes", "ss", "format", "vcodec"}
  {
    if HasPrefix(mediaType, "video") then
      map["vframes" := IntArg(1), "ss" := IntArg(7), "format" := StrArg("image2"), "vcodec" := StrArg("libwebp")]
    else
      map["vframes" := IntArg(1), "format" := StrArg("image2"), "vcodec" := StrArg("libwebp")]
  }

  /** The scale filter: at least 650 by 650, keeping the aspect ratio. */
  const ScaleFilter: string := "w=650:h=650:force_original_aspect_ratio=increase"

  /** One transcoder run: input file, scale filter, output arguments; the output goes to a pipe. */
  datatype Request = Request(input: string, filter: string, args: map<string, Arg>)

  /** The external collaborators, given as functions: the content sniffer names the media type
      of a file's bytes, and the transcoder turns a file's bytes and a request into the encoded
      bytes, or fails (`None`). */
  type Sniffer = Bytes -> string
  type Transcoder = (Bytes, Request) -> Option<Bytes>

  datatype Response =
    | Ok(contentType: string, body: Bytes)
    | Status(code: int)
    | Failure(code: int, message: string)

  /** The content type the handler sends with a thumbnail, as it spells it. */
  const ThumbnailContentType: string := "images/webp"

  /** The handler on disk `files`: its response and the disk afterwards. `written` tells whether
      the write of a fresh thumbnail succeeds; the handler ignores its error either way. */
  function Serve(files: Files, cluster: string, id: string, sniff: Sniffer, transcode: Transcoder,
                 written: bool): (result: (Response, Files))
    // Only the thumbnail's own cache entry can change, and only by being created.
    ensures forall p :: p != ThumbnailPath(cluster, id) ==>
      (p in result.1 <==> p in files) && (p in files ==> result.1[p] == files[p])
    ensures ThumbnailPath(cluster, id) in files ==> result.1 == files
    // A cache hit serves the cached bytes.
    ensures ThumbnailPath(cluster, id) in files ==>
      result.0 == Ok(ThumbnailContentType, files[ThumbnailPath(cluster, id)])
    // A miss without a source is 404 and writes nothing.
    ensures ThumbnailPath(cluster, id) !in files && MediaPath(cluster, id) !in files ==>
      result == (Status(404), files)
    // Errors leave the disk as it was; success is always a WebP body.
    ensures !result.0.Ok? ==> result.1 == files
    ensures result.0.Ok? ==> result.0.contentType == ThumbnailContentType
    // What is cached is what is served; a successful write caches it.
    ensures result.0.Ok? && ThumbnailPath(cluster, id) in result.1 ==>
      result.1[ThumbnailPath(cluster, id)] == result.0.body
    ensures result.0.Ok? && written ==> ThumbnailPath(cluster, id) in result.1
    // A failed write leaves the disk as it was: no partial thumbnail is modelled.
    ensures !written ==> result.1 == files
    // A miss with a source serves the transcoder's output on it, or 422 when it fails.
    ensures ThumbnailPath(cluster, id) !in files && MediaPath(cluster, id) in files ==>
      var source := files[MediaPath(cluster, id)];
      var output := transcode(source, Request(MediaPath(cluster, id), ScaleFilter, TranscodeArgs(sniff(source))));
      result.0 == if output.Some? then Ok(ThumbnailContentType, output.value) else Failure(422, "Failed to encode")
  {
    var thumbnail := ThumbnailPath(cluster, id);
    var source := MediaPath(cluster, id);
    if thumbnail in files then
      (Ok(ThumbnailContentType, files[thumbnail]), files)
    else if source !in files then
      (Status(404), files)
    else
      var request := Request(source, ScaleFilter, TranscodeArgs(sniff(files[source])));
      match transcode(files[source], request)
      case None => (Failure(422, "Failed to encode"), files)
      case Some(bytes) => (Ok(ThumbnailContentType, bytes), if written then files[thumbnail := bytes] else files)
  }

  /** The thumbnail cache is never written where a medium is stored. */
  lemma CacheNeverOverwritesMedia(c1: string, id1: string, c2: string, id2: string)
    ensures MediaPath(c1, id1) != ThumbnailPath(c2, id2)
  {
    assert MediaPath(c1, id1)[0] == 'm';
    assert ThumbnailPath(c2, id2)[0] == 't';
  }

  /** Different media of clusters whose names hold no `/` are stored at different paths, so an
      upload never overwrites another. */
  lemma MediaPathInjective(c1: string, id1: string, c2: string, id2: string)
    requires '/' !in c1 && '/' !in c2
    requires MediaPath(c1, id1) == MediaPath(c2, id2)
    ensures c1 == c2 && id1 == id2
  {
    DropCommonPrefix("media/", c1 + ['/'] + id1, c2 + ['/'] + id2);
    SplitAtSeparator(c1, id1, c2, id2, '/');
  }

  /** Thumbnails of different media have different paths, as long as cluster names hold no `/`. */
  lemma ThumbnailPathInjective(c1: string, id1: string, c2: string, id2: string)
    requires '/' !in c1 && '/' !in c2
    requires ThumbnailPath(c1, id1) == ThumbnailPath(c2, id2)
    ensures c1 == c2 && id1 == id2
  {
    var lead := "thumbnails/";
    assert ThumbnailPath(c1, id1) == lead + (c1 + ['/'] + (id1 + ".webp"));
    assert ThumbnailPath(c2, id2) == lead + (c2 + ['/'] + (id2 + ".webp"));
    DropCommonPrefix(lead, c1 + ['/'] + (id1 + ".webp"), c2 + ['/'] + (id2 + ".webp"));
    SplitAtSeparator(c1, id1 + ".webp", c2, id2 + ".webp", '/');
    DropCommonSuffix(id1, id2, ".webp");
  }

  /** Once a thumbnail has been served and written, the next request is a cache hit: it serves
      the same bytes, whatever the sniffer and transcoder would now do, and writes nothing. */
  lemma SecondRequestHitsCache(files: Files, cluster: string, id: string, sniff: Sniffer,
                               transcode: Transcoder, sniff': Sniffer, transcode': Transcoder,
                               written': bool)
    requires Serve(files, cluster, id, sniff, transcode, true).0.Ok?
    ensures
      var (first, after) := Serve(files, cluster, id, sniff, transcode, true);
      Serve(after, cluster, id, sniff', transcode', written') == (first, after)
  {
  }

  /** Retrying a request with the same sniffer and transcoder outcomes gives the same response,
      whether or not either write succeeded. */
  lemma RetryGivesSameResponse(files: Files, cluster: string, id: string, sniff: Sniffer,
                               transcode: Transcoder, written: bool, written': bool)
    ensures
      var (first, after) := Serve(files, cluster, id, sniff, transcode, written);
      Serve(after, cluster, id, sniff, transcode, written').0 == first
  {
  }

  /** The server's disk. */
  class MediaStore {
    var files: Files

    constructor (files: Files)
      ensures this.files == files
    {
      this.files := files;
    }

    /** The thumbnail handler: read the cache; on a miss check the source, sniff it, build the
        transcoder's arguments, run it, and write its output to the cache. */
    method Thumbnail(cluster: string, id: string, sniff: Sniffer, transcode: Transcoder, written: bool)
      returns (response: Response)
      modifies this
      ensures (response, files) == Serve(old(files), cluster, id, sniff, transcode, written)
    {
      var mediaPath := MediaPath(cluster, id);
      var thumbnailPath := ThumbnailPath(cluster, id);
      if thumbnailPath in files {
        return Ok(ThumbnailContentType, files[thumbnailPath]);
      }
      if mediaPath !in files {
        return Status(404);
      }
      var mediaType := sniff(files[mediaPath]);
      var arguments := map["vframes" := IntArg(1), "format" := StrArg("image2"), "vcodec" := StrArg("libwebp")];
      if HasPrefix(mediaType, "video") {
        arguments := map["vframes" := IntArg(1), "ss" := IntArg(7), "format" := StrArg("image2"), "vcodec" := StrArg("libwebp")];
      }
      var output := transcode(files[mediaPath], Request(mediaPath, ScaleFilter, arguments));
      if output.None? {
        return Failure(422, "Failed to encode");
      }
      var thumbnail := output.value;
      if written {
        files := files[thumbnailPath := thumbnail];
      }
      response := Ok(ThumbnailContentType, thumbnail);
    }
  }
}
