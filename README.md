# Stash media server: group tree, derivative cache and request filters

Stash serves a collection of images and videos. The collection is split into clusters, and
each cluster holds a tree of groups. This project models the decision logic of the Go server
(`_server/main.go`) in Dafny and proves what that logic promises.

- **Group tree** (`groups.dfy`, module `Groups`). `NewGroup` is the resolver `newGroup`. It
  builds the node for a group id from that id's row: name, icon, collapsed flag and child ids.
  Then it recurses into every child id, in the order the store lists them. `ListGroups` is the
  `/:cluster/groups` listing. It puts the three virtual groups first: Unsorted (-1), Trash (-2)
  and Everything (-3). The real root groups follow. The store is a `Table`, a map from group id
  to row. An id with no row reads as the zero-valued row, which is what the query scan leaves
  behind. Termination is witnessed by a rank map over the ids the resolver reaches (`Ranked`):
  a ranked id's children are ranked, strictly below it. A cycle among groups that no root
  reaches is allowed. `Materializes` is an independent definition of a
  correct tree. `NewGroup` is proved to be the only tree that meets it. `CreateGroup` is the
  record that `POST /:cluster/groups` hands to the store, with Go's integer `Parent` field.
- **Media filter** (`media_filter.dfy`, module `MediaFilter`). `WhereClause` builds the
  `WHERE` clause of `GET /:cluster/:group/media` step by step, like the handler does. `Clause`
  and `GroupCondition` specify that clause. A clause is proved to determine the cluster and the
  group it was built from.
- **Placeholder** (`placeholders.dfy`, module `Placeholders`). `GetAttribute` is the handler's
  search loop: it looks for the first stream that holds a number under the attribute.
  `FirstNumberIndex` is the reference definition of that stream. `ScaleFactor` is the factor
  `k` that scales the box. `Placeholder` is the handler from the probe's outcome on. Geometry
  uses real numbers.
- **Thumbnail cache** (`thumbnails.dfy`, module `Thumbnails`). The disk is a map from path to
  bytes, held in the `files` field of class `MediaStore`. `MediaStore.Thumbnail` is the
  handler. `Serve` is its specification: the response and the disk after the request. The
  content sniffer and the transcoder are function parameters. The handler ignores the error of
  its cache write, so a `written` flag says whether that write succeeds.
- **Upload filter** (`uploads.dfy`, module `Uploads`). `Upload` decides from the sniffed media
  type whether an upload is kept. It also gives the record and the path of a kept upload.
- **Shared helpers** (`base.dfy`, module `Base`). `Option`, Go's `strings.HasPrefix`, and
  `Itoa`, the decimal formatting of `strconv.Itoa` and `%d`. `ParseInt` reads back what `Itoa`
  writes.

Behaviour of the code worth noting:

- A thumbnail is sent with the content type `images/webp`, as the code spells it.
- The children of a group keep the order in which the store aggregates them. Nothing sorts
  them by name.
- Width and height are each searched for separately, so they may come from different streams.
  The search has no bound. It does not stop with a "no visual stream" error.
- An empty transcoder output is served as a thumbnail; it is not an error.
- A failed probe answers 422, even when the file is missing.

## Model

| member | source | states |
|---|---|---|
| `Groups.NewGroup` | _server/main.go:119-147 | The node has the requested id. Its name, icon and collapsed flag are that id's row. Its children are, one-to-one and in order, the trees of the row's child ids, all the way down. A group with no child ids gets an empty list. Recursion terminates when no cycle is reachable from the id; cycles elsewhere in the table do not matter. |
| `Groups.MaterializationIsUnique` | _server/main.go:120-147 | Any tree that matches the table from its root id down is exactly the tree `NewGroup` builds for that id. |
| `Groups.TreeIndependentOfRank` | _server/main.go:119-147 | The resolved tree depends only on the table. Any rank that covers the id yields the same tree. |
| `Groups.HeightBoundedByRank` | _server/main.go:142-145 | The recursion is no deeper than the rank of the starting id, plus one. |
| `Groups.VirtualGroups` | _server/main.go:158-175 | Unsorted (-1), Trash (-2) and Everything (-3), in that order, each with an empty icon, not collapsed and with no children. |
| `Groups.ListGroups` | _server/main.go:156-179 | The output has 3 + (number of roots) entries. It starts with Unsorted (-1), Trash (-2) and Everything (-3), in that order, each with an empty icon, not collapsed and with no children. Entry 3 + i is the tree of root i, in the order the root query returned the roots. With no roots, the output is exactly the three virtual groups. |
| `Groups.Lookup` | _server/main.go:124-140 | An id with a row reads as that row. An id without one reads as the zero-valued row: empty name and icon, not collapsed, no children. |
| `Groups.PhotosExample` | _server/main.go:120-147 | Root "Photos" (5) with one child "2024" (9) resolves to node 5, whose only child is node 9. |
| `Groups.UnreachableCycleExample` | _server/main.go:119-179 | With root 5 and groups 7 and 8 each other's parent, the tree of root 5 is still resolved. |
| `Groups.CreateGroup` | _server/main.go:203-207 | The record's parent field is the zero value, making a root, exactly when the requested parent is 0 or negative. A non-negative requested parent is copied into the field, and the field is never negative. The record keeps the cluster and the name, and it is not collapsed. |
| `Groups.NegativeParentIsZeroParent` | _server/main.go:203-206 | A negative requested parent and a requested parent of 0 build the same record. |
| `Groups.VirtualParentMakesRoot` | _server/main.go:158-207 | Choosing a virtual group (-1, -2, -3) as the parent creates a root record. |
| `MediaFilter.GroupCondition` | _server/main.go:249-255 | The group condition is empty exactly for -3. It is the `IS NULL` test exactly for -1. Every other id, -2 included, gets the equality condition. |
| `MediaFilter.Clause` | _server/main.go:249-256 | The clause always starts with the cluster filter `WHERE "cluster" = c `. The group condition follows it. |
| `MediaFilter.WhereClause` | _server/main.go:249-256 | The handler's step-by-step construction yields exactly `Clause(cluster, group)`. |
| `MediaFilter.ConditionDeterminesGroup` | _server/main.go:249-255 | Distinct group ids give distinct group conditions. |
| `MediaFilter.ClauseDeterminesRequest` | _server/main.go:249-256 | Two requests get the same clause only if they have the same cluster and the same group. |
| `MediaFilter.TrashFilteredByEquality` | _server/main.go:249-256 | The trash (-2) is filtered by `AND "group" = -2`, like a stored group. |
| `Base.HasPrefix` | _server/main.go:305 | `s` starts with `prefix` exactly when `prefix` is no longer than `s` and they agree on every character of `prefix`. |
| `Base.Itoa` | _server/main.go:313 | An integer prints as optional minus and digits, with no space and no `/`. |
| `Base.ItoaRoundTrip` | _server/main.go:249-256 | Reading back the decimal text of an integer gives that integer, so `%d` loses nothing. |
| `Placeholders.NumberAt` | _server/main.go:401 | The lookup of `streams.i.attr` gives a number exactly when stream `i` exists and holds a number under `attr`, and then it is that number. |
| `Placeholders.FirstNumberIndex` | _server/main.go:400-402 | The result is the smallest stream index, from the start index on, whose stream holds a number under the attribute. |
| `Placeholders.GetAttribute` | _server/main.go:396-405 | When some stream holds a number under the attribute, the loop ends. It returns the value from the first such stream. |
| `Placeholders.ScaleFactor` | _server/main.go:410-415 | `k` times the larger side is 650. |
| `Placeholders.ScaledBox` | _server/main.go:410-421 | For a positive width and height, the larger scaled side is 650, and the scaled box has the original aspect ratio. |
| `Placeholders.FullHdExample` | _server/main.go:410-415 | 1920 by 1080 scales to 650 by 365.625. |
| `Placeholders.Placeholder` | _server/main.go:382-421 | A failed probe gives 422 "Failed to get media information". Unparsable probe output gives 422 "Failed to parse media information". Otherwise the response is `image/svg+xml`. Its view box and its rectangle are the same scaled width and height. These are the first numeric width and height scaled by `k`. They keep the aspect ratio, and for a positive box the larger side is 650. |
| `Thumbnails.MediaPath` | _server/main.go:431 | The media path is `media/` followed by the cluster, a `/` and the id. |
| `Thumbnails.ThumbnailPath` | _server/main.go:432 | The thumbnail path is `thumbnails/` followed by the cluster, a `/`, the id and `.webp`. |
| `Thumbnails.MediaPathInjective` | _server/main.go:313 | When cluster names contain no `/`, different (cluster, id) pairs have different media paths, so one upload never overwrites another. |
| `Thumbnails.TranscodeArgs` | _server/main.go:448-451 | The arguments always hold `vframes` 1, `format` image2 and `vcodec` libwebp. They hold `ss` 7 exactly when the sniffed type starts with "video". There are no other arguments. |
| `Thumbnails.Serve` | _server/main.go:431-472 | A cache hit serves the cached bytes and leaves the disk unchanged. A miss with no source gives 404 and writes nothing. A miss with a source serves the transcoder's output on that source, with the arguments for its sniffed type. A failed transcode gives 422 and writes nothing. Only the thumbnail's own path can change. A success always carries `images/webp`. A successful write caches exactly the served bytes; a failed write leaves the disk as it was. |
| `Thumbnails.MediaStore.Thumbnail` | _server/main.go:431-472 | The handler's response and the new disk are exactly what `Serve` gives for the old disk. |
| `Thumbnails.CacheNeverOverwritesMedia` | _server/main.go:431-432 | The thumbnail path is never a media path, so the cache never overwrites an upload. |
| `Thumbnails.ThumbnailPathInjective` | _server/main.go:432 | When cluster names contain no `/`, different (cluster, id) pairs have different thumbnail paths. |
| `Thumbnails.SecondRequestHitsCache` | _server/main.go:436-472 | After a served and written thumbnail, the next request is a cache hit. It returns the same response and leaves the disk as it is, whatever the sniffer and the transcoder would now do. |
| `Thumbnails.RetryGivesSameResponse` | _server/main.go:436-472 | Repeating a request with the same sniffer and transcoder outcome gives the same response, whether or not either cache write succeeded. A transient transcoder failure followed by a success is outside the model. |
| `Uploads.Accepted` | _server/main.go:305 | A sniffed type is accepted exactly when its first five characters are `image` or `video`. |
| `Uploads.Upload` | _server/main.go:305-313 | An upload is refused exactly when its sniffed type is not `Accepted`, that is, starts with neither "image" nor "video". A kept upload's record carries that type, the file name, the cluster and the group. Its file path is `media/{cluster}/{id}`. |
| `Uploads.Status` | _server/main.go:305-315 | A refused upload answers 415. A kept one answers 200. |
| `Uploads.AcceptanceExamples` | _server/main.go:305-308 | `image/png` is kept. `application/pdf` is refused with 415. |
| `Uploads.SavedUploadHasThumbnailSource` | _server/main.go:313 | Once a kept upload's file is on disk, a thumbnail request for the same cluster and id never answers 404. |
| `Uploads.AcceptedVideoIsSought` | _server/main.go:305-451 | A kept upload that is not an image is a video, and its thumbnail is taken 7 seconds in. |

## Left out

- HTTP plumbing is not modelled: routing, CORS, JSON encoding and request-body decoding. The early returns of some handlers on bad cluster or group parameters are also left out. `GET /:cluster/:group/media` has none: it ignores the `strconv.Atoi` error, so a non-numeric cluster or group becomes 0 before the clause is built.
- The database is not modelled. Group rows, the result of the root query and the new record's id are inputs. The SQL text is not executed, and the media and tag rows that the filter selects are not modelled.
- Unmodelled endpoints: the tag endpoints, the collapsed-flag update, `/clusters`, `/info`, the static file routes and the empty DELETE handlers. They are thin wrappers around the store.
- The transcoder, the probe, content sniffing and JSON parsing of the probe output are external programs and libraries. They appear as function parameters or as the `Probe` input.
- The `utilities` package is not part of this model. Child ids arrive already parsed. A group without children is taken to parse to an empty list. `SavedUploadHasThumbnailSource` assumes the cluster text in a thumbnail request is the cluster's decimal number.
- Groups.ListGroups: the roots are taken as given. The model does not tie them to the rows without a parent.
- Groups.CreateGroup: the `config.Group` type is not part of this model. The record's parent is modelled as an integer whose zero value means no parent (`IsRoot`); how the store maps that zero to the NULL that the root query tests is an assumption.
- Groups.NewGroup: needs a rank over the ids reachable from its start id (`Ranked`). Every group a root reaches has a parent chain back to that root, so no cycle is reachable from a root and a rank always exists for the listing; a cycle can only form among groups no root reaches. The model does not derive the rank from the parent column; it takes it as a ghost input.
- Placeholders.GetAttribute: requires some stream to hold the attribute as a number. Without one, the source loops forever.
- Placeholders.Placeholder: requires the larger side to be non-zero. For a 0 by 0 box, the source's float64 division makes k +Inf, and the box is NaN by NaN. Geometry is over exact reals, so float64 rounding and the `%v` text of the SVG are not modelled.
- Thumbnails.Serve: the disk only knows whether a file exists. Read errors other than a missing file, and stat errors other than "does not exist", are not modelled. Concurrent requests and partial writes are not modelled either.
- Uploads.Upload: the writes of the record and of the file are returned as values. They are not applied to a store. The fatal exit on a missing form file is not modelled.
- Integers are unbounded. Go's 64-bit `int` limits on ids are not modelled.
