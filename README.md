# image-metadata-collector, modelled in Dafny

The image metadata collector reads the workloads of a Kubernetes cluster and produces a report of the
container images they run. Each image record carries policy settings taken from the workload's labels and
annotations, with cluster-wide defaults as the fallback. The report is then written to a sink: an HTTP API,
an S3 bucket, git, a file or standard output.

This project models the in-memory core of that pipeline and proves what it promises:

- **Image assembly** (`kubeclient.dfy`, module `Kubeclient`). Pods, jobs and cron jobs, given as plain
  records, become `Image` values.
  - Container statuses consume a name→image map in place (`CreateImageAndAppend`).
  - Unconsumed spec containers are emitted as leftovers, in whatever order Go's map iteration picks.
  - Labels and annotations are merged with the namespace's.
  - Every image gets an image type.
- **Annotation resolvers** (`helpers.dfy`, module `Helpers`). These are the typed get-or-default lookups:
  bool, string, int64, comma-split lists, owners and notifications.
- **Record pipeline** (`collector.dfy`, module `Collector`):
  - conversion of an `Image` into a `CollectorImage`;
  - cleaning of the `docker-pullable://` prefix and backfilling of the image id;
  - the skip decision with its four signals;
  - `ConvertImages` and `Store`;
  - the CycloneDX 1.5 component and property mapping.
- **HTTP sink** (`api.dfy`, module `ApiStorage`):
  - checks of the configuration;
  - the 6 MiB size and compression policy;
  - header assembly;
  - the order in which `Write` reports its errors.
- **S3 sink** (`s3.dfy`, module `S3Storage`): the constructor, the logger's level mapping and the return
  contract of `Write`.
- **Sink selection** (`storage.dfy`, module `Storage`): the file name default and the storage-flag switch.
- **Legacy command** (`collector_entry.dfy`, `legacy_s3.dfy`, `legacy_storage.dfy`): the chat-channel check
  and field tags of a `CollectorEntry`, the legacy S3 uploader and its object key, and the legacy storage
  switch.
- **Shared pieces.** `text.dfy` (module `Text`) models the Go standard-library functions the core relies on:
  - `strconv.ParseBool`, `ParseInt` and `FormatInt`;
  - `strings.Split`, `Join`, `ReplaceAll` and `SplitN(s, ":", 2)`;
  - `path.Base` and `maps.Copy`.

  `wrappers.dfy` (module `Wrappers`) holds `Option`, `Result` and the `Error` value, which stands for a Go
  `error` by its message.

## How the outside world enters

Behaviour the repository takes from libraries or the network becomes a parameter:

- **Regular expressions.** `regexp.MatchString` is a `Matcher`. It answers `Matched`, `NotMatched` or
  `BadPattern`; a pattern that does not compile counts as no match. The one exception is the fixed channel
  pattern `^#[\w.\-]+$`, which is modelled exactly.
- **JSON.** Decoding is a partial function (`OwnersDecoder`, `NotificationsDecoder`). Encoding is the
  `JsonMarshal` parameter of `Store`.
- **gzip.** Compression is a `Compressor`: bytes to bytes, or an error.
- **HTTP.** `http.NewRequest` failing is a `RequestBuilder`. The server's answer is a `Transport`, seen
  through the `Client` class, which records every request it sends.
- **AWS SDK.** Loading the configuration, opening a session and uploading are functions to an optional error.
- **Kubernetes.** The three `List` calls are functions from a namespace name to the records or an error.
- **Unseen constructors.** The git and file-system constructors and `os.Create` are parameters.
- **Go maps** are Dafny maps, and a nil map reads as empty. `maps.Copy(dst, src)` is `MapsCopy`, in which
  the source wins. The map that `CreateImageAndAppend` deletes from is the class `ContainerImageMap`. The
  record that `cleanCollectorImage` overwrites is the class `CollectorImageRef`.
- **Map iteration order.** The leftover loops pick their next name with a free choice. They return the
  visiting order as an extra result. Every property about leftovers holds for every order the loops can
  choose, and a pod yields the same multiset of images for all of them (`PodImagesOrderIndependent`).
- **The guard `&Image{} != &image`.** It compares the addresses of two different variables. The model takes
  the addresses of two freshly allocated `ImageCell` objects, which are always distinct, so every status
  entry is appended, the zero image included.

## Where the code and the written description differ (the model follows the code)

- When a workload is merged with its namespace, the **namespace** value overwrites the workload value for a
  shared key: `maps.Copy(labels, namespace.Labels)` at internal/pkg/kubeclient/kubeclient.go:131-142.
- The skip flag is the OR of four signals, not three. The image filter of `isSkipImage` is the fourth:
  internal/collector/collector.go:123-125.
- Pod containers that are not init containers get the image type `other`.
- Cleaning is not idempotent. `strings.ReplaceAll` can form a new `docker-pullable://` out of the pieces
  around the one it removes (`Collector.CleanedNotIdempotent`).

## Model

| member | source | states |
|---|---|---|
| Text.MapsCopy | internal/collector/collector.go:76-81 | the merged map has the keys of both maps; a key of the second map takes its value there, every other key keeps the first map's value |
| Text.FormatBool | internal/collector/collector.go:238-248 | `%v` of a bool is "true" or "false", and ParseBool reads it back as the same bool |
| Text.FormatInt | internal/collector/collector.go:249 | the decimal text is non-empty digits whose value is the number, with a leading `-` for a negative one |
| Text.ParseFormatInt64 | internal/collector/helpers.go:49 | every int64 written in decimal is parsed back as itself |
| Text.ParseInt64Rejects | internal/collector/helpers.go:49-53 | an empty text, or one without a sign that is not all digits (for example "1.23" or "true"), does not parse |
| Text.ParseInt64OutOfRange | internal/collector/helpers.go:49-53 | digits beyond the int64 range are rejected with or without a sign, -2^63 is accepted, and a bare sign or "-1.5" is rejected |
| Text.Split | internal/collector/helpers.go:63 | splitting gives one more part than there are separators, and no part holds the separator |
| Text.JoinSplit | internal/collector/helpers.go:63 | joining the parts of a split with the separator gives back the original text |
| Text.SplitNoSeparator | internal/collector/helpers.go:63 | a text without the separator splits into itself alone, so "" gives [""] |
| Text.SplitAfterSeparator | internal/collector/helpers.go:63 | a separator-free head followed by the separator is split off as the first part |
| Text.SplitJoin | internal/collector/helpers.go:63 | separator-free parts that are joined split back into the same parts |
| Text.RemoveAll | internal/collector/collector.go:157 | removing every occurrence never makes a text longer |
| Text.RemoveAllWithoutOccurrence | internal/collector/collector.go:157 | a text that does not contain the pattern is left unchanged |
| Text.RemoveAllKeepsPrefix | internal/collector/collector.go:157 | a head in which no occurrence starts is kept, and removal goes on in the rest |
| Text.RemoveAllLeadingMatch | internal/collector/collector.go:157 | a leading occurrence is dropped, and removal goes on after it |
| Text.RemoveAllShort | internal/collector/collector.go:157 | a text shorter than the pattern is left unchanged |
| Text.IndexOf | internal/pkg/storage/api/api.go:115 | gives the first index holding the character, or -1 exactly when the character does not occur |
| Text.SplitFirst | internal/pkg/storage/api/api.go:115-118 | gives no split exactly when the colon is missing; otherwise a colon-free name, the colon and the rest make up the text |
| Text.SplitFirstAt | internal/pkg/storage/api/api.go:115 | the split is at the first colon, and the value keeps any later colons |
| Text.TrimTrailingSlashes | internal/cmd/imagecollector/storage/s3/s3.go:106 | what is removed is a run of trailing slashes, and what remains does not end in one |
| Text.LastIndexOf | internal/cmd/imagecollector/storage/s3/s3.go:106 | gives the last index holding the character, or -1 |
| Text.PathBase | internal/cmd/imagecollector/storage/s3/s3.go:106 | the base is never empty, and it is "/" or holds no slash |
| Text.PathBaseOfName | internal/cmd/imagecollector/storage/s3/s3.go:106 | a plain name is its own base |
| Text.PathBaseDropsDirectories | internal/cmd/imagecollector/storage/s3/s3.go:106 | the directories in front of a name are dropped |
| Text.PathBaseTrailingSlash | internal/cmd/imagecollector/storage/s3/s3.go:106 | a trailing slash does not change the base |
| Text.PathBaseIdempotent | internal/cmd/imagecollector/storage/s3/s3.go:106 | taking the base twice is the same as taking it once |
| Helpers.ParseBoolTokens | internal/collector/helpers.go:19 | exactly 1, t, T, TRUE, true and True parse as true; exactly 0, f, F, FALSE, false and False parse as false; everything else fails |
| Helpers.GetOrDefaultBool | internal/collector/helpers.go:12-26 | a present true token gives true and a present false token gives false; an absent key or any other text gives the default |
| Helpers.GetOrDefaultString | internal/collector/helpers.go:29-40 | a present non-empty value is returned as it is; an absent key or an empty value gives the default; so the result is empty only when the default is empty |
| Helpers.GetOrDefaultInt64 | internal/collector/helpers.go:44-56 | a value that parses as a base-10 int64 is returned; an absent key or an unparsable value gives the default |
| Helpers.GetOrDefaultInt64Decimal | internal/collector/helpers.go:44-56 | a stored decimal spelling of any int64 is read back as that number, whatever the default |
| Helpers.GetOrDefaultStringSlice | internal/collector/helpers.go:59-68 | an absent key gives the default unchanged; a present key gives commas + 1 parts, none holding a comma, that join back into the stored text |
| Helpers.GetOrDefaultOwners | internal/collector/helpers.go:70-83 | an absent key or "" gives the default; a decode failure gives the default unchanged; otherwise exactly the decoded list |
| Helpers.FieldOrEmpty | internal/collector/helpers.go:91-92 | a list the JSON object does not mention is empty, not inherited |
| Helpers.GetOrDefaultNotifications | internal/collector/helpers.go:85-98 | the same three outcomes; a successful decode is a zero Notifications filled from the JSON |
| Helpers.NotificationsDecodeReplacesDefault | internal/collector/helpers.go:91-97 | once the value decodes, the default plays no part, and lists missing from the JSON come out empty |
| Helpers.ResolversReadOneKey | internal/collector/helpers.go:16-98 | two maps that agree on the key give the same result for all six resolvers, so each resolver reads only its key |
| Helpers.BoolExamples | internal/collector/helpers.go:12-26 | "true" gives true over a false default; an absent key, "some-string", "123", "a,b,c" and "1.23" give the default |
| Helpers.StringExamples | internal/collector/helpers.go:29-40 | "some-string" and "123" are returned verbatim; an absent key and "" give the default |
| Helpers.Int64OutOfRangeExample | internal/collector/helpers.go:44-56 | the decimal text of 2^63 gives the default, while that of the largest int64 is read |
| Helpers.Int64Examples | internal/collector/helpers.go:44-56 | "123" gives 123; "some-string", "1.23", "true", "a,b,c" and an absent key give the default |
| Helpers.StringSliceAbsentExample | internal/collector/helpers.go:59-68 | an absent key gives the default list |
| Helpers.StringSliceSingleExamples | internal/collector/helpers.go:59-68 | a comma-free value gives a one-element list |
| Helpers.StringSliceFloatExample | internal/collector/helpers.go:59-68 | a decimal number without a comma also gives a one-element list |
| Helpers.StringSliceEmptyExample | internal/collector/helpers.go:59-68 | a present empty value gives [""], not the default |
| Helpers.StringSliceSplitExample | internal/collector/helpers.go:59-68 | "a,b,c" gives ["a", "b", "c"] |
| Helpers.OwnersExamples | internal/collector/helpers.go:70-83 | "[]" gives an empty list even over a non-empty default; text that does not decode, "" and an absent key give the default |
| Kubeclient.SpecImageMap | internal/pkg/kubeclient/kubeclient.go:144-153 | the name→image map has one key per distinct container name |
| Kubeclient.SpecImageMapLastWins | internal/pkg/kubeclient/kubeclient.go:144-147 | a duplicated container name keeps the image of its last occurrence |
| Kubeclient.ContainerImageMap.constructor | internal/pkg/kubeclient/kubeclient.go:144-153 | the loop fills the map with exactly SpecImageMap of the containers |
| Kubeclient.Lookup | internal/pkg/kubeclient/kubeclient.go:309 | a Go map read gives the stored value, or "" for an absent key |
| Kubeclient.StatusImage | internal/pkg/kubeclient/kubeclient.go:306-330 | the status image wins over a non-empty spec image; with neither, the zero Image; otherwise the image carries the status id, the namespace, the given labels, annotations and type |
| Kubeclient.CreateImageAndAppend | internal/pkg/kubeclient/kubeclient.go:306-330 | the status name is deleted from the map in every case, and the image is StatusImage of the spec image read before the deletion |
| Kubeclient.ImageCell.constructor | internal/pkg/kubeclient/kubeclient.go:159 | a fresh cell holds the image whose address the guard takes |
| Kubeclient.StatusNamesAppend | internal/pkg/kubeclient/kubeclient.go:157-172 | one more status adds its name to the names consumed so far |
| Kubeclient.StatusImages | internal/pkg/kubeclient/kubeclient.go:157-172 | one image per status |
| Kubeclient.StatusImagesShape | internal/pkg/kubeclient/kubeclient.go:306-330 | each status image is the zero image or carries its status's id, the namespace, the labels, annotations and type |
| Kubeclient.StatusImagesStep | internal/pkg/kubeclient/kubeclient.go:157-172 | one more status appends its image, read from the map with the earlier status names already deleted |
| Kubeclient.StatusImagesFirstUse | internal/pkg/kubeclient/kubeclient.go:157-172 | a status whose name no earlier status used reads the spec image of that name |
| Kubeclient.LeftoverImage | internal/pkg/kubeclient/kubeclient.go:175-200 | a leftover has the spec image, an empty image id, the namespace, the merged maps and the map's type |
| Kubeclient.Leftovers | internal/pkg/kubeclient/kubeclient.go:175-200 | visiting names of the map gives one leftover image per name, in visiting order |
| Kubeclient.LeftoverImages | internal/pkg/kubeclient/kubeclient.go:175-200 | the loop visits every name of the unconsumed map exactly once, in some order, and emits Leftovers in that order |
| Kubeclient.StatusLoop | internal/pkg/kubeclient/kubeclient.go:157-172 | every status is appended, because the address guard is always true; the map loses exactly the status names; the images are StatusImages |
| Kubeclient.PodImages | internal/pkg/kubeclient/kubeclient.go:130-200 | a pod gives its init-status images, its container-status images, then the init leftovers and the container leftovers |
| Kubeclient.DistinctLength | internal/pkg/kubeclient/kubeclient.go:175-200 | a visiting order without repetitions is as long as the set of names |
| Kubeclient.PodImageCount | internal/pkg/kubeclient/kubeclient.go:144-200 | a pod gives init statuses + container statuses + unconsumed init names + unconsumed container names images |
| Kubeclient.PodImagesCarryMergedTags | internal/pkg/kubeclient/kubeclient.go:131-142 | every non-zero image of a pod carries the namespace and the pod maps merged with the namespace maps, in which the namespace wins |
| Kubeclient.PodLeftoversHaveNoId | internal/pkg/kubeclient/kubeclient.go:175-200 | the images after the status images have an empty id and the type init_container or other |
| Kubeclient.LeftoversSplit | internal/pkg/kubeclient/kubeclient.go:175-200 | the leftovers of two visiting orders placed one after the other are the leftovers of the first order followed by those of the second |
| Kubeclient.LeftoversRemoveAt | internal/pkg/kubeclient/kubeclient.go:175-200 | taking one name out of the order takes exactly its image out of the multiset of leftovers |
| Kubeclient.LeftoversOrderIndependent | internal/pkg/kubeclient/kubeclient.go:175-200 | any two visiting orders of the same names give the same multiset of leftover images |
| Kubeclient.EnumerationInit | internal/pkg/kubeclient/kubeclient.go:175-200 | proof step: without its last name, an enumeration enumerates the other names |
| Kubeclient.EnumerationMultiset | internal/pkg/kubeclient/kubeclient.go:175-200 | an order a leftover loop can produce holds every unconsumed name exactly once |
| Kubeclient.RemoveSameName | internal/pkg/kubeclient/kubeclient.go:175-200 | proof step: removing the same name from two permutations leaves permutations |
| Kubeclient.PodImagesOrderIndependent | internal/pkg/kubeclient/kubeclient.go:128-201 | for any two orders the leftover loops can choose, a pod yields the same multiset of images |
| Kubeclient.TemplateImages | internal/pkg/kubeclient/kubeclient.go:228-251 | one image per template container, in order, each with the spec image and no image id |
| Kubeclient.WorkloadImages | internal/pkg/kubeclient/kubeclient.go:210-252 | the job loop gives the container images with the job's type, then the init-container images |
| Kubeclient.WorkloadImagesShape | internal/pkg/kubeclient/kubeclient.go:213-251 | a job or cron job gives containers + init containers images; none has an id; all carry the namespace and the merged maps; containers come first with the given type, then init containers with init_container |
| Kubeclient.PodsImages | internal/pkg/kubeclient/kubeclient.go:128-201 | the pod loop appends the images of every pod, pod by pod |
| Kubeclient.WorkloadsImages | internal/pkg/kubeclient/kubeclient.go:210-252 | the job (or cron job) loop appends the images of every workload, in order |
| Kubeclient.NamespaceImages | internal/pkg/kubeclient/kubeclient.go:120-301 | one namespace gives its pods' images, then its jobs', then its cron jobs'; the first failing List call gives its error and no images |
| Kubeclient.PodsStep | internal/pkg/kubeclient/kubeclient.go:128-201 | one more pod adds its images after those of the earlier pods |
| Kubeclient.AllPodImagesPrefix | internal/pkg/kubeclient/kubeclient.go:128-201 | the orders chosen for later pods play no part in the images of earlier pods |
| Kubeclient.AndThen | internal/pkg/kubeclient/kubeclient.go:120-258 | an earlier failure stands; otherwise a new failure stands; otherwise the images are appended |
| Kubeclient.ListError | internal/pkg/kubeclient/kubeclient.go:120-258 | a namespace has no listing error exactly when its pods, jobs and cron jobs all list; a pod listing error comes first |
| Kubeclient.FirstListError | internal/pkg/kubeclient/kubeclient.go:120-258 | gives no error exactly when every namespace's List calls succeed |
| Kubeclient.GetImagesFailsOnFirstListError | internal/pkg/kubeclient/kubeclient.go:117-303 | GetImages fails exactly when some List call fails, with the error of the first one, whatever the leftover orders |
| Kubeclient.GetImages | internal/pkg/kubeclient/kubeclient.go:117-303 | the loop over namespaces gives all their images in namespace order, or the first listing error and no images |
| Kubeclient.NamespacesStepValid | internal/pkg/kubeclient/kubeclient.go:120-301 | the orders chosen for one more namespace join the valid orders |
| Kubeclient.NamespacesStep | internal/pkg/kubeclient/kubeclient.go:120-301 | one more namespace adds its images, or its error, to the result so far |
| Kubeclient.GetImagesPrefix | internal/pkg/kubeclient/kubeclient.go:117-303 | the orders chosen for later namespaces play no part in the result for earlier ones |
| Kubeclient.GetImagesFailurePersists | internal/pkg/kubeclient/kubeclient.go:124-125 | once a prefix of the namespaces fails, the whole run fails with the same error |
| Collector.ConvertK8ImageToCollectorImage | internal/collector/collector.go:75-121 | the namespace, image and image id are copied unchanged, and conversion always yields a record |
| Collector.ConvertResolvesEveryField | internal/collector/collector.go:76-117 | every resolved field (texts, flags, day count, engagement tags split at commas, and owners decoded when non-empty and valid) comes from prefix + suffix in the labels overlaid with the annotations, with the default as fallback; the two app.kubernetes.io keys are unprefixed and fall back to "" |
| Collector.ConvertWithoutTags | internal/collector/collector.go:75-121 | with neither labels nor annotations, the record is the defaults with its own namespace, image and id, and no app name or version |
| Collector.ConvertAnnotationWins | internal/collector/collector.go:76-81 | for a key the annotations hold, the label value of that key plays no part |
| Collector.IsSkipImageByNamespace | internal/collector/collector.go:140-153 | the result is the stored flag, or a non-empty namespace filter that matches, or a non-empty negated filter that matches (a match means skip); a bad pattern never matches |
| Collector.IsSkipImageByImageFilter | internal/collector/collector.go:127-137 | the loop answers true exactly when some filter compiles and matches the image |
| Collector.IsSkipImage | internal/collector/collector.go:123-125 | the result is the image-filter signal or the namespace signals |
| Collector.CleanCollectorImageId | internal/collector/collector.go:163-170 | the id without the prefix, or the image name when that becomes empty; so the result is empty only when both are |
| Collector.CleanCollectorImage | internal/collector/collector.go:156-161 | overwrites the image, then the id from the cleaned image, then the skip flag of the cleaned record |
| Collector.CleanedKeepsOtherFields | internal/collector/collector.go:156-161 | cleaning changes only the image, the image id and the skip flag |
| Collector.CleanedIdEmptyOnlyWithImage | internal/collector/collector.go:157-170 | after cleaning, the image id is empty only when the cleaned image is empty |
| Collector.CleanedSkipSignals | internal/collector/collector.go:123-160 | the cleaned skip flag holds exactly when the old flag, the namespace filter, the negated namespace filter or an image filter on the cleaned image fires |
| Collector.CleanedSkipSticks | internal/collector/collector.go:152-160 | a set skip flag is never reset by cleaning |
| Collector.CleanedNoSkipWithoutMatch | internal/collector/collector.go:127-152 | patterns that do not compile, empty namespace filters and an empty filter list never cause a skip |
| Collector.CleanedPullablePrefixExample | internal/collector/collector.go:156-170 | "docker-pullable://nginx:1.25" with no id gives "nginx:1.25" as both image and id |
| Collector.RemoveAllFormsNewPrefix | internal/collector/collector.go:157 | removing the one occurrence in "docker-pulldocker-pullable://able://" leaves "docker-pullable://" |
| Collector.CleanedNotIdempotent | internal/collector/collector.go:156-161 | cleaning such an image leaves the prefix, and cleaning again removes it, so cleaning is not idempotent |
| Collector.ConvertImages | internal/collector/collector.go:173-184 | the error is always nil; the output has the same length and order, and element i is input i converted then cleaned |
| Collector.Writer.constructor | internal/collector/collector.go:188 | a new writer has recorded no writes |
| Collector.Writer.Write | internal/collector/collector.go:201 | one call records its buffer and answers the writer's error |
| Collector.Store | internal/collector/collector.go:188-207 | a nil list gives "cannot marshal nil" and a marshal error is returned, neither writing; otherwise exactly one write of the marshalled bytes, whose error is returned unchanged |
| Collector.CycloneDXMarshal | internal/collector/collector.go:209-252 | a value that is not a record list gives "invalid type, expected *[]CollectorImage"; otherwise the loop builds the BOM of the records |
| Collector.BomComponents | internal/collector/collector.go:215-227 | the BOM is CycloneDX 1.5, version 1, with one container component per record, in order; each is named by the image, versioned by the app version, with the image id as purl |
| Collector.ComponentPropertyNames | internal/collector/collector.go:228-250 | every component has the 21 properties, in the fixed order |
| Collector.ComponentTextProperties | internal/collector/collector.go:229-237 | the first nine properties copy namespace, environment, product, description, app name, container type, team, slack and email |
| Collector.ComponentFlagsReadBack | internal/collector/collector.go:238-248 | the eleven flag properties are "true" or "false" and read back as their flags, in emission order |
| Collector.ComponentDayCountReadsBack | internal/collector/collector.go:249 | the last property is the day count, as decimal text that parses back as the number |
| Collector.ComponentOmitsFields | internal/collector/collector.go:228-250 | skip, team uuid, owners, engagement tags and both namespace filters are not emitted |
| ApiStorage.NewApi | internal/pkg/storage/api/api.go:22-41 | an empty key, then an empty signature, then an empty endpoint each give their own error; otherwise the writer holds the same configuration |
| ApiStorage.FixedHeaders | internal/pkg/storage/api/api.go:106-111 | x-api-key, x-api-signature and Content-Type: application/json are always set, and Content-Encoding: gzip only for a compressed body |
| ApiStorage.WithHeaders | internal/pkg/storage/api/api.go:114-120 | setting the extra headers succeeds exactly when each holds a colon; otherwise the error names the first header without one |
| ApiStorage.WithHeadersKeys | internal/pkg/storage/api/api.go:114-120 | the request gets exactly the names of the extra headers added |
| ApiStorage.WithHeadersLastWins | internal/pkg/storage/api/api.go:119 | the last extra header of a name decides that header's value |
| ApiStorage.WithHeadersKeepsOthers | internal/pkg/storage/api/api.go:106-120 | a header that no extra header names keeps its value |
| ApiStorage.WithOneHeader | internal/pkg/storage/api/api.go:115-119 | a header name:value with a colon-free name sets that name to the whole value, later colons included |
| ApiStorage.SetHeaders | internal/pkg/storage/api/api.go:114-120 | the header loop gives exactly WithHeaders, stopping at the first malformed header |
| ApiStorage.WriteSpec | internal/pkg/storage/api/api.go:72-137 | every error returns 0 and success returns the original length; success means a request went out and got status 200; a sent body is at most 6 MiB, compressed exactly above 6 MiB, with the fixed then the extra headers; transport errors are passed on and other statuses are quoted |
| ApiStorage.Client.constructor | internal/pkg/storage/api/api.go:73 | a new client has sent nothing |
| ApiStorage.Client.Do | internal/pkg/storage/api/api.go:122 | one call sends one request and gets the transport's answer |
| ApiStorage.Write | internal/pkg/storage/api/api.go:72-137 | the step-by-step method returns what WriteSpec gives and sends at most the one request it names |
| ApiStorage.WriteUpToLimitIgnoresCompressor | internal/pkg/storage/api/api.go:78-80 | up to and including 6 MiB the compressor plays no part, and the content is sent unchanged |
| ApiStorage.WriteAboveLimitSendsCompressed | internal/pkg/storage/api/api.go:80-111 | above 6 MiB the compressed stream is sent, with Content-Encoding: gzip unless an extra header replaces it |
| ApiStorage.WriteTooLargeAfterCompression | internal/pkg/storage/api/api.go:92-94 | a compressed body still above 6 MiB gives "content size is too large (N bytes)", with nothing sent, before the headers are looked at |
| ApiStorage.WriteCompressionFailure | internal/pkg/storage/api/api.go:82-85 | a compression error is returned with 0 and nothing sent |
| ApiStorage.WriteInvalidHeaderSendsNothing | internal/pkg/storage/api/api.go:114-118 | a malformed extra header gives an error, and no request is sent |
| ApiStorage.WriteSentHeaders | internal/pkg/storage/api/api.go:106-120 | a sent request has the fixed header names plus the extra names; key, signature and content type keep their values unless an extra header names them |
| S3Storage.NewS3 | internal/pkg/storage/s3/s3.go:51-68 | an empty bucket gives "S3_BUCKET is not set"; otherwise every field is stored as given, and path style holds exactly for a custom endpoint |
| S3Storage.LogLevelFor | internal/pkg/storage/s3/s3.go:38-48 | DEBUG maps to debug, WARN to warn, and every other classification to info |
| S3Storage.ConfigRequestFor | internal/pkg/storage/s3/s3.go:81-96 | a custom endpoint selects the static placeholder credentials, otherwise the default chain, always with the client's region |
| S3Storage.UploadFor | internal/pkg/storage/s3/s3.go:110-123 | the upload uses the bucket, the file name as key, the content, the path-style flag, and the endpoint override exactly when there is an endpoint |
| S3Storage.Write | internal/pkg/storage/s3/s3.go:71-131 | a configuration error and then an upload error are returned with 0; success returns the content length |
| S3Storage.NewS3EndpointChoices | internal/pkg/storage/s3/s3.go:81-115 | path style, the endpoint override and the placeholder credentials all come exactly with an endpoint |
| S3Storage.WriteEmptyContent | internal/pkg/storage/s3/s3.go:130 | writing empty content reports 0 bytes in every case |
| Storage.OutputFileName | internal/pkg/storage/storage.go:27-31 | the file name is FileName when set, otherwise environment + "-output.json" |
| Wrappers.MapValue | internal/pkg/storage/storage.go:35-52 | a constructor's error is passed on unchanged, and its success becomes the sink (or, in the legacy switch, the storer) |
| Storage.NewStorage | internal/pkg/storage/storage.go:22-53 | s3, api, git, fs and stdout select their constructors, which get the file name except for api; any other flag gives "Storage flag <flag> is not supported" |
| Storage.ApiSinkIgnoresFileName | internal/pkg/storage/storage.go:36-38 | the api sink depends on neither the file name nor the environment |
| Storage.S3DefaultObjectName | internal/pkg/storage/storage.go:27-35 | without a file name, the s3 client stores the object as "<environment>-output.json" |
| Storage.FlagIsCaseSensitive | internal/pkg/storage/storage.go:33-50 | "S3" is not "s3", so it is refused |
| ImageCollectorModel.CheckChannel | internal/cmd/imagecollector/model/collectorEntry.go:41-47 | one channel is reported exactly when it is set and does not match, quoting the pattern |
| ImageCollectorModel.ValidateCollectorEntry | internal/cmd/imagecollector/model/collectorEntry.go:38-48 | at most two reports, Slack before Rocketchat; each channel is reported exactly when it is non-empty and invalid |
| ImageCollectorModel.ValidateReadsOnlyChannels | internal/cmd/imagecollector/model/collectorEntry.go:38-48 | only the Slack and Rocketchat fields are inspected |
| ImageCollectorModel.ChannelExamples | internal/cmd/imagecollector/model/collectorEntry.go:39 | "#" alone, "general" and "#dev team" fail the pattern, and "#dev-team_1.x" matches |
| ImageCollectorModel.ValidChannelShape | internal/cmd/imagecollector/model/collectorEntry.go:39 | a valid channel is exactly "#" followed by a non-empty run of ASCII letters, digits, `_`, `.` and `-` |
| ImageCollectorModel.ValidChannelExtend | internal/cmd/imagecollector/model/collectorEntry.go:39 | appending channel characters to "#" or to a valid channel gives a valid channel |
| ImageCollectorModel.ContainerTypeExamples | internal/cmd/imagecollector/model/collectorEntry.go:10-20 | with the four required fields set, "application" and "third-party" satisfy the tags, while "Application" and "" do not |
| LegacyS3.NewS3 | internal/cmd/imagecollector/storage/s3/s3.go:26-77 | an empty bucket gives "S3_BUCKET is not set"; otherwise the parameters are stored as given, with path style exactly for a custom endpoint |
| LegacyS3.Upload | internal/cmd/imagecollector/storage/s3/s3.go:80-120 | a session error is returned first; otherwise the upload's error, for the content under the bucket and the object key |
| LegacyS3.ObjectKeyDropsDirectories | internal/cmd/imagecollector/storage/s3/s3.go:106 | the key is environment + "/imagecollector/" + the bare file name, and directories in front of it are dropped |
| LegacyS3.ObjectKeyTrailingSlash | internal/cmd/imagecollector/storage/s3/s3.go:106 | trailing slashes of the file name do not change the key |
| LegacyS3.ObjectKeyEmptyName | internal/cmd/imagecollector/storage/s3/s3.go:106 | an empty file name ends the key in "." |
| LegacyS3.ObjectKeyHasName | internal/cmd/imagecollector/storage/s3/s3.go:106 | the key always has a non-empty last part after "/imagecollector/" |
| LegacyStorage.NewStorage | internal/cmd/imagecollector/storage/storage.go:34-48 | s3 gets bucket, endpoint, region and insecure in that order; git gets its six fields; fs gets the base directory; any other flag is refused |
| LegacyStorage.S3ArgumentOrder | internal/cmd/imagecollector/storage/storage.go:36-37 | a non-empty bucket gives an s3 storer built from exactly those four settings |
| LegacyStorage.ApiAndStdoutUnsupported | internal/cmd/imagecollector/storage/storage.go:42-44 | "api" and "stdout" are refused with "Storage flag <flag> is not supported" |

## Left out

- Kubernetes access is left out: `NewClient`, `buildConfigFromFlags`, `GetNamespaces` and
  `GetAllImagesForAllNamespaces`. These are network I/O and `log.Fatal`. The listings are parameters.
- Map aliasing is left out. `maps.Copy` writes into Go maps that are shared with the namespace and between
  records, so one record's merge can leak into another. The model merges values (`MapsCopy`).
- The relative order of leftover images is left out. The order is chosen freely, and only the multiset of
  leftovers is fixed.
- The gzip byte format (RFC 1952 / RFC 1951) and the decompress∘compress round trip are left out. They come
  from the library; compression is a parameter.
- HTTP library behaviour is left out, because it is library code: `http.NewRequest` (other than its error),
  `client.Do` and net/http header-name canonicalisation.
  - ApiStorage.WithHeaders: keeps header names as given, so two spellings of one name that net/http would
    merge are separate entries here.
- The AWS SDK internals are left out: session and configuration loading, the transfer and upload managers,
  `getAwsLoglevel` and the SDK debug-logger set-up. These are SDK plumbing and logging.
- JSON and CycloneDX bytes are left out: `json.MarshalIndent`, `JsonIndentMarshal` and the JSON text of the
  BOM. They are library serialisation.
  - Collector.CycloneDXMarshal: returns the BOM structure instead of its JSON text. A marshalling error of
    that last step is not modelled.
  - Collector.CycloneDXMarshal: a nil `*[]CollectorImage`, which makes the source panic, is not modelled.
- `regexp` (RE2) semantics are left out. Only the outcome of a match is a parameter. Tags of
  go-playground/validator other than `required` and `oneof` (`ascii`, `email`, `numeric`) are also left out.
- zerolog output is left out in every file.
  - Collector.Store: models `log.Fatal` as logging only and returns the error. For a nil list that is what
    the source does too, since the fatal event is never sent (collector.go:192 has no `.Msg`). On a
    marshal error, though, collector.go:198 sends the fatal event, which ends the process before the return.
- Typed-nil interface values are left out. On a failure, `NewStorage` in both packages returns a non-nil
  `io.Writer` or `Storager` that holds a nil pointer. The model returns only the error.
- ImageCollectorModel.CollectorEntry keeps only the fields the two checks read. The other fields of the Go
  struct have no constraint that is modelled here.
- The git and file-system sinks, `os.Create` and `os.Stdout` are not part of this model beyond their
  selection. Their constructors are parameters.
- The CLI and configuration code are left out: `cmd/collector/main.go` (cobra/viper flags and environment
  binding) and its test.
