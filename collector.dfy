/**
 * The record pipeline of internal/collector/collector.go: a Kubernetes image
 * record is converted into a `CollectorImage` by resolving its labels and
 * annotations against cluster-wide defaults, then cleaned (the
 * `docker-pullable://` prefix dropped, a missing image id backfilled, the skip
 * flag recomputed), and finally the list is marshalled and written to a sink.
 *
 * `regexp.MatchString` is the parameter `rx`, which also reports a pattern that
 * does not compile; JSON encoding is the `jsonMarshal` parameter of `Store`; the
 * CycloneDX BOM is modelled at the level of its structs.
 */
module Collector {
  import opened Wrappers
  import opened Text
  import opened Helpers
  import Kubeclient

  /** The key prefixes of the four annotation families. */
  datatype AnnotationNames = AnnotationNames(base: string, scans: string, contact: string, defectDojo: string)

  datatype CollectorImage = CollectorImage(
    namespace: string,
    image: string,
    imageId: string,
    environment: string,
    product: string,
    description: string,
    appKubernetesIoName: string,
    appKubernetesIoVersion: string,
    containerType: string,
    skip: bool,
    namespaceFilter: string,
    namespaceFilterNegated: string,
    engagementTags: seq<string>,
    team: string,
    teamUuid: string,
    slack: string,
    email: string,
    owners: seq<Owner>,
    isScanBaseimageLifetime: bool,
    isScanDependencyCheck: bool,
    isScanDependencyTrack: bool,
    isScanDistroless: bool,
    isScanLifetime: bool,
    isScanMalware: bool,
    isScanNewVersion: bool,
    isScanRunAsRoot: bool,
    isPotentiallyRunningAsRoot: bool,
    isScanRunAsPrivileged: bool,
    isPotentiallyRunningAsPrivileged: bool,
    scanLifetimeMaxDays: int64)

  datatype RunConfig = RunConfig(imageFilter: seq<string>, namespaceToTeam: seq<string>)

  /** What `regexp.MatchString(pattern, s)` reports: a match, no match, or a pattern that does not compile. */
  datatype MatchOutcome = Matched | NotMatched | BadPattern

  type Matcher = (string, string) -> MatchOutcome

  // ---------------------------------------------------------------------------
  // Conversion
  // ---------------------------------------------------------------------------

  /** `convertK8ImageToCollectorImage`: labels merged with annotations, then every field resolved. */
  function ConvertK8ImageToCollectorImage(k8Image: Kubeclient.Image, defaults: CollectorImage, annotationNames: AnnotationNames,
                                          decodeOwners: OwnersDecoder): (r: CollectorImage)
    ensures r.namespace == k8Image.namespaceName && r.image == k8Image.image && r.imageId == k8Image.imageId
  {
    var tags := MapsCopy(k8Image.labels, k8Image.annotations);
    var base, scans, contact := annotationNames.base, annotationNames.scans, annotationNames.contact;
    CollectorImage(
      namespace := k8Image.namespaceName,
      image := k8Image.image,
      imageId := k8Image.imageId,
      environment := GetOrDefaultString(tags, base + "environment", defaults.environment),
      product := GetOrDefaultString(tags, base + "product", defaults.product),
      description := GetOrDefaultString(tags, base + "description", defaults.description),
      appKubernetesIoName := GetOrDefaultString(tags, "app.kubernetes.io/name", ""),
      appKubernetesIoVersion := GetOrDefaultString(tags, "app.kubernetes.io/version", ""),
      containerType := GetOrDefaultString(tags, base + "container-type", defaults.containerType),
      skip := GetOrDefaultBool(tags, scans + "skip", defaults.skip),
      namespaceFilter := GetOrDefaultString(tags, scans + "namespace-filter", defaults.namespaceFilter),
      namespaceFilterNegated := GetOrDefaultString(tags, scans + "negated_namespace_filter", defaults.namespaceFilterNegated),
      engagementTags := GetOrDefaultStringSlice(tags, annotationNames.defectDojo + "engagement-tags", defaults.engagementTags),
      team := GetOrDefaultString(tags, contact + "team", defaults.team),
      teamUuid := GetOrDefaultString(tags, contact + "team_uuid", defaults.teamUuid),
      slack := GetOrDefaultString(tags, contact + "slack", defaults.slack),
      email := GetOrDefaultString(tags, contact + "email", defaults.email),
      owners := GetOrDefaultOwners(tags, contact + "owners", defaults.owners, decodeOwners),
      isScanBaseimageLifetime := GetOrDefaultBool(tags, scans + "is-scan-baseimage-lifetime", defaults.isScanBaseimageLifetime),
      isScanDependencyCheck := GetOrDefaultBool(tags, scans + "is-scan-dependency-check", defaults.isScanDependencyCheck),
      isScanDependencyTrack := GetOrDefaultBool(tags, scans + "is-scan-dependency-track", defaults.isScanDependencyTrack),
      isScanDistroless := GetOrDefaultBool(tags, scans + "is-scan-distroless", defaults.isScanDistroless),
      isScanLifetime := GetOrDefaultBool(tags, scans + "is-scan-lifetime", defaults.isScanLifetime),
      isScanMalware := GetOrDefaultBool(tags, scans + "is-scan-malware", defaults.isScanMalware),
      isScanNewVersion := GetOrDefaultBool(tags, scans + "is-scan-new-version", defaults.isScanNewVersion),
      isScanRunAsRoot := GetOrDefaultBool(tags, scans + "is-scan-runasroot", defaults.isScanRunAsRoot),
      isPotentiallyRunningAsRoot := GetOrDefaultBool(tags, scans + "is-scan-potentially-running-as-root", defaults.isPotentiallyRunningAsRoot),
      isScanRunAsPrivileged := GetOrDefaultBool(tags, scans + "is-scan-run-as-privileged", defaults.isScanRunAsPrivileged),
      isPotentiallyRunningAsPrivileged := GetOrDefaultBool(tags, scans + "is-scan-potentially-running-as-privileged", defaults.isPotentiallyRunningAsPrivileged),
      scanLifetimeMaxDays := GetOrDefaultInt64(tags, scans + "scan-lifetime-max-days", defaults.scanLifetimeMaxDays))
  }

  /** A text field resolved from `key`: a non-empty tag value, otherwise the fallback. */
  ghost predicate StringResolved(tags: Tags, key: string, fallback: string, value: string) {
    (key in tags && tags[key] != "" ==> value == tags[key])
    && (key !in tags || tags[key] == "" ==> value == fallback)
  }

  /** A boolean field resolved from `key`: a boolean token, otherwise the fallback. */
  ghost predicate BoolResolved(tags: Tags, key: string, fallback: bool, value: bool) {
    (key in tags && tags[key] in TrueTokens ==> value)
    && (key in tags && tags[key] in FalseTokens ==> !value)
    && (key !in tags || tags[key] !in TrueTokens + FalseTokens ==> value == fallback)
  }

  /** The owners resolved from `key`: a non-empty value that decodes, otherwise the fallback. */
  ghost predicate OwnersResolved(tags: Tags, key: string, fallback: seq<Owner>, decode: OwnersDecoder, value: seq<Owner>) {
    (key in tags && tags[key] != "" && decode(tags[key]).Some? ==> value == decode(tags[key]).value)
    && (key !in tags || tags[key] == "" || decode(tags[key]).None? ==> value == fallback)
  }

  /**
   * Every field of a converted record comes from its own key, looked up in the labels
   * overlaid with the annotations, or else from the defaults; the two
   * `app.kubernetes.io` keys are unprefixed and fall back to "".
   */
  lemma ConvertResolvesEveryField(k8Image: Kubeclient.Image, defaults: CollectorImage, names: AnnotationNames, decodeOwners: OwnersDecoder)
    ensures var tags := MapsCopy(k8Image.labels, k8Image.annotations);
      var r := ConvertK8ImageToCollectorImage(k8Image, defaults, names, decodeOwners);
      StringResolved(tags, names.base + "environment", defaults.environment, r.environment)
      && StringResolved(tags, names.base + "product", defaults.product, r.product)
      && StringResolved(tags, names.base + "description", defaults.description, r.description)
      && StringResolved(tags, "app.kubernetes.io/name", "", r.appKubernetesIoName)
      && StringResolved(tags, "app.kubernetes.io/version", "", r.appKubernetesIoVersion)
      && StringResolved(tags, names.base + "container-type", defaults.containerType, r.containerType)
      && BoolResolved(tags, names.scans + "skip", defaults.skip, r.skip)
      && StringResolved(tags, names.scans + "namespace-filter", defaults.namespaceFilter, r.namespaceFilter)
      && StringResolved(tags, names.scans + "negated_namespace_filter", defaults.namespaceFilterNegated, r.namespaceFilterNegated)
      && (names.defectDojo + "engagement-tags" !in tags ==> r.engagementTags == defaults.engagementTags)
      && (names.defectDojo + "engagement-tags" in tags ==> r.engagementTags == Split(tags[names.defectDojo + "engagement-tags"], ','))
      && StringResolved(tags, names.contact + "team", defaults.team, r.team)
      && StringResolved(tags, names.contact + "team_uuid", defaults.teamUuid, r.teamUuid)
      && StringResolved(tags, names.contact + "slack", defaults.slack, r.slack)
      && StringResolved(tags, names.contact + "email", defaults.email, r.email)
      && OwnersResolved(tags, names.contact + "owners", defaults.owners, decodeOwners, r.owners)
      && BoolResolved(tags, names.scans + "is-scan-baseimage-lifetime", defaults.isScanBaseimageLifetime, r.isScanBaseimageLifetime)
      && BoolResolved(tags, names.scans + "is-scan-dependency-check", defaults.isScanDependencyCheck, r.isScanDependencyCheck)
      && BoolResolved(tags, names.scans + "is-scan-dependency-track", defaults.isScanDependencyTrack, r.isScanDependencyTrack)
      && BoolResolved(tags, names.scans + "is-scan-distroless", defaults.isScanDistroless, r.isScanDistroless)
      && BoolResolved(tags, names.scans + "is-scan-lifetime", defaults.isScanLifetime, r.isScanLifetime)
      && BoolResolved(tags, names.scans + "is-scan-malware", defaults.isScanMalware, r.isScanMalware)
      && BoolResolved(tags, names.scans + "is-scan-new-version", defaults.isScanNewVersion, r.isScanNewVersion)
      && BoolResolved(tags, names.scans + "is-scan-runasroot", defaults.isScanRunAsRoot, r.isScanRunAsRoot)
      && BoolResolved(tags, names.scans + "is-scan-potentially-running-as-root", defaults.isPotentiallyRunningAsRoot, r.isPotentiallyRunningAsRoot)
      && BoolResolved(tags, names.scans + "is-scan-run-as-privileged", defaults.isScanRunAsPrivileged, r.isScanRunAsPrivileged)
      && BoolResolved(tags, names.scans + "is-scan-potentially-running-as-privileged", defaults.isPotentiallyRunningAsPrivileged, r.isPotentiallyRunningAsPrivileged)
      && (names.scans + "scan-lifetime-max-days" in tags && ParseInt64(tags[names.scans + "scan-lifetime-max-days"]).Some? ==>
            r.scanLifetimeMaxDays == ParseInt64(tags[names.scans + "scan-lifetime-max-days"]).value)
      && (names.scans + "scan-lifetime-max-days" !in tags || ParseInt64(tags[names.scans + "scan-lifetime-max-days"]).None? ==>
            r.scanLifetimeMaxDays == defaults.scanLifetimeMaxDays)
  {
  }

  /** A record without labels or annotations is the defaults with its own name, image and id, and no app name or version. */
  lemma ConvertWithoutTags(k8Image: Kubeclient.Image, defaults: CollectorImage, names: AnnotationNames, decodeOwners: OwnersDecoder)
    requires k8Image.labels == map[] && k8Image.annotations == map[]
    ensures ConvertK8ImageToCollectorImage(k8Image, defaults, names, decodeOwners)
         == defaults.(namespace := k8Image.namespaceName, image := k8Image.image, imageId := k8Image.imageId,
                      appKubernetesIoName := "", appKubernetesIoVersion := "")
  {
  }

  /** For a key the annotations hold, the label of that key plays no part. */
  lemma ConvertAnnotationWins(k8Image: Kubeclient.Image, key: string, labelValue: string, defaults: CollectorImage,
                              names: AnnotationNames, decodeOwners: OwnersDecoder)
    requires key in k8Image.annotations
    ensures ConvertK8ImageToCollectorImage(k8Image.(labels := k8Image.labels[key := labelValue]), defaults, names, decodeOwners)
         == ConvertK8ImageToCollectorImage(k8Image, defaults, names, decodeOwners)
  {
    assert MapsCopy(k8Image.labels[key := labelValue], k8Image.annotations) == MapsCopy(k8Image.labels, k8Image.annotations);
  }

  // ---------------------------------------------------------------------------
  // Skip filters
  // ---------------------------------------------------------------------------

  /**
   * `isSkipImageByNamespace`: the stored flag, or a non-empty namespace filter that
   * matches the namespace, or a non-empty negated filter that matches it (a match
   * of the negated filter also means skip). A pattern that does not compile counts
   * as no match.
   */
  function IsSkipImageByNamespace(ci: CollectorImage, rx: Matcher): (r: bool)
    ensures r <==> (ci.skip
                    || (ci.namespaceFilter != "" && rx(ci.namespaceFilter, ci.namespace) == Matched)
                    || (ci.namespaceFilterNegated != "" && rx(ci.namespaceFilterNegated, ci.namespace) == Matched))
  {
    var isNamespaceFilter := rx(ci.namespaceFilter, ci.namespace).Matched?;
    var isNamespaceFilter' := if ci.namespaceFilter == "" then false else isNamespaceFilter;
    var isNamespaceFilterMatch := rx(ci.namespaceFilterNegated, ci.namespace).Matched?;
    var isNamespaceFilterNegated := if ci.namespaceFilterNegated != "" then isNamespaceFilterMatch else false;
    ci.skip || isNamespaceFilter' || isNamespaceFilterNegated
  }

  /** Some image filter compiles and matches the image. */
  ghost predicate ImageFilterMatches(filters: seq<string>, image: string, rx: Matcher) {
    exists i :: 0 <= i < |filters| && rx(filters[i], image) == Matched
  }

  /** `isSkipImageByImageFilter`: the first filter that compiles and matches ends the search. */
  method IsSkipImageByImageFilter(ci: CollectorImage, runConfig: RunConfig, rx: Matcher) returns (r: bool)
    ensures r <==> ImageFilterMatches(runConfig.imageFilter, ci.image, rx)
  {
    var i := 0;
    while i < |runConfig.imageFilter|
      invariant 0 <= i <= |runConfig.imageFilter|
      invariant forall j :: 0 <= j < i ==> rx(runConfig.imageFilter[j], ci.image) != Matched
    {
      var outcome := rx(runConfig.imageFilter[i], ci.image);
      var matched, err := outcome == Matched, outcome == BadPattern;
      if matched && !err {
        return true;
      }
      i := i + 1;
    }
    return false;
  }

  /** The skip decision for an already cleaned record. */
  ghost predicate SkipDecision(ci: CollectorImage, runConfig: RunConfig, rx: Matcher) {
    IsSkipImageByNamespace(ci, rx) || ImageFilterMatches(runConfig.imageFilter, ci.image, rx)
  }

  /** `isSkipImage`. */
  method IsSkipImage(ci: CollectorImage, runConfig: RunConfig, rx: Matcher) returns (r: bool)
    ensures r <==> SkipDecision(ci, runConfig, rx)
  {
    if IsSkipImageByNamespace(ci, rx) {
      return true;
    }
    r := IsSkipImageByImageFilter(ci, runConfig, rx);
  }

  // ---------------------------------------------------------------------------
  // Cleaning
  // ---------------------------------------------------------------------------

  const DockerPullable: string := "docker-pullable://"

  /** `cleanCollectorImageId`: the id without the prefix, or the image when that is empty. */
  function CleanCollectorImageId(ci: CollectorImage): (id: string)
    ensures RemoveAll(ci.imageId, DockerPullable) != "" ==> id == RemoveAll(ci.imageId, DockerPullable)
    ensures RemoveAll(ci.imageId, DockerPullable) == "" ==> id == ci.image
    ensures id == "" <==> RemoveAll(ci.imageId, DockerPullable) == "" && ci.image == ""
  {
    var imageId := RemoveAll(ci.imageId, DockerPullable);
    if imageId == "" then ci.image else imageId
  }

  /** The record `cleanCollectorImage` leaves behind. */
  ghost function Cleaned(ci: CollectorImage, runConfig: RunConfig, rx: Matcher): CollectorImage {
    var c1 := ci.(image := RemoveAll(ci.image, DockerPullable));
    var c2 := c1.(imageId := CleanCollectorImageId(c1));
    c2.(skip := SkipDecision(c2, runConfig, rx))
  }

  /** The `*CollectorImage` that cleaning updates in place. */
  class CollectorImageRef {
    var value: CollectorImage

    constructor (v: CollectorImage)
      ensures value == v
    {
      value := v;
    }
  }

  /** `cleanCollectorImage`: overwrites the image, the image id and then the skip flag. */
  method CleanCollectorImage(ci: CollectorImageRef, runConfig: RunConfig, rx: Matcher)
    modifies ci
    ensures ci.value == Cleaned(old(ci.value), runConfig, rx)
  {
    ci.value := ci.value.(image := RemoveAll(ci.value.image, DockerPullable));
    ci.value := ci.value.(imageId := CleanCollectorImageId(ci.value));
    var skip := IsSkipImage(ci.value, runConfig, rx);
    ci.value := ci.value.(skip := skip);
  }

  /** Cleaning touches the image, the image id and the skip flag and nothing else. */
  lemma CleanedKeepsOtherFields(ci: CollectorImage, runConfig: RunConfig, rx: Matcher)
    ensures var c := Cleaned(ci, runConfig, rx);
      c.(image := ci.image, imageId := ci.imageId, skip := ci.skip) == ci
  {
  }

  /** After cleaning, the image id is empty only when the cleaned image is empty too. */
  lemma CleanedIdEmptyOnlyWithImage(ci: CollectorImage, runConfig: RunConfig, rx: Matcher)
    ensures var c := Cleaned(ci, runConfig, rx);
      c.image == RemoveAll(ci.image, DockerPullable) && (c.imageId == "" ==> c.image == "")
  {
  }

  /**
   * The cleaned skip flag holds exactly when one of the four signals does: the stored
   * flag, a matching namespace filter, a matching negated filter, or an image filter
   * that compiles and matches the cleaned image.
   */
  lemma CleanedSkipSignals(ci: CollectorImage, runConfig: RunConfig, rx: Matcher)
    ensures var c := Cleaned(ci, runConfig, rx);
      c.skip <==> (ci.skip
                   || (ci.namespaceFilter != "" && rx(ci.namespaceFilter, ci.namespace) == Matched)
                   || (ci.namespaceFilterNegated != "" && rx(ci.namespaceFilterNegated, ci.namespace) == Matched)
                   || (exists i :: 0 <= i < |runConfig.imageFilter| && rx(runConfig.imageFilter[i], c.image) == Matched))
  {
  }

  /** Once set, the skip flag survives cleaning. */
  lemma CleanedSkipSticks(ci: CollectorImage, runConfig: RunConfig, rx: Matcher)
    requires ci.skip
    ensures Cleaned(ci, runConfig, rx).skip
  {
  }

  /** Patterns that do not compile, empty namespace filters and an empty filter list never cause a skip. */
  lemma CleanedNoSkipWithoutMatch(ci: CollectorImage, runConfig: RunConfig, rx: Matcher)
    requires !ci.skip
    requires ci.namespaceFilter == "" || rx(ci.namespaceFilter, ci.namespace) == BadPattern
    requires ci.namespaceFilterNegated == "" || rx(ci.namespaceFilterNegated, ci.namespace) == BadPattern
    requires forall i :: 0 <= i < |runConfig.imageFilter| ==>
      rx(runConfig.imageFilter[i], RemoveAll(ci.image, DockerPullable)) == BadPattern
    ensures !Cleaned(ci, runConfig, rx).skip
  {
  }

  /** `docker-pullable://nginx:1.25` with no id is cleaned to `nginx:1.25` for both image and id. */
  lemma CleanedPullablePrefixExample(ci: CollectorImage, runConfig: RunConfig, rx: Matcher)
    requires ci.image == "docker-pullable://nginx:1.25" && ci.imageId == ""
    ensures Cleaned(ci, runConfig, rx).image == "nginx:1.25"
    ensures Cleaned(ci, runConfig, rx).imageId == "nginx:1.25"
  {
    assert ci.image[..|DockerPullable|] == DockerPullable;
    assert ci.image[|DockerPullable|..] == "nginx:1.25";
    RemoveAllShort("nginx:1.25", DockerPullable);
  }

  /** `strings.ReplaceAll` can form a new prefix out of the pieces around the one it removes. */
  lemma RemoveAllFormsNewPrefix(head: string, tail: string)
    requires head == "docker-pull" && tail == "able://"
    ensures RemoveAll(head + DockerPullable + tail, DockerPullable) == DockerPullable
  {
    var b := DockerPullable + tail;
    assert head + DockerPullable + tail == head + b;
    forall j | 0 <= j < |head| ensures !StartsWith((head + b)[j..], DockerPullable) {
      if j == 0 {
        assert (head + b)[j..][11] != DockerPullable[11];
      } else {
        assert (head + b)[j..][0] != DockerPullable[0];
      }
    }
    RemoveAllKeepsPrefix(head, b, DockerPullable);
    RemoveAllLeadingMatch(DockerPullable, tail);
    RemoveAllShort(tail, DockerPullable);
  }

  /** Removing the prefix can form a new one, so cleaning a cleaned image may change it again. */
  lemma CleanedNotIdempotent(ci: CollectorImage, runConfig: RunConfig, rx: Matcher)
    requires ci.image == "docker-pull" + DockerPullable + "able://"
    ensures Cleaned(ci, runConfig, rx).image == DockerPullable
    ensures Cleaned(Cleaned(ci, runConfig, rx), runConfig, rx).image == ""
  {
    RemoveAllFormsNewPrefix("docker-pull", "able://");
    assert DockerPullable[..|DockerPullable|] == DockerPullable;
    assert RemoveAll(DockerPullable, DockerPullable) == RemoveAll("", DockerPullable);
  }

  // ---------------------------------------------------------------------------
  // ConvertImages and Store
  // ---------------------------------------------------------------------------

  /** `ConvertImages`: convert and clean every record, keeping order and count; it never fails. */
  method ConvertImages(k8Images: seq<Kubeclient.Image>, defaults: CollectorImage, annotationNames: AnnotationNames,
                       runConfig: RunConfig, decodeOwners: OwnersDecoder, rx: Matcher)
    returns (images: seq<CollectorImage>, err: Option<Error>)
    ensures err == None
    ensures |images| == |k8Images|
    ensures forall i :: 0 <= i < |k8Images| ==>
      images[i] == Cleaned(ConvertK8ImageToCollectorImage(k8Images[i], defaults, annotationNames, decodeOwners), runConfig, rx)
  {
    images := [];
    for i := 0 to |k8Images|
      invariant |images| == i
      invariant forall j :: 0 <= j < i ==>
        images[j] == Cleaned(ConvertK8ImageToCollectorImage(k8Images[j], defaults, annotationNames, decodeOwners), runConfig, rx)
    {
      var collectorImage := new CollectorImageRef(ConvertK8ImageToCollectorImage(k8Images[i], defaults, annotationNames, decodeOwners));
      CleanCollectorImage(collectorImage, runConfig, rx);
      images := images + [collectorImage.value];
    }
    err := None;
  }

  /** An `io.Writer`: it records every buffer written and answers with the error `respond` gives. */
  class Writer {
    var writes: seq<Bytes>
    const respond: Bytes -> Option<Error>

    constructor (respond: Bytes -> Option<Error>)
      ensures writes == [] && this.respond == respond
    {
      writes := [];
      this.respond := respond;
    }

    method Write(data: Bytes) returns (n: nat, err: Option<Error>)
      modifies this
      ensures writes == old(writes) + [data]
      ensures err == respond(data)
      ensures err.None? ==> n == |data|
    {
      writes := writes + [data];
      err := respond(data);
      n := if err.None? then |data| else 0;
    }
  }

  /** A `JsonMarshal`: the encoded bytes of the records, or an encoding error. */
  type JsonMarshal = seq<CollectorImage> -> Result<Bytes, Error>

  /**
   * `Store`: a nil list is refused with "cannot marshal nil"; a marshal error is
   * returned; otherwise the bytes are written once and the writer's error returned.
   */
  method Store(images: Option<seq<CollectorImage>>, storage: Writer, jsonMarshal: JsonMarshal) returns (err: Option<Error>)
    modifies storage
    ensures images.None? ==> err == Some(Error("cannot marshal nil")) && storage.writes == old(storage.writes)
    ensures images.Some? && jsonMarshal(images.value).Failure? ==>
      err == Some(jsonMarshal(images.value).error) && storage.writes == old(storage.writes)
    ensures images.Some? && jsonMarshal(images.value).Success? ==>
      storage.writes == old(storage.writes) + [jsonMarshal(images.value).value]
      && err == storage.respond(jsonMarshal(images.value).value)
  {
    if images.None? {
      return Some(Error("cannot marshal nil"));
    }
    var data := jsonMarshal(images.value);
    if data.Failure? {
      return Some(data.error);
    }
    var _, writeErr := storage.Write(data.value);
    if writeErr.Some? {
      return writeErr;
    }
    return None;
  }

  // ---------------------------------------------------------------------------
  // CycloneDX
  // ---------------------------------------------------------------------------

  datatype Property = Property(name: string, value: string)

  datatype Component = Component(componentType: string, name: string, version: string, packageURL: string,
                                 properties: seq<Property>)

  datatype Bom = Bom(bomFormat: string, specVersion: string, version: int, components: seq<Component>)

  /** The dynamic value `CycloneDXMarshal` receives: a `*[]CollectorImage` or anything else. */
  datatype MarshalInput = CollectorImages(images: seq<CollectorImage>) | OtherValue

  /** The names of the eleven scan-flag properties, in the order they are emitted. */
  const FlagNames: seq<string> := [
    "is_scan_baseimage_lifetime", "is_scan_dependency_check", "is_scan_dependency_track",
    "is_scan_distroless", "is_scan_lifetime", "is_scan_malware", "is_scan_new_version",
    "is_scan_runasroot", "is_scan_potentially_running_as_root", "is_scan_run_as_privileged",
    "is_scan_potentially_running_as_privileged"]

  /** The property names of a component, in the order they are emitted. */
  const PropertyNames: seq<string> := [
    "namespace", "environment", "product", "description", "app_kubernetes_io_name", "container_type",
    "team", "slack", "email"] + FlagNames + ["scan_lifetime_max_days"]

  /** The eleven scan flags, in the same order as `FlagNames`. */
  function ScanFlags(img: CollectorImage): (flags: seq<bool>)
    ensures |flags| == |FlagNames|
  {
    [img.isScanBaseimageLifetime, img.isScanDependencyCheck, img.isScanDependencyTrack, img.isScanDistroless,
     img.isScanLifetime, img.isScanMalware, img.isScanNewVersion, img.isScanRunAsRoot,
     img.isPotentiallyRunningAsRoot, img.isScanRunAsPrivileged, img.isPotentiallyRunningAsPrivileged]
  }

  /** The text-valued properties: the fields copied as they are. */
  function TextProperties(img: CollectorImage): seq<Property> {
    [Property("namespace", img.namespace),
     Property("environment", img.environment),
     Property("product", img.product),
     Property("description", img.description),
     Property("app_kubernetes_io_name", img.appKubernetesIoName),
     Property("container_type", img.containerType),
     Property("team", img.team),
     Property("slack", img.slack),
     Property("email", img.email)]
  }

  /** The flag properties: each flag under its name, formatted by `strconv.FormatBool`. */
  function FlagProperties(img: CollectorImage): seq<Property> {
    seq(|FlagNames|, k requires 0 <= k < |FlagNames| => Property(FlagNames[k], FormatBool(ScanFlags(img)[k])))
  }

  /** The component of one record. */
  function ComponentOf(img: CollectorImage): Component {
    Component("container", img.image, img.appKubernetesIoVersion, img.imageId,
              TextProperties(img) + FlagProperties(img)
              + [Property("scan_lifetime_max_days", FormatInt(img.scanLifetimeMaxDays))])
  }

  /** The BOM of a list of records: CycloneDX 1.5, version 1, one component per record. */
  function BomOf(images: seq<CollectorImage>): Bom {
    Bom("CycloneDX", "1.5", 1, seq(|images|, i requires 0 <= i < |images| => ComponentOf(images[i])))
  }

  /** `CycloneDXMarshal` up to the JSON text: the BOM built component by component. */
  method CycloneDXMarshal(v: MarshalInput) returns (r: Result<Bom, Error>)
    ensures v.OtherValue? ==> r == Failure(Error("invalid type, expected *[]CollectorImage"))
    ensures v.CollectorImages? ==> r == Success(BomOf(v.images))
  {
    if !v.CollectorImages? {
      return Failure(Error("invalid type, expected *[]CollectorImage"));
    }
    var images := v.images;
    var components := [];
    for i := 0 to |images|
      invariant components == seq(i, j requires 0 <= j < i => ComponentOf(images[j]))
    {
      components := components + [ComponentOf(images[i])];
    }
    r := Success(Bom("CycloneDX", "1.5", 1, components));
  }

  /** One container component per record, in input order, named by image, versioned by app version, with the id as purl. */
  lemma BomComponents(images: seq<CollectorImage>, i: nat)
    requires i < |images|
    ensures BomOf(images).bomFormat == "CycloneDX" && BomOf(images).specVersion == "1.5" && BomOf(images).version == 1
    ensures |BomOf(images).components| == |images|
    ensures var c := BomOf(images).components[i];
      c.componentType == "container" && c.name == images[i].image
      && c.version == images[i].appKubernetesIoVersion && c.packageURL == images[i].imageId
  {
  }

  /** Every component carries the 21 properties in the fixed order. */
  lemma ComponentPropertyNames(img: CollectorImage)
    ensures |ComponentOf(img).properties| == |PropertyNames| == 21
    ensures forall i :: 0 <= i < |PropertyNames| ==> ComponentOf(img).properties[i].name == PropertyNames[i]
  {
    var p := ComponentOf(img).properties;
    forall i | 0 <= i < |PropertyNames| ensures p[i].name == PropertyNames[i] {
      if i < 9 {
        assert p[i] == TextProperties(img)[i];
      } else if i < 20 {
        assert p[i] == FlagProperties(img)[i - 9];
      }
    }
  }

  /** The text-valued properties copy their fields. */
  lemma ComponentTextProperties(img: CollectorImage)
    ensures ComponentOf(img).properties[..9] == [
      Property("namespace", img.namespace), Property("environment", img.environment),
      Property("product", img.product), Property("description", img.description),
      Property("app_kubernetes_io_name", img.appKubernetesIoName), Property("container_type", img.containerType),
      Property("team", img.team), Property("slack", img.slack), Property("email", img.email)]
  {
    assert ComponentOf(img).properties[..9] == TextProperties(img);
  }

  /** The scan flags are written as "true" or "false", each reading back as its flag. */
  lemma ComponentFlagsReadBack(img: CollectorImage)
    ensures forall k :: 0 <= k < |FlagNames| ==>
      ComponentOf(img).properties[9 + k].value in {"true", "false"}
      && ParseBool(ComponentOf(img).properties[9 + k].value) == Some(ScanFlags(img)[k])
  {
    var p := ComponentOf(img).properties;
    forall k | 0 <= k < |FlagNames|
      ensures p[9 + k].value in {"true", "false"} && ParseBool(p[9 + k].value) == Some(ScanFlags(img)[k])
    {
      assert p[9 + k] == FlagProperties(img)[k];
    }
  }

  /** The day count is written in decimal and reads back as the number. */
  lemma ComponentDayCountReadsBack(img: CollectorImage)
    ensures ComponentOf(img).properties[20].name == "scan_lifetime_max_days"
    ensures ParseInt64(ComponentOf(img).properties[20].value) == Some(img.scanLifetimeMaxDays)
  {
    ParseFormatInt64(img.scanLifetimeMaxDays);
  }

  /** The skip flag, the team uuid, the owners, the engagement tags and both namespace filters are not emitted. */
  lemma ComponentOmitsFields(img: CollectorImage)
    ensures forall i :: 0 <= i < |ComponentOf(img).properties| ==>
      ComponentOf(img).properties[i].name !in {"skip", "team_uuid", "owners", "engagement_tags", "namespace_filter", "namespace_filter_negated"}
  {
    ComponentPropertyNames(img);
  }
}
