/**
 * The in-memory part of image assembly in internal/pkg/kubeclient/kubeclient.go:
 * for every namespace, its pods, jobs and cron jobs are turned into `Image`
 * records that carry the merged labels and annotations and an image type.
 *
 * The cluster is not contacted: the three `List` calls become function
 * parameters from a namespace name to either the listed records or an error.
 * Go map iteration order (the "leftover" loops) is a free choice made by the
 * methods; they return the order they chose as an extra result, and the
 * specification functions take that order as an argument.
 */
module Kubeclient {
  import opened Wrappers
  import opened Text

  datatype Namespace = Namespace(name: string, labels: Tags, annotations: Tags)

  datatype Image = Image(image: string, imageId: string, namespaceName: string,
                         labels: Tags, annotations: Tags, imageType: string)

  /** The zero `Image{}`. */
  const ZeroImage: Image := Image("", "", "", map[], map[], "")

  const ImageTypeJob: string := "job"
  const ImageTypeCronJob: string := "cronjob"
  const ImageTypeInitContainer: string := "init_container"
  const ImageTypeOther: string := "other"

  /** A container of a pod spec (`v1.Container`): only its name and image matter here. */
  datatype Container = Container(name: string, image: string)

  /** A `v1.ContainerStatus`: the container it reports on, the running image and its id. */
  datatype ContainerStatus = ContainerStatus(name: string, image: string, imageID: string)

  datatype Pod = Pod(labels: Tags, annotations: Tags,
                     containers: seq<Container>, initContainers: seq<Container>,
                     initContainerStatuses: seq<ContainerStatus>, containerStatuses: seq<ContainerStatus>)

  /** A job, or a cron job, reduced to its labels and the pod template's containers. */
  datatype Workload = Workload(labels: Tags, annotations: Tags,
                               containers: seq<Container>, initContainers: seq<Container>)

  /** What a `List` call of one kind of record returns for a namespace name. */
  type Lister<T> = string -> Result<seq<T>, Error>

  // ---------------------------------------------------------------------------
  // Name to image maps of a pod spec
  // ---------------------------------------------------------------------------

  function Names(cs: seq<Container>): set<string> {
    set i | 0 <= i < |cs| :: cs[i].name
  }

  /**
   * The map `containerImageMap[container.Name] = container.Image` builds: one entry
   * per distinct container name.
   */
  function SpecImageMap(cs: seq<Container>): (m: map<string, string>)
    ensures m.Keys == Names(cs)
    decreases |cs|
  {
    if cs == [] then map[]
    else
      var last := cs[|cs| - 1];
      assert Names(cs) == Names(cs[..|cs| - 1]) + {last.name} by {
        forall n | n in Names(cs) ensures n in Names(cs[..|cs| - 1]) + {last.name} {
          var i :| 0 <= i < |cs| && cs[i].name == n;
          if i < |cs| - 1 { assert cs[..|cs| - 1][i] == cs[i]; }
        }
      }
      SpecImageMap(cs[..|cs| - 1])[last.name := last.image]
  }

  /** A duplicated container name keeps the image of its last occurrence. */
  lemma {:induction false} SpecImageMapLastWins(cs: seq<Container>, i: nat)
    requires i < |cs|
    requires forall j :: i < j < |cs| ==> cs[j].name != cs[i].name
    ensures SpecImageMap(cs)[cs[i].name] == cs[i].image
    decreases |cs|
  {
    if i < |cs| - 1 {
      var init := cs[..|cs| - 1];
      assert init[i] == cs[i];
      forall j | i < j < |init| ensures init[j].name != init[i].name {
        assert init[j] == cs[j];
      }
      SpecImageMapLastWins(init, i);
    }
  }

  /** The Go map a pod's containers are collected into; `CreateImageAndAppend` deletes from it. */
  class ContainerImageMap {
    var entries: map<string, string>

    /** Lines 144-147 (and 150-153 for the init containers). */
    constructor (cs: seq<Container>)
      ensures entries == SpecImageMap(cs)
    {
      var m := map[];
      var i := 0;
      while i < |cs|
        invariant 0 <= i <= |cs|
        invariant m == SpecImageMap(cs[..i])
      {
        assert cs[..i + 1][..i] == cs[..i];
        m := m[cs[i].name := cs[i].image];
        i := i + 1;
      }
      assert cs[..|cs|] == cs;
      entries := m;
    }
  }

  /** A Go map read: the zero value "" for an absent key. */
  function Lookup(m: map<string, string>, k: string): (v: string)
    ensures k in m ==> v == m[k]
    ensures k !in m ==> v == ""
  {
    if k in m then m[k] else ""
  }

  // ---------------------------------------------------------------------------
  // CreateImageAndAppend
  // ---------------------------------------------------------------------------

  /**
   * The image `CreateImageAndAppend` builds from the spec image of the container
   * and its status: the running image wins over the spec image, and with neither
   * there is no image at all, only the zero value.
   */
  function StatusImage(containerImage: string, status: ContainerStatus, namespaceName: string,
                       labels: Tags, annotations: Tags, imageType: string): (r: Image)
    ensures containerImage == "" && status.image == "" ==> r == ZeroImage
    ensures status.image != "" ==> r.image == status.image
    ensures status.image == "" ==> r.image == containerImage
    ensures r != ZeroImage ==>
      r.imageId == status.imageID && r.namespaceName == namespaceName && r.labels == labels
      && r.annotations == annotations && r.imageType == imageType
    ensures (containerImage != "" || status.image != "") && (namespaceName != "" || imageType != "") ==> r != ZeroImage
  {
    if containerImage == "" && status.image == "" then ZeroImage
    else
      var imageName := if status.image != "" then status.image else containerImage;
      Image(imageName, status.imageID, namespaceName, labels, annotations, imageType)
  }

  /**
   * `CreateImageAndAppend`: reads the spec image for `status.Name`, always deletes that
   * name from the map, and builds the image.
   */
  method CreateImageAndAppend(containerImageMap: ContainerImageMap, status: ContainerStatus, namespace: Namespace,
                              labels: Tags, annotations: Tags, imageType: string) returns (image: Image)
    modifies containerImageMap
    ensures containerImageMap.entries == old(containerImageMap.entries) - {status.name}
    ensures image == StatusImage(Lookup(old(containerImageMap.entries), status.name), status, namespace.name,
                                 labels, annotations, imageType)
  {
    var containerImage := Lookup(containerImageMap.entries, status.name);
    containerImageMap.entries := containerImageMap.entries - {status.name};
    if containerImage == "" && status.image == "" {
      return ZeroImage;
    }
    var imageName: string;
    if status.image != "" {
      imageName := status.image;
    } else {
      imageName := containerImage;
    }
    image := Image(imageName, status.imageID, namespace.name, labels, annotations, imageType);
  }

  /** Holds an image so that its address can be taken, as `&image` does. */
  class ImageCell {
    const value: Image

    constructor (v: Image)
      ensures value == v
    {
      value := v;
    }
  }

  // ---------------------------------------------------------------------------
  // Images of one pod
  // ---------------------------------------------------------------------------

  function StatusNames(ss: seq<ContainerStatus>): set<string> {
    set i | 0 <= i < |ss| :: ss[i].name
  }

  lemma StatusNamesAppend(ss: seq<ContainerStatus>, i: nat)
    requires i < |ss|
    ensures StatusNames(ss[..i + 1]) == StatusNames(ss[..i]) + {ss[i].name}
  {
    var a, b := ss[..i + 1], ss[..i];
    forall n | n in StatusNames(a) ensures n in StatusNames(b) + {ss[i].name} {
      var j :| 0 <= j < |a| && a[j].name == n;
      if j < i { assert b[j] == a[j]; }
    }
    forall n | n in StatusNames(b) ensures n in StatusNames(a) {
      var j :| 0 <= j < |b| && b[j].name == n;
      assert a[j] == b[j];
    }
  }

  /**
   * The images the status loops append, one per status in status order: each status
   * sees the map with the names of the earlier statuses already deleted.
   */
  function StatusImages(m: map<string, string>, ss: seq<ContainerStatus>, namespaceName: string,
                        labels: Tags, annotations: Tags, imageType: string): (r: seq<Image>)
    ensures |r| == |ss|
    decreases |ss|
  {
    if ss == [] then []
    else
      var n := |ss| - 1;
      StatusImages(m, ss[..n], namespaceName, labels, annotations, imageType)
        + [StatusImage(Lookup(m - StatusNames(ss[..n]), ss[n].name), ss[n], namespaceName, labels, annotations, imageType)]
  }

  /** Each image of the status loops is the zero image or carries its status's id, the namespace, the tags and the type. */
  lemma {:induction false} StatusImagesShape(m: map<string, string>, ss: seq<ContainerStatus>, i: nat, namespaceName: string,
                                            labels: Tags, annotations: Tags, imageType: string)
    requires i < |ss|
    ensures var r := StatusImages(m, ss, namespaceName, labels, annotations, imageType);
      r[i] == ZeroImage
      || (r[i].imageId == ss[i].imageID && r[i].namespaceName == namespaceName && r[i].labels == labels
          && r[i].annotations == annotations && r[i].imageType == imageType)
    decreases |ss|
  {
    var n := |ss| - 1;
    if i < n {
      assert ss[..n][i] == ss[i];
      StatusImagesShape(m, ss[..n], i, namespaceName, labels, annotations, imageType);
    }
  }

  /** Extending the statuses by one appends the image of the new status, read from the map left so far. */
  lemma StatusImagesStep(m: map<string, string>, ss: seq<ContainerStatus>, i: nat, namespaceName: string,
                         labels: Tags, annotations: Tags, imageType: string)
    requires i < |ss|
    ensures StatusImages(m, ss[..i + 1], namespaceName, labels, annotations, imageType)
         == StatusImages(m, ss[..i], namespaceName, labels, annotations, imageType)
            + [StatusImage(Lookup(m - StatusNames(ss[..i]), ss[i].name), ss[i], namespaceName, labels, annotations, imageType)]
  {
    assert ss[..i + 1][..i] == ss[..i];
  }

  /** A status whose name was not reported before reads the spec image of that name. */
  lemma {:induction false} StatusImagesFirstUse(m: map<string, string>, ss: seq<ContainerStatus>, i: nat, namespaceName: string,
                                               labels: Tags, annotations: Tags, imageType: string)
    requires i < |ss|
    requires forall j :: 0 <= j < i ==> ss[j].name != ss[i].name
    ensures StatusImages(m, ss, namespaceName, labels, annotations, imageType)[i]
         == StatusImage(Lookup(m, ss[i].name), ss[i], namespaceName, labels, annotations, imageType)
    decreases |ss|
  {
    var n := |ss| - 1;
    if i < n {
      assert ss[..n][i] == ss[i];
      forall j | 0 <= j < i ensures ss[..n][j].name != ss[..n][i].name {
        assert ss[..n][j] == ss[j];
      }
      StatusImagesFirstUse(m, ss[..n], i, namespaceName, labels, annotations, imageType);
    } else {
      assert ss[i].name !in StatusNames(ss[..n]) by {
        forall j | 0 <= j < n ensures ss[..n][j].name != ss[i].name {
          assert ss[..n][j] == ss[j];
        }
      }
    }
  }

  /** The order in which a leftover loop visited the names of a map. */
  ghost predicate IsEnumeration(order: seq<string>, keys: set<string>) {
    (forall i, j :: 0 <= i < j < |order| ==> order[i] != order[j])
    && (forall i :: 0 <= i < |order| ==> order[i] in keys)
    && (forall k :: k in keys ==> k in order)
  }

  /** A leftover entry of a name to image map, one with no status. */
  function LeftoverImage(imageName: string, namespaceName: string, labels: Tags, annotations: Tags, imageType: string): (r: Image)
    ensures r.image == imageName && r.imageId == "" && r.imageType == imageType
    ensures r.namespaceName == namespaceName && r.labels == labels && r.annotations == annotations
  {
    Image(imageName, "", namespaceName, labels, annotations, imageType)
  }

  /**
   * The images a leftover loop appends when it visits the names of `rest` in `order`
   * (a name of `order` that `rest` does not hold is passed over).
   */
  function Leftovers(rest: map<string, string>, order: seq<string>, namespaceName: string,
                     labels: Tags, annotations: Tags, imageType: string): (r: seq<Image>)
    ensures (forall i :: 0 <= i < |order| ==> order[i] in rest) ==>
      |r| == |order|
      && forall i :: 0 <= i < |order| ==> r[i] == LeftoverImage(rest[order[i]], namespaceName, labels, annotations, imageType)
    decreases |order|
  {
    if order == [] then []
    else
      var n := |order| - 1;
      var before := Leftovers(rest, order[..n], namespaceName, labels, annotations, imageType);
      if order[n] in rest then before + [LeftoverImage(rest[order[n]], namespaceName, labels, annotations, imageType)]
      else before
  }

  /** The orders the two leftover loops of a pod visited their maps in. */
  datatype PodOrder = PodOrder(initOrder: seq<string>, containerOrder: seq<string>)

  /** The init container names that no init container status consumed. */
  function InitRest(pod: Pod): map<string, string> {
    SpecImageMap(pod.initContainers) - StatusNames(pod.initContainerStatuses)
  }

  /** The container names that no container status consumed. */
  function ContainerRest(pod: Pod): map<string, string> {
    SpecImageMap(pod.containers) - StatusNames(pod.containerStatuses)
  }

  ghost predicate ValidPodOrder(pod: Pod, order: PodOrder) {
    IsEnumeration(order.initOrder, InitRest(pod).Keys) && IsEnumeration(order.containerOrder, ContainerRest(pod).Keys)
  }

  /** A pod's images when its leftover names are visited in `order`. */
  function PodImagesIn(pod: Pod, namespace: Namespace, order: PodOrder): seq<Image> {
    var labels := MapsCopy(pod.labels, namespace.labels);
    var annotations := MapsCopy(pod.annotations, namespace.annotations);
    StatusImages(SpecImageMap(pod.initContainers), pod.initContainerStatuses, namespace.name, labels, annotations, ImageTypeInitContainer)
      + StatusImages(SpecImageMap(pod.containers), pod.containerStatuses, namespace.name, labels, annotations, ImageTypeOther)
      + Leftovers(InitRest(pod), order.initOrder, namespace.name, labels, annotations, ImageTypeInitContainer)
      + Leftovers(ContainerRest(pod), order.containerOrder, namespace.name, labels, annotations, ImageTypeOther)
  }

  /** The leftover loop of lines 175-186 (and 189-200): every unconsumed name, in some order. */
  method LeftoverImages(rest: map<string, string>, namespace: Namespace, labels: Tags, annotations: Tags, imageType: string)
    returns (images: seq<Image>, order: seq<string>)
    ensures IsEnumeration(order, rest.Keys)
    ensures images == Leftovers(rest, order, namespace.name, labels, annotations, imageType)
  {
    var remaining := rest;
    images := [];
    order := [];
    while remaining != map[]
      invariant forall i, j :: 0 <= i < j < |order| ==> order[i] != order[j]
      invariant forall i :: 0 <= i < |order| ==> order[i] in rest && order[i] !in remaining
      invariant forall k :: k in rest ==> k in remaining || k in order
      invariant forall k :: k in remaining ==> k in rest && remaining[k] == rest[k]
      invariant images == Leftovers(rest, order, namespace.name, labels, annotations, imageType)
      decreases |remaining|
    {
      var k :| k in remaining;
      var image := Image(remaining[k], "", namespace.name, labels, annotations, imageType);
      images := images + [image];
      assert (order + [k])[..|order|] == order;
      order := order + [k];
      remaining := remaining - {k};
    }
  }

  /**
   * A status loop, lines 157-163 (and 166-172): every status gives an image through
   * `CreateImageAndAppend`, and the address guard lets all of them through.
   */
  method StatusLoop(containerImageMap: ContainerImageMap, statuses: seq<ContainerStatus>, namespace: Namespace,
                    labels: Tags, annotations: Tags, imageType: string) returns (images: seq<Image>)
    modifies containerImageMap
    ensures containerImageMap.entries == old(containerImageMap.entries) - StatusNames(statuses)
    ensures images == StatusImages(old(containerImageMap.entries), statuses, namespace.name, labels, annotations, imageType)
  {
    ghost var initial := containerImageMap.entries;
    images := [];
    var i := 0;
    while i < |statuses|
      invariant 0 <= i <= |statuses|
      invariant containerImageMap.entries == initial - StatusNames(statuses[..i])
      invariant images == StatusImages(initial, statuses[..i], namespace.name, labels, annotations, imageType)
    {
      var image := CreateImageAndAppend(containerImageMap, statuses[i], namespace, labels, annotations, imageType);
      var zero := new ImageCell(ZeroImage);
      var cell := new ImageCell(image);
      if zero != cell {
        images := images + [image];
      }
      StatusImagesStep(initial, statuses, i, namespace.name, labels, annotations, imageType);
      StatusNamesAppend(statuses, i);
      i := i + 1;
    }
    assert statuses[..|statuses|] == statuses;
  }

  /** The images of one pod, lines 130-200. */
  method PodImages(pod: Pod, namespace: Namespace) returns (images: seq<Image>, order: PodOrder)
    ensures ValidPodOrder(pod, order)
    ensures images == PodImagesIn(pod, namespace, order)
  {
    var labels := MapsCopy(pod.labels, namespace.labels);
    var annotations := MapsCopy(pod.annotations, namespace.annotations);
    var containerImageMap := new ContainerImageMap(pod.containers);
    var initContainerImageMap := new ContainerImageMap(pod.initContainers);
    var fromInits := StatusLoop(initContainerImageMap, pod.initContainerStatuses, namespace, labels, annotations, ImageTypeInitContainer);
    var fromContainers := StatusLoop(containerImageMap, pod.containerStatuses, namespace, labels, annotations, ImageTypeOther);
    var initLeft, initOrder := LeftoverImages(initContainerImageMap.entries, namespace, labels, annotations, ImageTypeInitContainer);
    var containerLeft, containerOrder := LeftoverImages(containerImageMap.entries, namespace, labels, annotations, ImageTypeOther);
    order := PodOrder(initOrder, containerOrder);
    images := fromInits + fromContainers + initLeft + containerLeft;
  }

  /** Dropping the last name of an enumeration enumerates the other names. */
  lemma EnumerationInit(order: seq<string>, keys: set<string>)
    requires IsEnumeration(order, keys) && order != []
    ensures order[|order| - 1] in keys
    ensures IsEnumeration(order[..|order| - 1], keys - {order[|order| - 1]})
  {
    var n := |order| - 1;
    var init := order[..n];
    forall k | k in keys - {order[n]} ensures k in init {
      var j :| 0 <= j < |order| && order[j] == k;
      assert j != n;
      assert init[j] == k;
    }
    forall i | 0 <= i < |init| ensures init[i] in keys - {order[n]} {
      assert init[i] == order[i];
    }
  }

  /** A sequence without repetitions is as long as the set of its elements. */
  lemma {:induction false} DistinctLength(order: seq<string>, keys: set<string>)
    requires IsEnumeration(order, keys)
    ensures |order| == |keys|
    decreases |order|
  {
    if order != [] {
      var n := |order| - 1;
      EnumerationInit(order, keys);
      DistinctLength(order[..n], keys - {order[n]});
    } else {
      assert keys == {} by {
        forall k | k in keys ensures false {
          assert false;
        }
      }
    }
  }

  /**
   * A pod yields one image per init container status, one per container status, and
   * one per spec name no status consumed, whatever order the leftovers come in.
   */
  lemma PodImageCount(pod: Pod, namespace: Namespace, order: PodOrder)
    requires ValidPodOrder(pod, order)
    ensures |PodImagesIn(pod, namespace, order)|
         == |pod.initContainerStatuses| + |pod.containerStatuses| + |InitRest(pod).Keys| + |ContainerRest(pod).Keys|
  {
    DistinctLength(order.initOrder, InitRest(pod).Keys);
    DistinctLength(order.containerOrder, ContainerRest(pod).Keys);
  }

  /**
   * Every image of a pod other than the zero image carries the namespace and the
   * pod's labels and annotations merged with the namespace's, the namespace's
   * value winning for a shared key.
   */
  lemma PodImagesCarryMergedTags(pod: Pod, namespace: Namespace, order: PodOrder, i: nat)
    requires ValidPodOrder(pod, order)
    requires i < |PodImagesIn(pod, namespace, order)|
    ensures PodImagesIn(pod, namespace, order)[i] == ZeroImage
         || (PodImagesIn(pod, namespace, order)[i].namespaceName == namespace.name
             && PodImagesIn(pod, namespace, order)[i].labels == MapsCopy(pod.labels, namespace.labels)
             && PodImagesIn(pod, namespace, order)[i].annotations == MapsCopy(pod.annotations, namespace.annotations))
  {
    var labels := MapsCopy(pod.labels, namespace.labels);
    var annotations := MapsCopy(pod.annotations, namespace.annotations);
    var a := StatusImages(SpecImageMap(pod.initContainers), pod.initContainerStatuses, namespace.name, labels, annotations, ImageTypeInitContainer);
    var b := StatusImages(SpecImageMap(pod.containers), pod.containerStatuses, namespace.name, labels, annotations, ImageTypeOther);
    var c := Leftovers(InitRest(pod), order.initOrder, namespace.name, labels, annotations, ImageTypeInitContainer);
    var d := Leftovers(ContainerRest(pod), order.containerOrder, namespace.name, labels, annotations, ImageTypeOther);
    assert PodImagesIn(pod, namespace, order) == a + b + c + d;
    if i < |a| {
      assert (a + b + c + d)[i] == a[i];
      StatusImagesShape(SpecImageMap(pod.initContainers), pod.initContainerStatuses, i, namespace.name, labels, annotations, ImageTypeInitContainer);
    } else if i < |a| + |b| {
      assert (a + b + c + d)[i] == b[i - |a|];
      StatusImagesShape(SpecImageMap(pod.containers), pod.containerStatuses, i - |a|, namespace.name, labels, annotations, ImageTypeOther);
    } else if i < |a| + |b| + |c| {
      assert (a + b + c + d)[i] == c[i - |a| - |b|];
    } else {
      assert (a + b + c + d)[i] == d[i - |a| - |b| - |c|];
    }
  }

  /** Leftover images have no image id and the type of the map they come from. */
  lemma PodLeftoversHaveNoId(pod: Pod, namespace: Namespace, order: PodOrder, i: nat)
    requires ValidPodOrder(pod, order)
    requires |pod.initContainerStatuses| + |pod.containerStatuses| <= i < |PodImagesIn(pod, namespace, order)|
    ensures PodImagesIn(pod, namespace, order)[i].imageId == ""
    ensures PodImagesIn(pod, namespace, order)[i].imageType in {ImageTypeInitContainer, ImageTypeOther}
  {
    var labels := MapsCopy(pod.labels, namespace.labels);
    var annotations := MapsCopy(pod.annotations, namespace.annotations);
    var a := StatusImages(SpecImageMap(pod.initContainers), pod.initContainerStatuses, namespace.name, labels, annotations, ImageTypeInitContainer)
      + StatusImages(SpecImageMap(pod.containers), pod.containerStatuses, namespace.name, labels, annotations, ImageTypeOther);
    var b := Leftovers(InitRest(pod), order.initOrder, namespace.name, labels, annotations, ImageTypeInitContainer);
    var c := Leftovers(ContainerRest(pod), order.containerOrder, namespace.name, labels, annotations, ImageTypeOther);
    assert PodImagesIn(pod, namespace, order) == a + b + c;
    if i < |a| + |b| {
      assert (a + b + c)[i] == b[i - |a|];
    } else {
      assert (a + b + c)[i] == c[i - |a| - |b|];
    }
  }

  /** Moving one name out of the middle of an order moves its image the same way. */
  lemma {:induction false} LeftoversSplit(rest: map<string, string>, o1: seq<string>, o2: seq<string>, namespaceName: string,
                                         labels: Tags, annotations: Tags, imageType: string)
    requires forall i :: 0 <= i < |o1| ==> o1[i] in rest
    requires forall i :: 0 <= i < |o2| ==> o2[i] in rest
    ensures Leftovers(rest, o1 + o2, namespaceName, labels, annotations, imageType)
         == Leftovers(rest, o1, namespaceName, labels, annotations, imageType) + Leftovers(rest, o2, namespaceName, labels, annotations, imageType)
  {
    var o := o1 + o2;
    var l := Leftovers(rest, o, namespaceName, labels, annotations, imageType);
    var l1 := Leftovers(rest, o1, namespaceName, labels, annotations, imageType);
    var l2 := Leftovers(rest, o2, namespaceName, labels, annotations, imageType);
    forall i | 0 <= i < |l| ensures l[i] == (l1 + l2)[i] {
      if i < |o1| { assert o[i] == o1[i]; } else { assert o[i] == o2[i - |o1|]; }
    }
  }

  /** Taking one name out of an order takes exactly its image out of the leftover images. */
  lemma LeftoversRemoveAt(rest: map<string, string>, o: seq<string>, j: nat, namespaceName: string,
                          labels: Tags, annotations: Tags, imageType: string)
    requires forall i :: 0 <= i < |o| ==> o[i] in rest
    requires j < |o|
    ensures multiset(Leftovers(rest, o, namespaceName, labels, annotations, imageType))
         == multiset(Leftovers(rest, o[..j] + o[j + 1..], namespaceName, labels, annotations, imageType))
            + multiset{LeftoverImage(rest[o[j]], namespaceName, labels, annotations, imageType)}
  {
    var left, right := o[..j], o[j + 1..];
    assert o == left + [o[j]] + right;
    forall i | 0 <= i < |left| ensures left[i] in rest { assert left[i] == o[i]; }
    forall i | 0 <= i < |right| ensures right[i] in rest { assert right[i] == o[j + 1 + i]; }
    LeftoversSplit(rest, left + [o[j]], right, namespaceName, labels, annotations, imageType);
    LeftoversSplit(rest, left, [o[j]], namespaceName, labels, annotations, imageType);
    LeftoversSplit(rest, left, right, namespaceName, labels, annotations, imageType);
  }

  /** Taking the last name off one order and the same name off another keeps them permutations of each other. */
  lemma RemoveSameName(o1: seq<string>, o2: seq<string>, j: nat)
    requires o1 != [] && j < |o2| && o2[j] == o1[|o1| - 1]
    requires multiset(o1) == multiset(o2)
    ensures multiset(o1[..|o1| - 1]) == multiset(o2[..j] + o2[j + 1..])
  {
    var n, x := |o1| - 1, o1[|o1| - 1];
    var a, b := multiset(o1[..n]), multiset(o2[..j] + o2[j + 1..]);
    assert o1 == o1[..n] + [x];
    assert o2 == o2[..j] + [x] + o2[j + 1..];
    assert multiset(o1) == a + multiset{x};
    assert multiset(o2) == b + multiset{x};
    assert a == (a + multiset{x}) - multiset{x};
    assert b == (b + multiset{x}) - multiset{x};
  }

  /**
   * The leftover images form the same multiset whatever order the map is visited in:
   * only the order of the output depends on Go's map iteration.
   */
  lemma {:induction false} LeftoversOrderIndependent(rest: map<string, string>, o1: seq<string>, o2: seq<string>, namespaceName: string,
                                                    labels: Tags, annotations: Tags, imageType: string)
    requires forall i :: 0 <= i < |o1| ==> o1[i] in rest
    requires forall i :: 0 <= i < |o2| ==> o2[i] in rest
    requires multiset(o1) == multiset(o2)
    ensures multiset(Leftovers(rest, o1, namespaceName, labels, annotations, imageType))
         == multiset(Leftovers(rest, o2, namespaceName, labels, annotations, imageType))
    decreases |o1|
  {
    if o1 != [] {
      var n := |o1| - 1;
      var x := o1[n];
      assert o1 == o1[..n] + [x];
      assert x in multiset(o2);
      var j :| 0 <= j < |o2| && o2[j] == x;
      var o2' := o2[..j] + o2[j + 1..];
      RemoveSameName(o1, o2, j);
      forall i | 0 <= i < |o2'| ensures o2'[i] in rest {
        if i < j { assert o2'[i] == o2[i]; } else { assert o2'[i] == o2[i + 1]; }
      }
      forall i | 0 <= i < n ensures o1[..n][i] in rest {
        assert o1[..n][i] == o1[i];
      }
      LeftoversOrderIndependent(rest, o1[..n], o2', namespaceName, labels, annotations, imageType);
      LeftoversRemoveAt(rest, o2, j, namespaceName, labels, annotations, imageType);
    }
  }

  /** An enumeration holds every name exactly once: as a multiset it is the set of names. */
  lemma {:induction false} EnumerationMultiset(order: seq<string>, keys: set<string>)
    requires IsEnumeration(order, keys)
    ensures multiset(order) == multiset(keys)
    decreases |order|
  {
    if order != [] {
      var n, x := |order| - 1, order[|order| - 1];
      EnumerationInit(order, keys);
      EnumerationMultiset(order[..n], keys - {x});
      assert order == order[..n] + [x];
      assert keys == (keys - {x}) + {x};
      assert multiset(keys) == multiset(keys - {x}) + multiset{x};
    } else {
      assert keys == {} by {
        forall k | k in keys ensures false {
          assert false;
        }
      }
    }
  }

  /**
   * Whichever orders the two leftover loops of a pod visit their maps in, the pod
   * yields the same multiset of images: only their order depends on Go's map iteration.
   */
  lemma PodImagesOrderIndependent(pod: Pod, namespace: Namespace, a: PodOrder, b: PodOrder)
    requires ValidPodOrder(pod, a) && ValidPodOrder(pod, b)
    ensures multiset(PodImagesIn(pod, namespace, a)) == multiset(PodImagesIn(pod, namespace, b))
  {
    var labels := MapsCopy(pod.labels, namespace.labels);
    var annotations := MapsCopy(pod.annotations, namespace.annotations);
    EnumerationMultiset(a.initOrder, InitRest(pod).Keys);
    EnumerationMultiset(b.initOrder, InitRest(pod).Keys);
    EnumerationMultiset(a.containerOrder, ContainerRest(pod).Keys);
    EnumerationMultiset(b.containerOrder, ContainerRest(pod).Keys);
    LeftoversOrderIndependent(InitRest(pod), a.initOrder, b.initOrder, namespace.name, labels, annotations, ImageTypeInitContainer);
    LeftoversOrderIndependent(ContainerRest(pod), a.containerOrder, b.containerOrder, namespace.name, labels, annotations, ImageTypeOther);
  }

  // ---------------------------------------------------------------------------
  // Images of jobs and cron jobs
  // ---------------------------------------------------------------------------

  /** The images a template's containers yield: spec images only, so no image id. */
  function TemplateImages(cs: seq<Container>, namespaceName: string, labels: Tags, annotations: Tags, imageType: string): (r: seq<Image>)
    ensures |r| == |cs|
    ensures forall i :: 0 <= i < |cs| ==> r[i] == LeftoverImage(cs[i].image, namespaceName, labels, annotations, imageType)
  {
    seq(|cs|, i requires 0 <= i < |cs| => LeftoverImage(cs[i].image, namespaceName, labels, annotations, imageType))
  }

  /** A job's (or cron job's) images: the containers with `imageType`, then the init containers. */
  function WorkloadImagesOf(w: Workload, namespace: Namespace, imageType: string): seq<Image> {
    var labels := MapsCopy(w.labels, namespace.labels);
    var annotations := MapsCopy(w.annotations, namespace.annotations);
    TemplateImages(w.containers, namespace.name, labels, annotations, imageType)
      + TemplateImages(w.initContainers, namespace.name, labels, annotations, ImageTypeInitContainer)
  }

  /** Lines 210-252 for one job (`imageType` "job") and 260-300 for one cron job ("cronjob"). */
  method WorkloadImages(w: Workload, namespace: Namespace, imageType: string) returns (images: seq<Image>)
    ensures images == WorkloadImagesOf(w, namespace, imageType)
  {
    var labels := MapsCopy(w.labels, namespace.labels);
    var annotations := MapsCopy(w.annotations, namespace.annotations);
    images := [];
    for i := 0 to |w.containers|
      invariant images == TemplateImages(w.containers[..i], namespace.name, labels, annotations, imageType)
    {
      images := images + [Image(w.containers[i].image, "", namespace.name, labels, annotations, imageType)];
    }
    assert w.containers[..|w.containers|] == w.containers;
    var fromInits := [];
    for i := 0 to |w.initContainers|
      invariant fromInits == TemplateImages(w.initContainers[..i], namespace.name, labels, annotations, ImageTypeInitContainer)
    {
      fromInits := fromInits + [Image(w.initContainers[i].image, "", namespace.name, labels, annotations, ImageTypeInitContainer)];
    }
    assert w.initContainers[..|w.initContainers|] == w.initContainers;
    images := images + fromInits;
  }

  /** Every job or cron job image has no image id and carries the namespace; containers precede init containers. */
  lemma WorkloadImagesShape(w: Workload, namespace: Namespace, imageType: string, i: nat)
    requires i < |WorkloadImagesOf(w, namespace, imageType)|
    ensures |WorkloadImagesOf(w, namespace, imageType)| == |w.containers| + |w.initContainers|
    ensures WorkloadImagesOf(w, namespace, imageType)[i].imageId == ""
    ensures WorkloadImagesOf(w, namespace, imageType)[i].namespaceName == namespace.name
    ensures WorkloadImagesOf(w, namespace, imageType)[i].labels == MapsCopy(w.labels, namespace.labels)
    ensures WorkloadImagesOf(w, namespace, imageType)[i].annotations == MapsCopy(w.annotations, namespace.annotations)
    ensures i < |w.containers| ==>
      WorkloadImagesOf(w, namespace, imageType)[i].image == w.containers[i].image
      && WorkloadImagesOf(w, namespace, imageType)[i].imageType == imageType
    ensures i >= |w.containers| ==>
      WorkloadImagesOf(w, namespace, imageType)[i].image == w.initContainers[i - |w.containers|].image
      && WorkloadImagesOf(w, namespace, imageType)[i].imageType == ImageTypeInitContainer
  {
  }

  // ---------------------------------------------------------------------------
  // GetImages
  // ---------------------------------------------------------------------------

  /** The order chosen for the `j`th pod, or none when there is no such entry. */
  function OrderAt(orders: seq<PodOrder>, j: nat): PodOrder {
    if j < |orders| then orders[j] else PodOrder([], [])
  }

  ghost predicate ValidPodOrders(pods: seq<Pod>, orders: seq<PodOrder>) {
    forall j :: 0 <= j < |pods| ==> ValidPodOrder(pods[j], OrderAt(orders, j))
  }

  /** The images of a namespace's pods, pod by pod. */
  function AllPodImages(pods: seq<Pod>, namespace: Namespace, orders: seq<PodOrder>): seq<Image>
    decreases |pods|
  {
    if pods == [] then []
    else
      var n := |pods| - 1;
      AllPodImages(pods[..n], namespace, orders) + PodImagesIn(pods[n], namespace, OrderAt(orders, n))
  }

  /** The images of a namespace's jobs (or cron jobs), workload by workload. */
  function AllWorkloadImages(ws: seq<Workload>, namespace: Namespace, imageType: string): seq<Image>
    decreases |ws|
  {
    if ws == [] then []
    else
      var n := |ws| - 1;
      AllWorkloadImages(ws[..n], namespace, imageType) + WorkloadImagesOf(ws[n], namespace, imageType)
  }

  /**
   * One namespace: the pods' images, then the jobs', then the cron jobs'; the first
   * failing `List` call decides the error.
   */
  function NamespaceImagesIn(namespace: Namespace, listPods: Lister<Pod>, listJobs: Lister<Workload>,
                             listCronJobs: Lister<Workload>, orders: seq<PodOrder>): Result<seq<Image>, Error>
  {
    match listPods(namespace.name)
    case Failure(e) => Failure(e)
    case Success(pods) =>
      match listJobs(namespace.name)
      case Failure(e) => Failure(e)
      case Success(jobs) =>
        match listCronJobs(namespace.name)
        case Failure(e) => Failure(e)
        case Success(cronJobs) =>
          Success(AllPodImages(pods, namespace, orders)
                    + AllWorkloadImages(jobs, namespace, ImageTypeJob)
                    + AllWorkloadImages(cronJobs, namespace, ImageTypeCronJob))
  }

  /** The pod loop of one namespace, lines 128-201. */
  method PodsImages(pods: seq<Pod>, namespace: Namespace) returns (images: seq<Image>, orders: seq<PodOrder>)
    ensures ValidPodOrders(pods, orders)
    ensures images == AllPodImages(pods, namespace, orders)
  {
    images := [];
    orders := [];
    for j := 0 to |pods|
      invariant |orders| == j
      invariant ValidPodOrders(pods[..j], orders)
      invariant images == AllPodImages(pods[..j], namespace, orders)
    {
      var podImages, order := PodImages(pods[j], namespace);
      PodsStep(pods, namespace, orders, order, j);
      images := images + podImages;
      orders := orders + [order];
    }
    assert pods[..|pods|] == pods;
  }

  /** The job loop, lines 210-252, or the cron job loop, lines 260-300. */
  method WorkloadsImages(ws: seq<Workload>, namespace: Namespace, imageType: string) returns (images: seq<Image>)
    ensures images == AllWorkloadImages(ws, namespace, imageType)
  {
    images := [];
    for j := 0 to |ws|
      invariant images == AllWorkloadImages(ws[..j], namespace, imageType)
    {
      var more := WorkloadImages(ws[j], namespace, imageType);
      assert ws[..j + 1][..j] == ws[..j];
      images := images + more;
    }
    assert ws[..|ws|] == ws;
  }

  /** The body of the namespace loop of `GetImages`, lines 120-301. */
  method NamespaceImages(namespace: Namespace, listPods: Lister<Pod>, listJobs: Lister<Workload>, listCronJobs: Lister<Workload>)
    returns (r: Result<seq<Image>, Error>, orders: seq<PodOrder>)
    ensures listPods(namespace.name).Success? ==> ValidPodOrders(listPods(namespace.name).value, orders)
    ensures r == NamespaceImagesIn(namespace, listPods, listJobs, listCronJobs, orders)
  {
    orders := [];
    var pods := listPods(namespace.name);
    if pods.Failure? {
      return Failure(pods.error), orders;
    }
    var images;
    images, orders := PodsImages(pods.value, namespace);
    var jobs := listJobs(namespace.name);
    if jobs.Failure? {
      return Failure(jobs.error), orders;
    }
    var fromJobs := WorkloadsImages(jobs.value, namespace, ImageTypeJob);
    var cronJobs := listCronJobs(namespace.name);
    if cronJobs.Failure? {
      return Failure(cronJobs.error), orders;
    }
    var fromCronJobs := WorkloadsImages(cronJobs.value, namespace, ImageTypeCronJob);
    r := Success(images + fromJobs + fromCronJobs);
  }

  /** One more pod of the pod loop: its order joins the valid ones and its images are appended. */
  lemma PodsStep(pods: seq<Pod>, namespace: Namespace, orders: seq<PodOrder>, order: PodOrder, j: nat)
    requires j < |pods| && |orders| == j
    requires ValidPodOrders(pods[..j], orders) && ValidPodOrder(pods[j], order)
    ensures ValidPodOrders(pods[..j + 1], orders + [order])
    ensures AllPodImages(pods[..j + 1], namespace, orders + [order])
         == AllPodImages(pods[..j], namespace, orders) + PodImagesIn(pods[j], namespace, order)
  {
    var p := pods[..j + 1];
    assert p[..j] == pods[..j];
    forall k | 0 <= k < |p| ensures ValidPodOrder(p[k], OrderAt(orders + [order], k)) {
      if k < j {
        assert p[k] == pods[..j][k] && OrderAt(orders + [order], k) == OrderAt(orders, k);
      }
    }
    assert OrderAt(orders + [order], j) == order;
    AllPodImagesPrefix(pods[..j], namespace, orders, [order]);
  }

  /** Orders chosen for later pods play no part in the images of the earlier ones. */
  lemma {:induction false} AllPodImagesPrefix(pods: seq<Pod>, namespace: Namespace, orders: seq<PodOrder>, more: seq<PodOrder>)
    requires |orders| >= |pods|
    ensures AllPodImages(pods, namespace, orders + more) == AllPodImages(pods, namespace, orders)
    decreases |pods|
  {
    if pods != [] {
      var n := |pods| - 1;
      assert OrderAt(orders + more, n) == OrderAt(orders, n);
      AllPodImagesPrefix(pods[..n], namespace, orders, more);
    }
  }

  /** The orders chosen for the `i`th namespace's pods. */
  function NamespaceOrderAt(orders: seq<seq<PodOrder>>, i: nat): seq<PodOrder> {
    if i < |orders| then orders[i] else []
  }

  ghost predicate ValidOrders(namespaces: seq<Namespace>, listPods: Lister<Pod>, orders: seq<seq<PodOrder>>) {
    forall i :: 0 <= i < |namespaces| && listPods(namespaces[i].name).Success? ==>
      ValidPodOrders(listPods(namespaces[i].name).value, NamespaceOrderAt(orders, i))
  }

  /** The images so far followed by one more namespace's, or the first error of the two. */
  function AndThen(before: Result<seq<Image>, Error>, more: Result<seq<Image>, Error>): (r: Result<seq<Image>, Error>)
    ensures before.Failure? ==> r == before
    ensures before.Success? && more.Failure? ==> r == more
    ensures before.Success? && more.Success? ==> r == Success(before.value + more.value)
  {
    match before
    case Failure(e) => Failure(e)
    case Success(images) =>
      match more
      case Failure(e) => Failure(e)
      case Success(m) => Success(images + m)
  }

  /** All namespaces in order; the first namespace whose listing fails ends it with that error. */
  function GetImagesIn(namespaces: seq<Namespace>, listPods: Lister<Pod>, listJobs: Lister<Workload>,
                       listCronJobs: Lister<Workload>, orders: seq<seq<PodOrder>>): Result<seq<Image>, Error>
    decreases |namespaces|
  {
    if namespaces == [] then Success([])
    else
      var n := |namespaces| - 1;
      AndThen(GetImagesIn(namespaces[..n], listPods, listJobs, listCronJobs, orders),
              NamespaceImagesIn(namespaces[n], listPods, listJobs, listCronJobs, NamespaceOrderAt(orders, n)))
  }

  /** The error of the first `List` call that fails for a namespace, if any. */
  function ListError(namespace: Namespace, listPods: Lister<Pod>, listJobs: Lister<Workload>, listCronJobs: Lister<Workload>): (e: Option<Error>)
    ensures e.None? <==>
      listPods(namespace.name).Success? && listJobs(namespace.name).Success? && listCronJobs(namespace.name).Success?
    ensures listPods(namespace.name).Failure? ==> e == Some(listPods(namespace.name).error)
  {
    if listPods(namespace.name).Failure? then Some(listPods(namespace.name).error)
    else if listJobs(namespace.name).Failure? then Some(listJobs(namespace.name).error)
    else if listCronJobs(namespace.name).Failure? then Some(listCronJobs(namespace.name).error)
    else None
  }

  /** The first namespace, in the given order, with a failing `List` call. */
  function FirstListError(namespaces: seq<Namespace>, listPods: Lister<Pod>, listJobs: Lister<Workload>, listCronJobs: Lister<Workload>): (e: Option<Error>)
    ensures e.None? <==> forall i :: 0 <= i < |namespaces| ==> ListError(namespaces[i], listPods, listJobs, listCronJobs).None?
    decreases |namespaces|
  {
    if namespaces == [] then None
    else
      var n := |namespaces| - 1;
      assert forall i :: 0 <= i < n ==> namespaces[..n][i] == namespaces[i];
      var before := FirstListError(namespaces[..n], listPods, listJobs, listCronJobs);
      if before.Some? then before else ListError(namespaces[n], listPods, listJobs, listCronJobs)
  }

  /**
   * `GetImages` fails exactly when some `List` call fails, with the error of the first
   * one, whatever order the leftovers were visited in; otherwise it succeeds.
   */
  lemma {:induction false} GetImagesFailsOnFirstListError(namespaces: seq<Namespace>, listPods: Lister<Pod>, listJobs: Lister<Workload>,
                                                         listCronJobs: Lister<Workload>, orders: seq<seq<PodOrder>>)
    ensures GetImagesIn(namespaces, listPods, listJobs, listCronJobs, orders).Failure?
        <==> FirstListError(namespaces, listPods, listJobs, listCronJobs).Some?
    ensures GetImagesIn(namespaces, listPods, listJobs, listCronJobs, orders).Failure? ==>
      GetImagesIn(namespaces, listPods, listJobs, listCronJobs, orders).error == FirstListError(namespaces, listPods, listJobs, listCronJobs).value
    decreases |namespaces|
  {
    if namespaces != [] {
      var n := |namespaces| - 1;
      GetImagesFailsOnFirstListError(namespaces[..n], listPods, listJobs, listCronJobs, orders);
    }
  }

  /** `GetImages`: the images of all namespaces, or the first listing error and no images. */
  method GetImages(namespaces: seq<Namespace>, listPods: Lister<Pod>, listJobs: Lister<Workload>, listCronJobs: Lister<Workload>)
    returns (r: Result<seq<Image>, Error>, orders: seq<seq<PodOrder>>)
    ensures r.Success? ==> ValidOrders(namespaces, listPods, orders)
    ensures r == GetImagesIn(namespaces, listPods, listJobs, listCronJobs, orders)
  {
    var images := [];
    orders := [];
    var i := 0;
    while i < |namespaces|
      invariant 0 <= i <= |namespaces|
      invariant |orders| == i
      invariant ValidOrders(namespaces[..i], listPods, orders)
      invariant GetImagesIn(namespaces[..i], listPods, listJobs, listCronJobs, orders) == Success(images)
    {
      var more, nsOrders := NamespaceImages(namespaces[i], listPods, listJobs, listCronJobs);
      NamespacesStepValid(namespaces, listPods, orders, nsOrders, i);
      NamespacesStep(namespaces, listPods, listJobs, listCronJobs, orders, nsOrders, i);
      if more.Failure? {
        GetImagesFailurePersists(namespaces, listPods, listJobs, listCronJobs, orders + [nsOrders], i + 1);
        return more, orders + [nsOrders];
      }
      images := images + more.value;
      orders := orders + [nsOrders];
      i := i + 1;
    }
    assert namespaces[..i] == namespaces;
    r := Success(images);
  }

  /** One more namespace of the namespace loop: its orders join the valid ones. */
  lemma NamespacesStepValid(namespaces: seq<Namespace>, listPods: Lister<Pod>, orders: seq<seq<PodOrder>>, nsOrders: seq<PodOrder>, i: nat)
    requires i < |namespaces| && |orders| == i
    requires ValidOrders(namespaces[..i], listPods, orders)
    requires listPods(namespaces[i].name).Success? ==> ValidPodOrders(listPods(namespaces[i].name).value, nsOrders)
    ensures ValidOrders(namespaces[..i + 1], listPods, orders + [nsOrders])
  {
    var a, o := namespaces[..i + 1], orders + [nsOrders];
    forall k | 0 <= k < |a| && listPods(a[k].name).Success?
      ensures ValidPodOrders(listPods(a[k].name).value, NamespaceOrderAt(o, k))
    {
      if k < i {
        assert a[k] == namespaces[..i][k];
        assert NamespaceOrderAt(o, k) == NamespaceOrderAt(orders, k);
      } else {
        assert a[k] == namespaces[i];
        assert NamespaceOrderAt(o, k) == nsOrders;
      }
    }
  }

  /** One more namespace of the namespace loop: its result joins the earlier ones. */
  lemma NamespacesStep(namespaces: seq<Namespace>, listPods: Lister<Pod>, listJobs: Lister<Workload>,
                       listCronJobs: Lister<Workload>, orders: seq<seq<PodOrder>>, nsOrders: seq<PodOrder>, i: nat)
    requires i < |namespaces| && |orders| == i
    ensures GetImagesIn(namespaces[..i + 1], listPods, listJobs, listCronJobs, orders + [nsOrders])
         == AndThen(GetImagesIn(namespaces[..i], listPods, listJobs, listCronJobs, orders),
                    NamespaceImagesIn(namespaces[i], listPods, listJobs, listCronJobs, nsOrders))
  {
    var a, o := namespaces[..i + 1], orders + [nsOrders];
    assert a[..i] == namespaces[..i];
    assert a[i] == namespaces[i];
    assert NamespaceOrderAt(o, i) == nsOrders;
    assert GetImagesIn(a, listPods, listJobs, listCronJobs, o)
        == AndThen(GetImagesIn(a[..i], listPods, listJobs, listCronJobs, o),
                   NamespaceImagesIn(a[i], listPods, listJobs, listCronJobs, NamespaceOrderAt(o, i)));
    GetImagesPrefix(namespaces[..i], listPods, listJobs, listCronJobs, orders, [nsOrders]);
  }

  /** Orders chosen for later namespaces play no part in the images of the earlier ones. */
  lemma {:induction false} GetImagesPrefix(namespaces: seq<Namespace>, listPods: Lister<Pod>, listJobs: Lister<Workload>,
                                          listCronJobs: Lister<Workload>, orders: seq<seq<PodOrder>>, more: seq<seq<PodOrder>>)
    requires |orders| >= |namespaces|
    ensures GetImagesIn(namespaces, listPods, listJobs, listCronJobs, orders + more)
         == GetImagesIn(namespaces, listPods, listJobs, listCronJobs, orders)
    decreases |namespaces|
  {
    if namespaces != [] {
      var n := |namespaces| - 1;
      assert NamespaceOrderAt(orders + more, n) == NamespaceOrderAt(orders, n);
      GetImagesPrefix(namespaces[..n], listPods, listJobs, listCronJobs, orders, more);
    }
  }

  /** A failure of a prefix of the namespaces is the failure of all of them. */
  lemma {:induction false} GetImagesFailurePersists(namespaces: seq<Namespace>, listPods: Lister<Pod>, listJobs: Lister<Workload>,
                                                   listCronJobs: Lister<Workload>, orders: seq<seq<PodOrder>>, k: nat)
    requires k <= |namespaces|
    requires GetImagesIn(namespaces[..k], listPods, listJobs, listCronJobs, orders).Failure?
    ensures GetImagesIn(namespaces, listPods, listJobs, listCronJobs, orders)
         == GetImagesIn(namespaces[..k], listPods, listJobs, listCronJobs, orders)
    decreases |namespaces| - k
  {
    if k < |namespaces| {
      assert namespaces[..k + 1][..k] == namespaces[..k];
      GetImagesFailurePersists(namespaces, listPods, listJobs, listCronJobs, orders, k + 1);
    } else {
      assert namespaces[..k] == namespaces;
    }
  }
}
