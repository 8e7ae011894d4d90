/**
 * Image defaulting and the related-images inventory of the network add-ons operator
 * (pkg/components/components.go): the default image references, the `AddonsImages` record
 * that `FillDefaults` completes in place, and the `(Name, Ref)` pairs that `NewRelatedImage`
 * derives from a reference.
 */
module Components {
  import opened ImageSplit

  const Name: string := "cluster-network-addons-operator"

  /** A reference pinned by digest, `<repository>/<name>@sha256:<digest>`. */
  function DigestReference(repository: string, name: string, digest: string): string {
    repository + "/" + name + "@sha256:" + digest
  }

  // The default references; each digest is written as two halves of 32 hex digits.
  const MultusImageDefault: string :=
    DigestReference("ghcr.io/k8snetworkplumbingwg", "multus-cni", "829c27e9392d013eee5086ca7670d732" + "6d723ebaec526237215e86086b5a3234")
  const LinuxBridgeCniImageDefault: string :=
    DigestReference("quay.io/kubevirt", "cni-default-plugins", "5d9442c26f8750d44f97175f36dbd74b" + "ef503f782b9adefcfd08215d065c437a")
  const LinuxBridgeMarkerImageDefault: string :=
    DigestReference("quay.io/kubevirt", "bridge-marker", "5d24c6d1ecb0556896b7b81c7e5260b5" + "4173858425777b7a84df8a706c07e6d2")
  const KubeMacPoolImageDefault: string :=
    DigestReference("quay.io/kubevirt", "kubemacpool", "fb07b1be9e0990e3846ef628e993694b" + "f0765602af5907abf98f7e218db0cb4a")
  const OvsCniImageDefault: string :=
    DigestReference("quay.io/kubevirt", "ovs-cni-plugin", "3654b80dd5e459c3e73dd027d732620e" + "d8b488b8a15dfe7922457d16c7e834c3")
  const MacvtapCniImageDefault: string :=
    DigestReference("quay.io/kubevirt", "macvtap-cni", "583a3346cdb04374d4d802d5f5d37c4d" + "c2f6897e6e62010648f8f28c9a5a5a07")
  const KubeRbacProxyImageDefault: string :=
    DigestReference("quay.io/openshift", "origin-kube-rbac-proxy", "baedb268ac66456018fb30af395bb3d6" + "9af5fff3252ff5d549f0231b1ebb6901")

  /** The seven defaults, in the order in which `ToRelatedImages` lists the images. */
  const DefaultImages: seq<string> := [
    MultusImageDefault, LinuxBridgeCniImageDefault, LinuxBridgeMarkerImageDefault,
    KubeMacPoolImageDefault, OvsCniImageDefault, MacvtapCniImageDefault,
    KubeRbacProxyImageDefault
  ]

  /** An image reference, or `fallback` when none is configured (the empty string). */
  function OrDefault(image: string, fallback: string): (r: string)
    ensures image != "" ==> r == image
    ensures image == "" ==> r == fallback
  {
    if image == "" then fallback else image
  }

  /** A list of seven image references with each empty one replaced by its default. */
  function WithDefaults(images: seq<string>): (r: seq<string>)
    requires |images| == |DefaultImages|
    ensures |r| == |images|
    ensures forall i :: 0 <= i < |images| ==> r[i] == OrDefault(images[i], DefaultImages[i])
  {
    seq(|images|, i requires 0 <= i < |images| => OrDefault(images[i], DefaultImages[i]))
  }

  /** The images of the add-on components the operator deploys; "" means "use the default". */
  class AddonsImages {
    var multus: string
    var linuxBridgeCni: string
    var linuxBridgeMarker: string
    var kubeMacPool: string
    var ovsCni: string
    var macvtapCni: string
    var kubeRbacProxy: string

    /** The seven fields in the order in which `ToRelatedImages` lists them. */
    ghost function Images(): (r: seq<string>)
      reads this
      ensures |r| == |DefaultImages|
    {
      [multus, linuxBridgeCni, linuxBridgeMarker, kubeMacPool, ovsCni, macvtapCni, kubeRbacProxy]
    }

    /** A record built from a struct literal. */
    constructor (multus: string, linuxBridgeCni: string, linuxBridgeMarker: string,
                 kubeMacPool: string, ovsCni: string, macvtapCni: string, kubeRbacProxy: string)
      ensures Images() == [multus, linuxBridgeCni, linuxBridgeMarker, kubeMacPool, ovsCni, macvtapCni, kubeRbacProxy]
    {
      this.multus := multus;
      this.linuxBridgeCni := linuxBridgeCni;
      this.linuxBridgeMarker := linuxBridgeMarker;
      this.kubeMacPool := kubeMacPool;
      this.ovsCni := ovsCni;
      this.macvtapCni := macvtapCni;
      this.kubeRbacProxy := kubeRbacProxy;
    }

    /** Replaces each empty field by its default and returns the receiver itself. */
    method FillDefaults() returns (r: AddonsImages)
      modifies this
      ensures r == this
      ensures multus == OrDefault(old(multus), MultusImageDefault)
      ensures linuxBridgeCni == OrDefault(old(linuxBridgeCni), LinuxBridgeCniImageDefault)
      ensures linuxBridgeMarker == OrDefault(old(linuxBridgeMarker), LinuxBridgeMarkerImageDefault)
      ensures kubeMacPool == OrDefault(old(kubeMacPool), KubeMacPoolImageDefault)
      ensures ovsCni == OrDefault(old(ovsCni), OvsCniImageDefault)
      ensures macvtapCni == OrDefault(old(macvtapCni), MacvtapCniImageDefault)
      ensures kubeRbacProxy == OrDefault(old(kubeRbacProxy), KubeRbacProxyImageDefault)
      ensures Images() == WithDefaults(old(Images()))
    {
      ghost var before := Images();
      multus := OrDefault(multus, MultusImageDefault);
      linuxBridgeCni := OrDefault(linuxBridgeCni, LinuxBridgeCniImageDefault);
      linuxBridgeMarker := OrDefault(linuxBridgeMarker, LinuxBridgeMarkerImageDefault);
      kubeMacPool := OrDefault(kubeMacPool, KubeMacPoolImageDefault);
      ovsCni := OrDefault(ovsCni, OvsCniImageDefault);
      macvtapCni := OrDefault(macvtapCni, MacvtapCniImageDefault);
      kubeRbacProxy := OrDefault(kubeRbacProxy, KubeRbacProxyImageDefault);
      r := this;
      DefaultsOfImages(before);
    }

    /** The related images of the seven fields, in the fixed order of `Images()`. */
    method ToRelatedImages() returns (ris: RelatedImages)
      ensures |ris| == |Images()|
      ensures forall i :: 0 <= i < |ris| ==> ris[i] == NewRelatedImage(Images()[i])
    {
      ris := NewRelatedImages([multus, linuxBridgeCni, linuxBridgeMarker, kubeMacPool, ovsCni, macvtapCni, kubeRbacProxy]);
    }
  }

  /** An entry of the related-images inventory: the bare image name and the full reference. */
  datatype RelatedImage = RelatedImage(name: string, ref: string)

  type RelatedImages = seq<RelatedImage>

  /**
   * The related image of a reference: its name is group 1 of `imageSplitRe`, the bare image
   * name without registry, tag or digest, and the whole reference when the pattern does
   * not match.
   */
  function NewRelatedImage(image: string): (r: RelatedImage)
    ensures r.ref == image
    ensures AllSeparators(image) ==> r.name == image
    ensures !AllSeparators(image) ==> |r.name| > 0 && NoSeparator(r.name) && IsSubstring(r.name, image)
  {
    NoMatchIffAllSeparators(image);
    var name := match FindSubmatch(image)
      case Some(n) => n
      case None => image;
    RelatedImage(name, image)
  }

  /** One related image per argument, in the order of the arguments. */
  method NewRelatedImages(images: seq<string>) returns (ris: RelatedImages)
    ensures |ris| == |images|
    ensures forall i :: 0 <= i < |images| ==> ris[i] == NewRelatedImage(images[i])
  {
    ris := [];
    for i := 0 to |images|
      invariant |ris| == i
      invariant forall k :: 0 <= k < i ==> ris[k] == NewRelatedImage(images[k])
    {
      ris := ris + [NewRelatedImage(images[i])];
    }
  }

  /** A variable of type `RelatedImages`, as the pointer receiver of `Add` sees it. */
  class RelatedImagesRef {
    var value: RelatedImages

    constructor (initial: RelatedImages)
      ensures value == initial
    {
      value := initial;
    }

    /** Appends the related image of `image`. */
    method Add(image: string)
      modifies this
      ensures value == old(value) + [NewRelatedImage(image)]
      ensures |value| == |old(value)| + 1
      ensures value[..|old(value)|] == old(value)
    {
      value := value + [NewRelatedImage(image)];
    }
  }

  // ---------------------------------------------------------------------------------------
  // Properties

  /** After defaulting every image is set, the configured ones are kept, the others defaulted. */
  lemma WithDefaultsFills(images: seq<string>)
    requires |images| == |DefaultImages|
    ensures forall i :: 0 <= i < |images| ==> WithDefaults(images)[i] != ""
    ensures forall i :: 0 <= i < |images| && images[i] != "" ==> WithDefaults(images)[i] == images[i]
    ensures forall i :: 0 <= i < |images| && images[i] == "" ==> WithDefaults(images)[i] == DefaultImages[i]
  {
  }

  /** WithDefaults spelled out on a list of seven. */
  lemma DefaultsOfImages(images: seq<string>)
    requires |images| == |DefaultImages|
    ensures WithDefaults(images) == [
      OrDefault(images[0], MultusImageDefault), OrDefault(images[1], LinuxBridgeCniImageDefault),
      OrDefault(images[2], LinuxBridgeMarkerImageDefault), OrDefault(images[3], KubeMacPoolImageDefault),
      OrDefault(images[4], OvsCniImageDefault), OrDefault(images[5], MacvtapCniImageDefault),
      OrDefault(images[6], KubeRbacProxyImageDefault)]
  {
  }

  /** Defaulting a second time changes nothing. */
  lemma WithDefaultsIdempotent(images: seq<string>)
    requires |images| == |DefaultImages|
    ensures WithDefaults(WithDefaults(images)) == WithDefaults(images)
  {
  }

  /** The related name of a reference is group 1 of the leftmost-first match of `imageSplitRe`. */
  lemma NewRelatedImageIsLeftmostFirst(image: string)
    requires !AllSeparators(image)
    ensures exists m :: LeftmostFirst(image, m) && NewRelatedImage(image).name == image[m.group..RunEnd(image, m.group)]
  {
    SearchIsLeftmostFirst(image);
    NoMatchIffAllSeparators(image);
    var m := Search(image, 0).value;
    assert LeftmostFirst(image, m);
  }

  /** The hexadecimal digits of a digest. */
  predicate HexDigits(t: string) {
    forall k :: 0 <= k < |t| ==> '0' <= t[k] <= '9' || 'a' <= t[k] <= 'f'
  }

  /** A reference pinned by digest names the image by its last path component. */
  lemma DigestReferenceName(repository: string, name: string, digest1: string, digest2: string)
    requires '\n' !in repository
    requires |name| > 0 && NoSeparator(name)
    requires HexDigits(digest1) && HexDigits(digest2)
    ensures NewRelatedImage(DigestReference(repository, name, digest1 + digest2)).name == name
  {
    var suffix := "@sha256:" + (digest1 + digest2);
    assert DigestReference(repository, name, digest1 + digest2) == (repository + "/") + name + suffix;
    assert forall k :: 0 <= k < |suffix| ==> suffix[k] != '/';
    QualifiedName(repository + "/", name, suffix);
  }

  lemma MultusDefaultName()
    ensures NewRelatedImage(MultusImageDefault).name == "multus-cni"
  {
    DigestReferenceName("ghcr.io/k8snetworkplumbingwg", "multus-cni", "829c27e9392d013eee5086ca7670d732", "6d723ebaec526237215e86086b5a3234");
  }

  lemma LinuxBridgeCniDefaultName()
    ensures NewRelatedImage(LinuxBridgeCniImageDefault).name == "cni-default-plugins"
  {
    DigestReferenceName("quay.io/kubevirt", "cni-default-plugins", "5d9442c26f8750d44f97175f36dbd74b", "ef503f782b9adefcfd08215d065c437a");
  }

  lemma LinuxBridgeMarkerDefaultName()
    ensures NewRelatedImage(LinuxBridgeMarkerImageDefault).name == "bridge-marker"
  {
    DigestReferenceName("quay.io/kubevirt", "bridge-marker", "5d24c6d1ecb0556896b7b81c7e5260b5", "4173858425777b7a84df8a706c07e6d2");
  }

  lemma KubeMacPoolDefaultName()
    ensures NewRelatedImage(KubeMacPoolImageDefault).name == "kubemacpool"
  {
    DigestReferenceName("quay.io/kubevirt", "kubemacpool", "fb07b1be9e0990e3846ef628e993694b", "f0765602af5907abf98f7e218db0cb4a");
  }

  lemma OvsCniDefaultName()
    ensures NewRelatedImage(OvsCniImageDefault).name == "ovs-cni-plugin"
  {
    DigestReferenceName("quay.io/kubevirt", "ovs-cni-plugin", "3654b80dd5e459c3e73dd027d732620e", "d8b488b8a15dfe7922457d16c7e834c3");
  }

  lemma MacvtapCniDefaultName()
    ensures NewRelatedImage(MacvtapCniImageDefault).name == "macvtap-cni"
  {
    DigestReferenceName("quay.io/kubevirt", "macvtap-cni", "583a3346cdb04374d4d802d5f5d37c4d", "c2f6897e6e62010648f8f28c9a5a5a07");
  }

  lemma KubeRbacProxyDefaultName()
    ensures NewRelatedImage(KubeRbacProxyImageDefault).name == "origin-kube-rbac-proxy"
  {
    DigestReferenceName("quay.io/openshift", "origin-kube-rbac-proxy", "baedb268ac66456018fb30af395bb3d6", "9af5fff3252ff5d549f0231b1ebb6901");
  }

  /** A path segment left empty by a tag: group 1 stays in the first segment. */
  lemma EmptyLastSegment()
    ensures NewRelatedImage("a/:x").name == "a"
  {
  }

  /** A leading ':' has no name before it: the leftmost match begins after it. */
  lemma LeadingColon()
    ensures NewRelatedImage(":abc").name == "abc"
  {
  }

  /** Without a match the name is the whole reference. */
  lemma NoMatchKeepsReference()
    ensures NewRelatedImage("").name == ""
    ensures NewRelatedImage("/:@").name == "/:@"
  {
  }
}
