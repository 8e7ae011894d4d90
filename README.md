# Components of the cluster-network-addons operator

This project models the core of `pkg/components/components.go` in the cluster-network-addons
operator. That file holds four things:

- the default images of the network add-ons the operator deploys (Multus, the Linux bridge
  CNI and its marker, KubeMacPool, OVS CNI, macvtap CNI and kube-rbac-proxy), and how empty
  image settings fall back to those defaults (`AddonsImages.FillDefaults`);
- the related-images inventory (`RelatedImage`, `NewRelatedImage`, `NewRelatedImages`,
  `RelatedImages.Add`, `AddonsImages.ToRelatedImages`). It pairs each image reference with its
  bare name, which group 1 of the regular expression `(?:.+/)*([^/:@]+)(?:[:@]?.*)?` extracts;
- the operator's own Deployment (`GetDeployment`): its images, its environment variables, its
  replica count and its security settings;
- the monitoring-namespace fallback (`getMonitoringNamespace`).

The modules follow that structure:

- `Wrappers` (`wrappers.dfy`) holds the `Option` type. It stands for Go's pointers and for
  unset environment variables.
- `ImageSplit` (`image_split.dfy`) is the regular expression. Go's `FindStringSubmatch` is
  written out as the backtracking search that Go's leftmost-first semantics prescribes for
  this pattern. A declarative statement of which match that is comes with it, and a proof
  that the search finds exactly that match.
  - Go's default flags are honoured: `.` does not match a newline, while `[^/:@]` does.
- `Components` (`components.dfy`) holds the image constants, the `AddonsImages` record and
  the related images.
  - `AddonsImages` is a class, because `FillDefaults` updates its fields in place through a
    pointer receiver.
  - `RelatedImagesRef` is the variable that `Add`'s pointer receiver appends to.
  - `NewRelatedImages` keeps the source's loop.
- `OperatorDeployment` (`operator_deployment.dfy`) holds the Deployment. It keeps the
  fields `GetDeployment` fills from its inputs, and the fixed ones it sets: API version and
  kind, selector, strategy, service account, priority class, the pod and container security
  settings, the proxy's port, arguments and termination message policy. Labels,
  annotations and resource requests are left out.
  - A variable is looked up by name as the first entry with that name. The operator
    environment has no repeated name (`OperatorEnvDistinct`), so that entry is the only one.

## Model

| member | source | states |
|---|---|---|
| ImageSplit.Search | pkg/components/components.go:28 | the unanchored search tries the pattern at each start in turn; a match it returns lies inside the string and its group 1 begins on a character other than '/', ':' or '@' |
| ImageSplit.FindSubmatch | pkg/components/components.go:28 | group 1 of `imageSplitRe.FindStringSubmatch`, when there is a match, is non-empty, holds no '/', ':' or '@', and occurs in the input |
| ImageSplit.SearchIsLeftmostFirst | pkg/components/components.go:28 | the search returns the leftmost-first match: no match starts earlier, and among parses at that start it is the one whose `(?:.+/)*` iterations reach furthest; it returns none exactly when no start admits a match |
| ImageSplit.NoMatchIffAllSeparators | pkg/components/components.go:28 | the pattern fails exactly on the strings made only of '/', ':' and '@', the empty string among them |
| ImageSplit.QualifiedName | pkg/components/components.go:28 | for `path + name + suffix`, where the path is empty or a newline-free path ending in '/' (a lone "/" included) and the suffix is empty or a ':' tag or '@' digest without '/', group 1 is exactly the bare name |
| Components.OrDefault | pkg/components/components.go:73-75 | a non-empty image is kept; an empty one becomes the fallback |
| Components.WithDefaults | pkg/components/components.go:72-94 | each of the seven images is kept when set and replaced by its default when empty |
| Components.AddonsImages.FillDefaults | pkg/components/components.go:72-95 | each field becomes its default exactly when it was empty, the other fields keep their values, the whole record equals WithDefaults of the old record, and the receiver itself is returned |
| Components.WithDefaultsFills | pkg/components/components.go:72-94 | after defaulting, every image is non-empty, a configured image is kept, and an empty one equals its default |
| Components.WithDefaultsIdempotent | pkg/components/components.go:72-94 | defaulting twice gives the same images as defaulting once |
| Components.AddonsImages.ToRelatedImages | pkg/components/components.go:97-107 | seven entries, entry i being the related image of the i-th field in the order Multus, LinuxBridgeCni, LinuxBridgeMarker, KubeMacPool, OvsCni, MacvtapCni, KubeRbacProxy |
| Components.NewRelatedImage | pkg/components/components.go:109-120 | Ref is the input; when no group 1 exists (input empty or only separators) Name is the whole input; otherwise Name is non-empty, free of '/', ':' and '@', and a substring of the input |
| Components.NewRelatedImageIsLeftmostFirst | pkg/components/components.go:109-114 | when the input has a character other than '/', ':' or '@', Name is the group-1 run of the leftmost-first match |
| Components.NewRelatedImages | pkg/components/components.go:58-65 | one entry per argument, in argument order, entry i being the related image of argument i |
| Components.RelatedImagesRef.Add | pkg/components/components.go:67-70 | exactly one entry, the related image of the argument, is appended, and the earlier entries are unchanged |
| Components.DigestReferenceName | pkg/components/components.go:32-38 | for `repository/name@sha256:<hex>`, with a newline-free repository, the related name is the bare name |
| Components.MultusDefaultName | pkg/components/components.go:32 | the default Multus image is named "multus-cni" |
| Components.LinuxBridgeCniDefaultName | pkg/components/components.go:33 | the default Linux bridge CNI image is named "cni-default-plugins" |
| Components.LinuxBridgeMarkerDefaultName | pkg/components/components.go:34 | the default bridge marker image is named "bridge-marker" |
| Components.KubeMacPoolDefaultName | pkg/components/components.go:35 | the default KubeMacPool image is named "kubemacpool" |
| Components.OvsCniDefaultName | pkg/components/components.go:36 | the default OVS CNI image is named "ovs-cni-plugin" |
| Components.MacvtapCniDefaultName | pkg/components/components.go:37 | the default macvtap CNI image is named "macvtap-cni" |
| Components.KubeRbacProxyDefaultName | pkg/components/components.go:38 | the default kube-rbac-proxy image is named "origin-kube-rbac-proxy" |
| Components.EmptyLastSegment | pkg/components/components.go:109-114 | in "a/:x" the segment after the last '/' has no name character, so the greedy iteration backs off and the name is "a" |
| Components.LeadingColon | pkg/components/components.go:109-114 | a match may begin after a leading ':', and the name of ":abc" is "abc" |
| Components.NoMatchKeepsReference | pkg/components/components.go:109-114 | the related names of "" and "/:@" are the references themselves |
| OperatorDeployment.GetMonitoringNamespace | pkg/components/components.go:1027-1033 | the result is never empty; it is the MONITORING_NAMESPACE value when that is set and non-empty, and "openshift-monitoring" when it is unset or empty |
| OperatorDeployment.OperatorEnvNamesDistinct | pkg/components/components.go:183-256 | the sixteen variable names the operator container declares are pairwise different |
| OperatorDeployment.OperatorEnvDistinct | pkg/components/components.go:182-257 | no two variables of the operator container's environment share a name |
| OperatorDeployment.OperatorEnvLookup | pkg/components/components.go:182-257 | each variable of the operator environment is the one found under its own name |
| OperatorDeployment.AddonsImageEnv | pkg/components/components.go:183-210 | MULTUS_IMAGE, LINUX_BRIDGE_IMAGE, LINUX_BRIDGE_MARKER_IMAGE, OVS_CNI_IMAGE, KUBEMACPOOL_IMAGE, MACVTAP_CNI_IMAGE and KUBE_RBAC_PROXY_IMAGE each read as the matching AddonsImages field |
| OperatorDeployment.OperatorOwnEnv | pkg/components/components.go:211-254 | OPERATOR_IMAGE reads as the operator image, OPERATOR_VERSION as the operator version, and MONITORING_NAMESPACE as the monitoring-namespace fallback |
| OperatorDeployment.GetDeployment | pkg/components/components.go:122-303 | the Deployment carries the operator's name and the given namespace; it has one replica and two containers; the first runs `repository/imageName:tag`, the second the KubeRbacProxy image; both use the given pull policy |
| OperatorDeployment.GetDeploymentEnv | pkg/components/components.go:123-257 | the operator container's variable names are distinct; OPERATOR_IMAGE is the image that container runs; each *_IMAGE variable is its AddonsImages field; OPERATOR_VERSION and MONITORING_NAMESPACE read as their inputs |
| OperatorDeployment.GetDeploymentHardened | pkg/components/components.go:124-295 | whatever the inputs, the pod runs as non-root and every container forbids privilege escalation and drops all capabilities ("ALL") |
| OperatorDeployment.OperatorImageName | pkg/components/components.go:123 | for a newline-free repository, a name without separators and a tag without '/', the related name of the operator image is the image name |

## Left out

- GetRole, GetClusterRole, GetCrd and GetCRV1 are left out: they return fixed Kubernetes objects and compute nothing from their inputs.
- The `cipherSuites` list is left out, and so is the end-to-end test under `test/`.
- The Deployment's annotations and labels are left out. The version annotation goes through `k8s.StringToLabel`, and the label keys come from the `names` package; neither source is part of this model.
- The pod template's description annotation is left out.
- The CPU and memory requests are left out: `resource.MustParse` quantities are outside this model.
- Certificates, TLS, placement and the reconcile loop are left out: their source is not part of this model.
- `os.Getenv("MONITORING_NAMESPACE")` is modelled as a parameter that is either unset or a string; unset reads as "".
- GetDeployment: the `version` parameter is accepted and unused, as in the source.
- GetDeployment: a nil `addonsImages` pointer, which would panic, is not modelled.
- GetDeployment: its contract covers the fields listed above. The fixed ports, arguments, strategy, selector, priority class and seccomp profile are built in the body but not stated.
- FillDefaults: each field is written back as `OrDefault(field, default)`. That writes an unchanged value where the source skips the write; the resulting state is the same.
- ImageSplit: strings are sequences of characters (runes). Go's regexp works on UTF-8 bytes, so invalid UTF-8 input is not modelled.
- FindSubmatch returns only group 1. The whole-match element `names[0]` is not used by the source and is not modelled.
- The seven default image references are written as `repository/name@sha256:` followed by the digest spelled in two 32-digit halves. Their text is the source's.
