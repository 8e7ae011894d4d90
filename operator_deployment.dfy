/**
 * The operator's own Deployment as `GetDeployment` renders it
 * (pkg/components/components.go), reduced to the fields it wires from its inputs and to
 * its always-on security settings, and the monitoring-namespace fallback it embeds.
 */
module OperatorDeployment {
  import opened Wrappers
  import opened ImageSplit
  import opened Components

  newtype int32 = x: int | -0x8000_0000 <= x < 0x8000_0000

  datatype ObjectFieldSelector = ObjectFieldSelector(fieldPath: string)

  datatype EnvVarSource = EnvVarSource(fieldRef: Option<ObjectFieldSelector>)

  /** An environment variable: a literal value, or one taken from the pod (`valueFrom`). */
  datatype EnvVar = EnvVar(name: string, value: string, valueFrom: Option<EnvVarSource>)

  datatype Capabilities = Capabilities(drop: seq<string>)

  datatype SecurityContext = SecurityContext(
    allowPrivilegeEscalation: Option<bool>,
    capabilities: Option<Capabilities>)

  datatype ContainerPort = ContainerPort(name: string, protocol: string, containerPort: int32)

  datatype Container = Container(
    name: string,
    image: string,
    imagePullPolicy: string,
    ports: seq<ContainerPort>,
    args: seq<string>,
    env: seq<EnvVar>,
    terminationMessagePolicy: string,
    securityContext: Option<SecurityContext>)

  datatype PodSecurityContext = PodSecurityContext(runAsNonRoot: Option<bool>, seccompProfileType: string)

  datatype PodSpec = PodSpec(
    serviceAccountName: string,
    securityContext: Option<PodSecurityContext>,
    priorityClassName: string,
    containers: seq<Container>)

  datatype Deployment = Deployment(
    apiVersion: string,
    kind: string,
    name: string,
    namespace: string,
    replicas: Option<int32>,
    selector: map<string, string>,
    strategy: string,
    template: PodSpec)

  const MonitoringNamespaceDefault: string := "openshift-monitoring"

  /** `os.Getenv`: an unset variable reads as the empty string. */
  function Getenv(variable: Option<string>): string {
    variable.GetOr("")
  }

  /** The namespace of the cluster monitoring stack: MONITORING_NAMESPACE, unless unset or empty. */
  function GetMonitoringNamespace(variable: Option<string>): (namespace: string)
    ensures namespace != ""
    ensures variable.Some? && variable.value != "" ==> namespace == variable.value
    ensures variable.None? || variable.value == "" ==> namespace == MonitoringNamespaceDefault
  {
    var namespace := Getenv(variable);
    if namespace == "" then MonitoringNamespaceDefault else namespace
  }

  /** The operator image, `<repository>/<imageName>:<tag>`, as `fmt.Sprintf("%s/%s:%s", ...)` writes it. */
  function OperatorImage(repository: string, imageName: string, tag: string): string {
    repository + "/" + imageName + ":" + tag
  }

  /**
   * The first variable of `env` called `name`, if there is one. In an environment without
   * repeated names (`DistinctNames`) it is the only variable of that name.
   */
  function LookupEnv(env: seq<EnvVar>, name: string): (r: Option<EnvVar>)
    ensures r.Some? ==> r.value in env && r.value.name == name
    ensures r.None? ==> forall i :: 0 <= i < |env| ==> env[i].name != name
  {
    if env == [] then None
    else if env[0].name == name then Some(env[0])
    else LookupEnv(env[1..], name)
  }

  /** The literal value of the variable `name`, when it is set to one. */
  function EnvValue(env: seq<EnvVar>, name: string): Option<string> {
    match LookupEnv(env, name)
    case Some(v) => if v.valueFrom.None? then Some(v.value) else None
    case None => None
  }

  /** The names of the variables of `env`, in order. */
  function Names(env: seq<EnvVar>): (names: seq<string>)
    ensures |names| == |env|
    ensures forall i :: 0 <= i < |env| ==> names[i] == env[i].name
  {
    if env == [] then [] else [env[0].name] + Names(env[1..])
  }

  /** No string occurs twice in `names`. */
  predicate Distinct(names: seq<string>) {
    forall i, j :: 0 <= i < j < |names| ==> names[i] != names[j]
  }

  /** No two variables share a name, so the order of `env` does not matter. */
  predicate DistinctNames(env: seq<EnvVar>) {
    Distinct(Names(env))
  }

  /** A container that may not gain privileges and keeps no Linux capability. */
  predicate Restricted(c: Container) {
    && c.securityContext.Some?
    && c.securityContext.value.allowPrivilegeEscalation == Some(false)
    && c.securityContext.value.capabilities.Some?
    && "ALL" in c.securityContext.value.capabilities.value.drop
  }

  /** The security defaults: a non-root pod whose every container is restricted. */
  predicate Hardened(d: Deployment) {
    && d.template.securityContext.Some?
    && d.template.securityContext.value.runAsNonRoot == Some(true)
    && forall i :: 0 <= i < |d.template.containers| ==> Restricted(d.template.containers[i])
  }

  /** The security context both containers share. */
  function RestrictedContext(): SecurityContext {
    SecurityContext(Some(false), Some(Capabilities(["ALL"])))
  }

  /** A variable whose value is the pod field at `fieldPath`. */
  function FieldEnv(name: string, fieldPath: string): EnvVar {
    EnvVar(name, "", Some(EnvVarSource(Some(ObjectFieldSelector(fieldPath)))))
  }

  /** The environment of the operator container, in the order the source lists it. */
  function OperatorEnv(addonsImages: AddonsImages, image: string, operatorVersion: string,
                       monitoringNamespace: Option<string>): seq<EnvVar>
    reads addonsImages
  {
    [
      EnvVar("MULTUS_IMAGE", addonsImages.multus, None),
      EnvVar("LINUX_BRIDGE_IMAGE", addonsImages.linuxBridgeCni, None),
      EnvVar("LINUX_BRIDGE_MARKER_IMAGE", addonsImages.linuxBridgeMarker, None),
      EnvVar("OVS_CNI_IMAGE", addonsImages.ovsCni, None),
      EnvVar("KUBEMACPOOL_IMAGE", addonsImages.kubeMacPool, None),
      EnvVar("MACVTAP_CNI_IMAGE", addonsImages.macvtapCni, None),
      EnvVar("KUBE_RBAC_PROXY_IMAGE", addonsImages.kubeRbacProxy, None),
      EnvVar("OPERATOR_IMAGE", image, None),
      EnvVar("OPERATOR_NAME", Name, None),
      EnvVar("OPERATOR_VERSION", operatorVersion, None),
      FieldEnv("OPERATOR_NAMESPACE", "metadata.namespace"),
      FieldEnv("OPERAND_NAMESPACE", "metadata.namespace"),
      FieldEnv("POD_NAME", "metadata.name"),
      EnvVar("WATCH_NAMESPACE", "", None),
      EnvVar("MONITORING_NAMESPACE", GetMonitoringNamespace(monitoringNamespace), None),
      EnvVar("MONITORING_SERVICE_ACCOUNT", "prometheus-k8s", None)
    ]
  }

  /** In an environment without repeated names, looking a variable up finds that variable. */
  lemma {:induction false} LookupDistinct(env: seq<EnvVar>, i: nat)
    requires DistinctNames(env) && i < |env|
    ensures LookupEnv(env, env[i].name) == Some(env[i])
  {
    if i > 0 {
      var names := Names(env);
      assert names[0] != names[i];
      assert DistinctNames(env[1..]) by {
        var tail := Names(env[1..]);
        forall a, b | 0 <= a < b < |tail| ensures tail[a] != tail[b] {
          assert names[a + 1] != names[b + 1];
        }
      }
      LookupDistinct(env[1..], i - 1);
    }
  }

  /** The names OperatorEnv declares. */
  const OperatorEnvNames: seq<string> := [
    "MULTUS_IMAGE", "LINUX_BRIDGE_IMAGE", "LINUX_BRIDGE_MARKER_IMAGE", "OVS_CNI_IMAGE",
    "KUBEMACPOOL_IMAGE", "MACVTAP_CNI_IMAGE", "KUBE_RBAC_PROXY_IMAGE", "OPERATOR_IMAGE",
    "OPERATOR_NAME", "OPERATOR_VERSION", "OPERATOR_NAMESPACE", "OPERAND_NAMESPACE",
    "POD_NAME", "WATCH_NAMESPACE", "MONITORING_NAMESPACE", "MONITORING_SERVICE_ACCOUNT"
  ]

  /** The sixteen names are pairwise different. */
  lemma OperatorEnvNamesDistinct()
    ensures Distinct(OperatorEnvNames)
  {
  }

  /** Every variable name of the operator environment occurs once. */
  lemma OperatorEnvDistinct(addonsImages: AddonsImages, image: string, operatorVersion: string,
                            monitoringNamespace: Option<string>)
    ensures DistinctNames(OperatorEnv(addonsImages, image, operatorVersion, monitoringNamespace))
  {
    var names := Names(OperatorEnv(addonsImages, image, operatorVersion, monitoringNamespace));
    forall i | 0 <= i < |names| ensures names[i] == OperatorEnvNames[i] { }
    assert names == OperatorEnvNames;
    OperatorEnvNamesDistinct();
  }

  /** Looking up any variable of the operator environment by its name finds that variable. */
  lemma OperatorEnvLookup(addonsImages: AddonsImages, image: string, operatorVersion: string,
                          monitoringNamespace: Option<string>, i: nat)
    requires i < |OperatorEnv(addonsImages, image, operatorVersion, monitoringNamespace)|
    ensures var env := OperatorEnv(addonsImages, image, operatorVersion, monitoringNamespace);
      LookupEnv(env, env[i].name) == Some(env[i])
  {
    OperatorEnvDistinct(addonsImages, image, operatorVersion, monitoringNamespace);
    LookupDistinct(OperatorEnv(addonsImages, image, operatorVersion, monitoringNamespace), i);
  }

  /** Each *_IMAGE variable of the add-ons carries the matching `AddonsImages` field. */
  lemma AddonsImageEnv(addonsImages: AddonsImages, image: string, operatorVersion: string,
                       monitoringNamespace: Option<string>)
    ensures var env := OperatorEnv(addonsImages, image, operatorVersion, monitoringNamespace);
      && EnvValue(env, "MULTUS_IMAGE") == Some(addonsImages.multus)
      && EnvValue(env, "LINUX_BRIDGE_IMAGE") == Some(addonsImages.linuxBridgeCni)
      && EnvValue(env, "LINUX_BRIDGE_MARKER_IMAGE") == Some(addonsImages.linuxBridgeMarker)
      && EnvValue(env, "OVS_CNI_IMAGE") == Some(addonsImages.ovsCni)
      && EnvValue(env, "KUBEMACPOOL_IMAGE") == Some(addonsImages.kubeMacPool)
      && EnvValue(env, "MACVTAP_CNI_IMAGE") == Some(addonsImages.macvtapCni)
      && EnvValue(env, "KUBE_RBAC_PROXY_IMAGE") == Some(addonsImages.kubeRbacProxy)
  {
    OperatorEnvLookup(addonsImages, image, operatorVersion, monitoringNamespace, 0);
    OperatorEnvLookup(addonsImages, image, operatorVersion, monitoringNamespace, 1);
    OperatorEnvLookup(addonsImages, image, operatorVersion, monitoringNamespace, 2);
    OperatorEnvLookup(addonsImages, image, operatorVersion, monitoringNamespace, 3);
    OperatorEnvLookup(addonsImages, image, operatorVersion, monitoringNamespace, 4);
    OperatorEnvLookup(addonsImages, image, operatorVersion, monitoringNamespace, 5);
    OperatorEnvLookup(addonsImages, image, operatorVersion, monitoringNamespace, 6);
  }

  /** OPERATOR_IMAGE, OPERATOR_VERSION and MONITORING_NAMESPACE carry what they are given. */
  lemma OperatorOwnEnv(addonsImages: AddonsImages, image: string, operatorVersion: string,
                       monitoringNamespace: Option<string>)
    ensures var env := OperatorEnv(addonsImages, image, operatorVersion, monitoringNamespace);
      && EnvValue(env, "OPERATOR_IMAGE") == Some(image)
      && EnvValue(env, "OPERATOR_VERSION") == Some(operatorVersion)
      && EnvValue(env, "MONITORING_NAMESPACE") == Some(GetMonitoringNamespace(monitoringNamespace))
  {
    OperatorEnvLookup(addonsImages, image, operatorVersion, monitoringNamespace, 7);
    OperatorEnvLookup(addonsImages, image, operatorVersion, monitoringNamespace, 9);
    OperatorEnvLookup(addonsImages, image, operatorVersion, monitoringNamespace, 14);
  }

  /**
   * The operator's Deployment. `version` is accepted and unused, as in the source;
   * `monitoringNamespace` is what `os.Getenv("MONITORING_NAMESPACE")` would read.
   */
  function GetDeployment(version: string, operatorVersion: string, namespace: string,
                         repository: string, imageName: string, tag: string,
                         imagePullPolicy: string, addonsImages: AddonsImages,
                         monitoringNamespace: Option<string>): (d: Deployment)
    reads addonsImages
    ensures d.name == Name && d.namespace == namespace
    ensures d.replicas == Some(1)
    ensures |d.template.containers| == 2
    ensures d.template.containers[0].image == repository + "/" + imageName + ":" + tag
    ensures d.template.containers[1].image == addonsImages.kubeRbacProxy
    ensures forall i :: 0 <= i < 2 ==> d.template.containers[i].imagePullPolicy == imagePullPolicy
  {
    var image := OperatorImage(repository, imageName, tag);
    var operator := Container(Name, image, imagePullPolicy, [], [],
                              OperatorEnv(addonsImages, image, operatorVersion, monitoringNamespace),
                              "", Some(RestrictedContext()));
    var proxy := Container("kube-rbac-proxy", addonsImages.kubeRbacProxy, imagePullPolicy,
                           [ContainerPort("metrics", "TCP", 8443)],
                           ["--logtostderr", "--secure-listen-address=:8443", "--upstream=http://127.0.0.1:8080"],
                           [], "FallbackToLogsOnError", Some(RestrictedContext()));
    Deployment(
      "apps/v1", "Deployment", Name, namespace, Some(1), map["name" := Name], "Recreate",
      PodSpec(Name, Some(PodSecurityContext(Some(true), "RuntimeDefault")),
              "system-cluster-critical", [operator, proxy]))
  }

  /**
   * The operator container's environment: no name repeats, each *_IMAGE variable carries
   * its image and OPERATOR_IMAGE the very string the container runs.
   */
  lemma GetDeploymentEnv(version: string, operatorVersion: string, namespace: string,
                         repository: string, imageName: string, tag: string,
                         imagePullPolicy: string, addonsImages: AddonsImages,
                         monitoringNamespace: Option<string>)
    ensures var d := GetDeployment(version, operatorVersion, namespace, repository, imageName, tag,
                                   imagePullPolicy, addonsImages, monitoringNamespace);
      var env := d.template.containers[0].env;
      && DistinctNames(env)
      && EnvValue(env, "OPERATOR_IMAGE") == Some(d.template.containers[0].image)
      && EnvValue(env, "MULTUS_IMAGE") == Some(addonsImages.multus)
      && EnvValue(env, "LINUX_BRIDGE_IMAGE") == Some(addonsImages.linuxBridgeCni)
      && EnvValue(env, "LINUX_BRIDGE_MARKER_IMAGE") == Some(addonsImages.linuxBridgeMarker)
      && EnvValue(env, "OVS_CNI_IMAGE") == Some(addonsImages.ovsCni)
      && EnvValue(env, "KUBEMACPOOL_IMAGE") == Some(addonsImages.kubeMacPool)
      && EnvValue(env, "MACVTAP_CNI_IMAGE") == Some(addonsImages.macvtapCni)
      && EnvValue(env, "KUBE_RBAC_PROXY_IMAGE") == Some(addonsImages.kubeRbacProxy)
      && EnvValue(env, "OPERATOR_VERSION") == Some(operatorVersion)
      && EnvValue(env, "MONITORING_NAMESPACE") == Some(GetMonitoringNamespace(monitoringNamespace))
  {
    var image := OperatorImage(repository, imageName, tag);
    OperatorEnvDistinct(addonsImages, image, operatorVersion, monitoringNamespace);
    AddonsImageEnv(addonsImages, image, operatorVersion, monitoringNamespace);
    OperatorOwnEnv(addonsImages, image, operatorVersion, monitoringNamespace);
  }

  /** The security defaults hold whatever the inputs. */
  lemma GetDeploymentHardened(version: string, operatorVersion: string, namespace: string,
                              repository: string, imageName: string, tag: string,
                              imagePullPolicy: string, addonsImages: AddonsImages,
                              monitoringNamespace: Option<string>)
    ensures Hardened(GetDeployment(version, operatorVersion, namespace, repository, imageName, tag,
                                   imagePullPolicy, addonsImages, monitoringNamespace))
  {
  }

  /**
   * The operator image's related name is `imageName` whenever the repository holds no
   * newline, the name no separator and the tag no '/'.
   */
  lemma OperatorImageName(repository: string, imageName: string, tag: string)
    requires '\n' !in repository
    requires |imageName| > 0 && NoSeparator(imageName)
    requires '/' !in tag
    ensures NewRelatedImage(OperatorImage(repository, imageName, tag)).name == imageName
  {
    assert OperatorImage(repository, imageName, tag) == (repository + "/") + imageName + (":" + tag);
    QualifiedName(repository + "/", imageName, ":" + tag);
  }
}
