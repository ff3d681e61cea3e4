/**
 The Kubernetes objects the WebPage controller reads and writes, reduced to the
 fields the controller touches: object identity, the owner reference, and the
 parts of the Deployment and Service specifications it fills in.
 */
module Objects {

  import opened Wrappers

  /** The namespace/name pair that identifies an object in the store (types.NamespacedName). */
  datatype NamespacedName = NamespacedName(namespace: string, name: string)

  /** Metadata of a stored object. `owner` is the controller owner reference, kept opaque:
      it names the identity of the owning object and nothing more. */
  datatype ObjectMeta = ObjectMeta(namespace: string, name: string, owner: Option<NamespacedName>)

  function KeyOf(meta: ObjectMeta): NamespacedName
  {
    NamespacedName(meta.namespace, meta.name)
  }

  type LabelMap = map<string, string>

  /** The WebPage custom resource: its identity and the one spec field the user controls. */
  datatype WebPageSpec = WebPageSpec(title: string)
  datatype WebPage = WebPage(meta: ObjectMeta, spec: WebPageSpec)

  datatype EnvVar = EnvVar(name: string, value: string)
  datatype ContainerPort = ContainerPort(containerPort: int)
  datatype Container = Container(name: string, image: string, ports: seq<ContainerPort>, env: seq<EnvVar>)
  datatype PodTemplate = PodTemplate(labels: LabelMap, containers: seq<Container>)
  datatype DeploymentSpec = DeploymentSpec(replicas: int, selector: LabelMap, template: PodTemplate)
  datatype Deployment = Deployment(meta: ObjectMeta, spec: DeploymentSpec)

  datatype Protocol = TCP | UDP | SCTP
  datatype ServiceType = ClusterIP | NodePort | LoadBalancer | ExternalName
  datatype ServicePort = ServicePort(protocol: Protocol, port: int, targetPort: int, nodePort: int)
  datatype ServiceSpec = ServiceSpec(selector: LabelMap, ports: seq<ServicePort>, serviceType: ServiceType)
  datatype Service = Service(meta: ObjectMeta, spec: ServiceSpec)
}
