/**
 * The input record of the reconciler (serviceManifest/manifest.go). Loading a
 * manifest file is not part of this model: a manifest is given as a value.
 */
module ServiceManifest {

  /** One entry of the `create-services` list; `kind` is the `type` field. */
  datatype Service = Service(
    serviceName: string,
    kind: string,
    broker: string,
    planName: string,
    url: string,
    updateService: bool,
    credentials: map<string, string>,
    tags: string,
    jsonParameters: string)

  datatype Manifest = Manifest(services: seq<Service>)
}
