/**
 * The Docker client wrapper (helpers.py, which is not part of this model) seen as data:
 * what `list_containers`, `get_container` and a container's `id`, `get_id()` and
 * `get_info()` return, and the device description the host's device registry receives.
 */
module Docker {
  import opened Wrappers

  /** The image hash as `info.get(CONTAINER_INFO_IMAGE_HASH)` may give it. */
  datatype HashField = NoHash | HashText(text: string) | HashNotText

  /** The fields of a container's info dictionary that the component reads. */
  datatype ContainerInfo = ContainerInfo(state: Option<string>, image: Option<string>, imageHash: HashField)

  /** A container API object: its Docker id, what its `get_id()` returns, and its current info. */
  datatype Container = Container(id: string, apiId: string, info: ContainerInfo)

  /** One outcome of calling a container's `get_info()`. */
  datatype InfoResult = InfoRaises | InfoMissing | InfoOk(info: ContainerInfo)

  /**
   * The Docker API of one host: the names `list_containers()` returns, in order, and the
   * containers `get_container(name)` resolves (a name outside the map gives None).
   */
  datatype DockerApi = DockerApi(names: seq<string>, containers: map<string, Container>)

  /** The keyword arguments of a device: identifiers, via_device, manufacturer, model, name, sw_version. */
  datatype DeviceInfo = DeviceInfo(
    identifiers: set<(string, string)>,
    viaDevice: Option<(string, string)>,
    manufacturer: string,
    model: string,
    name: Option<string>,
    swVersion: Option<string>)
}
