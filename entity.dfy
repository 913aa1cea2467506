/** The device description shared by the component's entities (entity.py). */
module Entity {
  import opened Wrappers
  import opened Text
  import opened Docker
  import Const

  /**
   * `DockerBaseEntity.device_info`: the host's own device when the entity has no
   * container, otherwise the container's device, reached through the host's.
   */
  function BaseDeviceInfo(hostUid: string, container: Option<Container>, name: Option<string>): (d: DeviceInfo)
    ensures d.manufacturer == "Docker" && d.name == name && d.model != ""
    ensures container.None? ==>
      && d.identifiers == {(Const.Domain, hostUid)}
      && d.model == "Remote Engine"
      && d.viaDevice == None && d.swVersion == None
    ensures container.Some? ==>
      var c := container.value;
      && d.identifiers == {(Const.Domain, hostUid + ":" + Take(c.id, 12))}
      && d.viaDevice == Some((Const.Domain, hostUid))
      && (c.info.image.Some? && c.info.image.value != "" ==> d.model == c.info.image.value)
      && (c.info.image == None || c.info.image == Some("") ==> d.model == "container")
      && d.swVersion == (if c.info.imageHash.HashText? then Some(Take(c.info.imageHash.text, 12)) else None)
      && (d.swVersion.Some? ==>
            |d.swVersion.value| <= 12 && d.swVersion.value <= c.info.imageHash.text
            && (|c.info.imageHash.text| <= 12 ==> d.swVersion.value == c.info.imageHash.text)
            && (|c.info.imageHash.text| > 12 ==> |d.swVersion.value| == 12))
  {
    match container
    case None =>
      DeviceInfo({(Const.Domain, hostUid)}, None, "Docker", "Remote Engine", name, None)
    case Some(c) =>
      var cidShort := Take(c.id, 12);
      var model := if c.info.image.Some? && c.info.image.value != "" then c.info.image.value else "container";
      var sw := if c.info.imageHash.HashText? then Some(Take(c.info.imageHash.text, 12)) else None;
      DeviceInfo({(Const.Domain, hostUid + ":" + cidShort)}, Some((Const.Domain, hostUid)), "Docker", model, name, sw)
  }
}
