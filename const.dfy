/**
 * The configuration keys and the integration domain. const.py is not part of this
 * model: each key's string is its constant's name in lower case; the proofs rely only
 * on the keys being distinct.
 */
module Const {

  /** The integration's domain, the first half of every device identifier. */
  const Domain: string := "monitor_docker"

  const ContainersKey: string := "containers"
  const MonitoredConditionsKey: string := "monitored_conditions"
  const NameKey: string := "name"
  const UrlKey: string := "url"
  const HostKey: string := "host"

  /** The keys that live in a config entry's options rather than its data, in the source's order. */
  const OptionKeys: seq<string> := [ContainersKey, MonitoredConditionsKey]
}
