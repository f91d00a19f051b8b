/** Names and small types every other module uses. */
module Basics {

  datatype Option<+T> = None | Some(value: T)

  /** The namespaced name of a Kubernetes object. */
  datatype Key = Key(namespace: string, name: string)

  /** A Go pointer to a flag that counts as set when it is non-nil and true. */
  predicate IsSet(flag: Option<bool>) {
    flag == Some(true)
  }

  /** A Go pointer to a string, with nil and the empty string both replaced by `default`. */
  function OrDefault(text: Option<string>, default: string): string {
    if text.Some? && |text.value| > 0 then text.value else default
  }
}
