/** Value types shared by the proxy-group model. */
module Types {

  /** A proxy handle as a group sees it: its name and its declared weight. */
  datatype Proxy = Proxy(name: string, weight: int)

  /** Provider versions are unsigned 32-bit counters. */
  type uint32 = x: int | 0 <= x < 0x1_0000_0000

  /**
   * What one call observes of one provider: its current version, whether its
   * vehicle type is Compatible, and its current proxy list.
   */
  datatype ProviderView = ProviderView(version: uint32, compatible: bool, proxies: seq<Proxy>)

  datatype Option<+T> = None | Some(value: T)

  /** The outcome of a call that may panic: a returned value, or a panic with its message. */
  datatype Outcome<+T> = Ok(value: T) | Panic(message: string)
}
