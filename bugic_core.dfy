/**
 * The shared vocabulary of the earlier bugic runtime (bugic/crates/bugic-core/src/lib.rs):
 * plugin ids and the error every plugin call reports. Unlike bugi, a tag mismatch
 * names a one-byte ABI id.
 */
module BugicCore {
  import opened Share
  import CShare

  /** `PluginId` is a u32. */
  type PluginId = n: int | 0 <= n < 0x1_0000_0000

  datatype BugiError =
    | CannotSerialize(cause: SerializeError)
    | PluginIdExists(strId: string)
    | PluginDropped
    | PluginCallError(msg: string)
    | PluginAbiError(expected: CShare.U8)
}
