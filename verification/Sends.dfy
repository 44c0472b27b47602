/** What a node hands to its forward queue. */
module Sends {
  import opened Text
  import opened Wire

  /** What a success callback records in the SyncTable. */
  datatype Served = Served(key: string, origin: string)

  /** `hops` counts how often the message was forwarded before; no step reads it. */
  datatype Item =
    | Direct(msg: Message, hops: nat, addr: nat, onSuccess: Option<Served>)
    | Broadcast(msg: Message, hops: nat, exclude: Option<nat>)
}
