/**
  Values shared by the key and the controller: an optional value (the
  Objective-C `nullable` reference) and opaque object identities.
  Objects are compared by identity only, so each identity is a bare address.
 */
module Identity {

  /** A nullable reference: `None` stands for `nil`. */
  datatype Option<+T> = None | Some(value: T)

  /** The identity of an arbitrary object (an observer or a notification sender). */
  datatype ObjId = ObjId(address: nat)

  /** The identity of a notification center. */
  datatype CenterId = CenterId(address: nat)

  /** The identity of an operation queue a block may be handed to. */
  datatype QueueId = QueueId(address: nat)

  /** The identity of a block registered with the controller. */
  datatype BlockId = BlockId(address: nat)

  /** A selector, identified by its name. */
  datatype SelectorId = SelectorId(name: string)
}
