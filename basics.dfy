/** Values shared by every part of the model: optional values, object
    identities, and the property values an observed object can hold. */
module Basics {

  datatype Option<+T> = None | Some(value: T) {
    function GetOr(default: T): T {
      match this
      case Some(v) => v
      case None => default
    }
  }

  /** Identity of an Objective-C object (pointer identity in Objective-C). */
  type ObjectId = nat

  /** An element of an `NSArray`: an `NSObject` that can be observed, or
      anything else (which every register/deregister loop skips). */
  datatype Element = Object(id: ObjectId) | NonObject(tag: int)

  /** A property value as `value(forKey:)` returns it. */
  datatype Value =
    | Nil
    | Number(n: int)
    | Text(s: string)
    | Array(elements: seq<Element>)
}
