/** The entities both media share: message types, messages, handler callbacks, the
    collaborators that encode and decode messages, and the exceptions the media throw. */
module Messages {
  import opened Results

  /** A message type, identified by its `Type.FullName`. */
  type TypeName = string

  /** A handler callback (a delegate reference). What it does when invoked is given by an oracle. */
  type HandlerId = nat

  /** An `IMessage`: its runtime type (`GetType()`), its `Topic` (null is `None`) and its
      publicly readable properties. */
  datatype Message = Message(runtimeType: TypeName, topic: Option<string>, properties: map<string, string>)

  /** The JSON serializer: may fail, e.g. when a property getter throws. */
  type Encoder = Message -> Result<string, string>

  /** The JSON deserializer: may fail on malformed input. */
  type Decoder = (string, TypeName) -> Option<Message>

  /** Whether invoking a handler on a message completes (true) or throws (false). */
  type HandlerOracle = (HandlerId, Message) -> bool

  /** The exceptions the media raise or let through. */
  datatype Error =
    | ArgumentNull(paramName: string)                // ArgumentNullException
    | Argument(text: string, paramName: string)      // ArgumentException
    | Serialization(reason: string)                  // the serializer's exception
    | DuplicateKey(key: string)                      // Dictionary.Add on an existing key
    | HandlerException(handler: HandlerId)           // a handler's own exception
}
