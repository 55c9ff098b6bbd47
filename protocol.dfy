/** Values exchanged between the chat client and the chat server. */
module Protocol {

  datatype Option<T> = None | Some(value: T)

  /** `type === 'system'` marks a server announcement; anything else is a user message. */
  datatype MessageKind = UserMessage | SystemMessage

  /** A chat message as the server sends it. The client stores it as received
      and never inspects it while handling events. */
  datatype Message = Message(id: string, sender: string, content: string, timestamp: string, kind: MessageKind)

  /** An entry of the roster the server sends in a `users` event. */
  datatype User = User(name: string)

  /** What the client emits on its socket: `join`, `message` and `typing`. */
  datatype Outbound = Join(fullName: string) | Post(content: string) | Typing(isTyping: bool)

  /** Alerts shown to the user: the connection-error dialog (whose only
      button leaves the chat screen) and a server `error` event's message. */
  datatype Notice = ConnectionFailed | ServerError(message: string)
}
