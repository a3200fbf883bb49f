/** The shared message type of the chat client and the decision helper's option bound. */
module Types {

  datatype Option<+T> = None | Some(value: T)

  /** The five roles a transcript entry can carry. */
  datatype Role = User | Model | Loading | Error | System

  /** One transcript entry: an id (a millisecond timestamp in the client), a role and its text. */
  datatype Message = Message(id: int, role: Role, content: string)

  /** Largest number of options the decision helper offers. */
  const MAX_OPTIONS: nat := 5
}
