/** The records shared by the chat front-end: characters, messages and chat sessions. */
module Types {

  datatype Option<+T> = None | Some(value: T)

  datatype Result<+T, +E> = Ok(value: T) | Err(error: E)

  /** The two fixed companions. */
  datatype CharacterId = Tom | Jerry

  /** A catalog entry; only the fields the session logic reads are kept. */
  datatype Character = Character(id: CharacterId, name: string, apiEndpoint: string)

  const TomCharacter := Character(Tom, "Tom", "http://127.0.0.1:5000/chat/tom")
  const JerryCharacter := Character(Jerry, "Jerry", "http://127.0.0.1:5000/chat/jerry")

  datatype Sender = User | Bot

  /** A chat message; an absent `isError` flag is `false`. `timestamp` is epoch milliseconds. */
  datatype Message = Message(id: string, text: string, sender: Sender, timestamp: int, isError: bool)

  /** One conversation with one character. `lastUpdated` is epoch milliseconds of the last write. */
  datatype ChatSession = ChatSession(id: string, characterId: CharacterId, messages: seq<Message>, lastUpdated: int)
}
