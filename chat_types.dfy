/** The records of the chat transcript (types.ts), with the attachment field that
    services/geminiService.ts reads from a message. */
module ChatTypes {
  import opened Wrappers

  /** Ids are the uuid strings the controller generates. */
  type Id = string

  datatype Role = User | Model

  /** A file attached to a message; `data` is empty when its content could not be read. */
  datatype Attachment = Attachment(data: string, mimeType: string, name: string)

  /** A web citation kept on a model message: `{ web: { uri, title } }`. */
  datatype GroundingChunk = GroundingChunk(uri: string, title: string)

  datatype Message = Message(
    id: Id,
    role: Role,
    content: string,
    attachment: Option<Attachment>,
    groundingChunks: Option<seq<GroundingChunk>>)

  datatype Conversation = Conversation(
    id: Id,
    title: string,
    messages: seq<Message>,
    createdAt: int)
}
