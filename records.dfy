/** The two persisted record types: a conversation thread and one message
    of a thread. Timestamps are the text the program formats or SQLite
    stores; identifiers are opaque text. */
module Records {

  datatype Thread = Thread(
    id: string,
    name: string,
    createdAt: string,
    updatedAt: string,
    externalMessageStore: bool)

  datatype Message = Message(
    id: string,
    role: string,
    content: string,
    createdAt: string,
    threadId: string)
}
