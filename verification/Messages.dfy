/** The message envelope (src/message.rs); identifiers and payloads are opaque values. */
module Messages {

  datatype Message = Message(
    id: nat,
    conversationId: nat,
    sender: string,
    senderNs: string,
    path: string,
    msgType: string,
    data: string,
    headers: map<string, string>)
}
