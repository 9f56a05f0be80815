/** Types shared by the server registry and the three client components. */
module Base {

  /** JavaScript's `null`/`undefined` versus a present value. */
  datatype Option<T> = None | Some(value: T)

  /** A socket.io connection id. socket.io never issues an empty id, so an id is always truthy. */
  type ConnId = s: string | s != "" witness "a"

  /** A room name, supplied by the client (the route parameter); the empty name is falsy. */
  type RoomId = string

  /** A session description produced by the browser; the model never looks inside it. */
  type Sdp = string

  /** An ICE candidate produced by the browser; the model never looks inside it. */
  type Candidate = string

  /** The `receive-message` payload that the server broadcasts and the chat panel stores. */
  datatype ChatMessage = ChatMessage(message: string, senderId: ConnId, displayName: string)

  /** A message a client emits on its socket, addressed to the server. */
  datatype ClientEmit =
    | JoinRoom(roomId: RoomId, displayName: string)
    | Offer(target: ConnId, sdp: Sdp)
    | Answer(target: ConnId, sdp: Sdp)
    | IceCandidate(target: ConnId, candidate: Candidate)
    | StartShare
    | StopShare
    | CreatePoll(question: string, options: seq<string>)
    | SubmitVote(optionIndex: int)
    | ClosePoll
    | SendMessage(roomId: RoomId, message: string)
}
