/** The part of a socket.io connection the server reads and writes. */
module SocketIo {
  import opened Wrappers

  /** One client connection. Its `id` is assigned by socket.io; `dataRoomId` is `socket.data.roomId`. */
  class Socket {
    const id: string
    var dataRoomId: Option<string>
  }
}
