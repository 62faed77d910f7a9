/** The status of a connection: base/include/TcpConnection.h. */
module ConnStatuses {

  datatype Status = Connected | Disconnected | Disconnecting
}
