/** The wire records shared by the log server and its HTTP client
    (client/model.go). They carry no behaviour. */
module ClientModel {

  /** One stored log: its text body. */
  datatype Log = Log(body: string)

  /** One element of an envelope's item list. */
  datatype OrderItem = OrderItem(log: Log)

  /** The envelope: an identifier (never used to address anything) and the items. */
  datatype Order = Order(id: string, items: seq<OrderItem>)

  /** Go's zero value of an OrderItem: a log with an empty body. */
  const ZeroItem: OrderItem := OrderItem(Log(""))
}
