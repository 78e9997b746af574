/**
 * The shape of a chat message (src/lib/types.ts). The source types `content`
 * as an arbitrary React node; the model keeps the three kinds of node the
 * page and the message list actually build.
 */
module Messages {
  datatype Author = User | Bot

  /** One `[timestampMillis, price]` pair of a chart reply; prices are kept integral. */
  datatype PricePoint = PricePoint(timestamp: int, price: int)

  datatype Content =
    | Text(text: string)                                 // a plain string node
    | Chart(caption: string, points: seq<PricePoint>)    // caption paragraph followed by a price chart
    | Thinking                                           // the animated "Thinking" indicator

  datatype Message = Message(id: string, author: Author, content: Content)
}
