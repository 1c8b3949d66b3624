/** The entities of the chat log: products, messages and the reply a
    transport hands back to the session. */
module ChatTypes {
  import opened Wrappers

  /** A product card; an opaque pass-through everywhere in the widget. */
  datatype Product = Product(id: string, title: string, price: string, image: string, link: Option<string>)

  /** A `Date`: an instant in milliseconds since the epoch, or Invalid Date. */
  datatype Instant = At(millis: int) | InvalidDate

  /** Status names a message can carry. */
  const SENDING: string := "sending"
  const SENT: string := "sent"
  const ERROR: string := "error"

  /** One entry of the chat log. `status` is a plain string because a message
      restored from storage keeps whatever non-empty status it was saved with. */
  datatype Message = Message(
    id: string,
    text: string,
    timestamp: Instant,
    isUser: bool,
    status: string,
    products: Option<seq<Product>>)

  /** What a transport resolves with: the reply text, optional products and
      the follow-up request flag. */
  datatype ChatResponse = ChatResponse(text: string, products: Option<seq<Product>>, shouldSendFollowUp: bool)

  /** The ids occurring in a log. */
  function Ids(msgs: seq<Message>): (r: set<string>)
    ensures forall i :: 0 <= i < |msgs| ==> msgs[i].id in r
    ensures forall id :: id in r ==> exists i :: 0 <= i < |msgs| && msgs[i].id == id
  {
    set i | 0 <= i < |msgs| :: msgs[i].id
  }

  /** The ids of a non-empty log: its head's id and the ids of the rest. */
  lemma IdsCons(msgs: seq<Message>)
    requires msgs != []
    ensures Ids(msgs) == {msgs[0].id} + Ids(msgs[1..])
  {
    forall x | x in Ids(msgs) && x != msgs[0].id ensures x in Ids(msgs[1..]) {
      var i :| 0 <= i < |msgs| && msgs[i].id == x;
      assert msgs[1..][i - 1].id == x;
    }
  }

  /** No two messages of the log share an id. */
  predicate UniqueIds(msgs: seq<Message>) {
    forall i, j :: 0 <= i < j < |msgs| ==> msgs[i].id != msgs[j].id
  }
}
