/** The calls the run loop makes of its producer and its consumer, as these see them. */
module Journal {
  import opened Text
  import opened Messages

  datatype LoopCall =
    | GetNext(result: Option<seq<Message>>)               // None: it threw
    | Consume(batch: seq<Message>, accepted: bool)
    | MarkConsumed(ids: seq<nat>, returned: bool)         // or it threw

  /** Producer and consumer share one, so that the order of their calls is on record. */
  class Journal {
    ghost var calls: seq<LoopCall>

    constructor ()
      ensures calls == []
    {
      calls := [];
    }
  }
}
