/** The quick-reply buttons: at most five suggestions in two rows; pressing
    one reports a click event and hands its text to the caller. */
module QuickReplies {
  import opened Wrappers
  import Analytics

  datatype QuickReply = QuickReply(id: string, text: string)

  /** The suggestions used when the `replies` prop is omitted. */
  const DEFAULT_QUICK_REPLIES: seq<QuickReply> := [
    QuickReply("1", "New Collection"),
    QuickReply("2", "Dresses"),
    QuickReply("3", "Spring"),
    QuickReply("4", "Bridal"),
    QuickReply("5", "Resort '24")
  ]

  function Min(a: int, b: int): int {
    if a <= b then a else b
  }

  /** The `replies` prop after its default. */
  function RepliesOf(prop: Option<seq<QuickReply>>): (r: seq<QuickReply>)
    ensures prop.None? ==> r == DEFAULT_QUICK_REPLIES && |r| == 5
    ensures prop.Some? ==> r == prop.value
  {
    if prop.Some? then prop.value else DEFAULT_QUICK_REPLIES
  }

  /** `replies.slice(0, 2)` */
  function FirstRow(replies: seq<QuickReply>): (r: seq<QuickReply>)
    ensures |r| == Min(2, |replies|)
    ensures forall i :: 0 <= i < |r| ==> r[i] == replies[i]
  {
    replies[..Min(2, |replies|)]
  }

  /** `replies.slice(2, 5)` */
  function SecondRow(replies: seq<QuickReply>): (r: seq<QuickReply>)
    ensures |r| == if |replies| <= 2 then 0 else Min(5, |replies|) - 2
    ensures forall i :: 0 <= i < |r| ==> r[i] == replies[i + 2]
  {
    replies[Min(2, |replies|)..Min(5, |replies|)]
  }

  /** The second row is rendered only when it is not empty. */
  predicate ShowSecondRow(replies: seq<QuickReply>) {
    |SecondRow(replies)| > 0
  }

  /** The rows together are the first five replies (fewer if there are
      fewer), in order; a reply beyond the fifth is never shown. */
  lemma RowsPartitionFirstFive(replies: seq<QuickReply>)
    ensures FirstRow(replies) + SecondRow(replies) == replies[..Min(5, |replies|)]
    ensures ShowSecondRow(replies) <==> |replies| > 2
    ensures |FirstRow(replies) + SecondRow(replies)| <= 5
  {
    var rows := FirstRow(replies) + SecondRow(replies);
    assert |rows| == Min(5, |replies|);
    forall i | 0 <= i < |rows| ensures rows[i] == replies[i] {
      if i >= |FirstRow(replies)| {
        assert rows[i] == SecondRow(replies)[i - |FirstRow(replies)|];
      }
    }
  }

  /** The default suggestions fill the first row with two and the second
      with three. */
  lemma DefaultRows()
    ensures FirstRow(RepliesOf(None)) == [QuickReply("1", "New Collection"), QuickReply("2", "Dresses")]
    ensures |SecondRow(RepliesOf(None))| == 3
  {
  }

  /** `handleButtonMouseDown`: the click event with the reply's id and text,
      and the text passed to `onReplySelected`. */
  function Select(reply: QuickReply): (r: (Analytics.AnalyticsEvent, string))
    ensures r.1 == reply.text
    ensures r.0.eventType == Analytics.ClickQuickReply
    ensures r.0.eventData == Some(map["replyId" := reply.id, "replyText" := reply.text])
  {
    (Analytics.AnalyticsEvent(Analytics.ClickQuickReply, Some(map["replyId" := reply.id, "replyText" := reply.text])),
     reply.text)
  }
}
