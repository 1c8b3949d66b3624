/** One rendered message: which blocks appear and which CSS classes the
    bubble gets. The CSS-module class names are opaque non-empty strings,
    written here as tokens; an unused slot of the class array is `None`
    (the empty string the source puts there). */
module ChatbotMessageItem {
  import opened Wrappers
  import opened Text
  import opened ChatTypes
  import UseChat

  datatype CssClass = MessageClass | UserMessageClass | BotMessageClass | ErrorMessageClass | HasProductsClass

  /** `hasProducts`: a bot message with a non-empty product list. */
  predicate HasProducts(m: Message) {
    !m.isUser && m.products.Some? && |m.products.value| > 0
  }

  /** `showText`: the text block appears unless the text is blank. */
  predicate ShowText(m: Message) {
    !IsBlank(m.text)
  }

  /** The retry button: `Some(id)` is the argument its click passes to
      `onRetry`; `None` when the button is not rendered. */
  function RetryButton(m: Message, hasOnRetry: bool): (r: Option<string>)
    ensures r.Some? <==> ShowText(m) && m.status == ERROR && hasOnRetry
    ensures r.Some? ==> r.value == m.id
  {
    if ShowText(m) && m.status == ERROR && hasOnRetry then Some(m.id) else None
  }

  /** `.filter(Boolean)`: the present entries, in order. */
  function Compact(entries: seq<Option<CssClass>>): (r: seq<CssClass>)
    ensures |r| <= |entries|
    ensures forall c :: c in r <==> Some(c) in entries
  {
    if entries == [] then []
    else if entries[0].None? then Compact(entries[1..])
    else [entries[0].value] + Compact(entries[1..])
  }

  /** The filter keeps the order: it distributes over concatenation. */
  lemma {:induction false} CompactAppend(a: seq<Option<CssClass>>, b: seq<Option<CssClass>>)
    ensures Compact(a + b) == Compact(a) + Compact(b)
    decreases |a|
  {
    if a == [] {
      assert a + b == b;
    } else {
      assert (a + b)[0] == a[0];
      assert (a + b)[1..] == a[1..] + b;
      CompactAppend(a[1..], b);
    }
  }

  /** The class array of the bubble before filtering. */
  function ClassSlots(m: Message): seq<Option<CssClass>> {
    [Some(MessageClass),
     Some(if m.isUser then UserMessageClass else BotMessageClass),
     if m.status == ERROR then Some(ErrorMessageClass) else None,
     if HasProducts(m) then Some(HasProductsClass) else None]
  }

  /** `messageClasses`: the base class first, exactly one of the user and
      bot classes, the error class iff the status is `error`, the products
      class iff the carousel is shown, and no empty entry. */
  function ClassList(m: Message): (r: seq<CssClass>)
    ensures 2 <= |r| <= 4 && r[0] == MessageClass
    ensures MessageClass in r
    ensures (UserMessageClass in r) <==> m.isUser
    ensures (BotMessageClass in r) <==> !m.isUser
    ensures (ErrorMessageClass in r) <==> m.status == ERROR
    ensures (HasProductsClass in r) <==> HasProducts(m)
  {
    var slots := ClassSlots(m);
    assert slots[1..][1..][1..][1..] == [];
    Compact(slots)
  }

  /** Filtering an entry followed by more: the entry, if present, comes
      first. */
  lemma CompactCons(x: Option<CssClass>, rest: seq<Option<CssClass>>)
    ensures Compact([x] + rest) == (if x.Some? then [x.value] else []) + Compact(rest)
  {
    assert ([x] + rest)[0] == x;
    assert ([x] + rest)[1..] == rest;
  }

  /** Filtering two present entries and two optional ones keeps them in
      that order. */
  lemma CompactFour(a: CssClass, b: CssClass, c: Option<CssClass>, d: Option<CssClass>)
    ensures Compact([Some(a), Some(b), c, d])
         == [a, b] + (if c.Some? then [c.value] else []) + (if d.Some? then [d.value] else [])
  {
    var s3: seq<Option<CssClass>> := [d];
    var s2 := [c] + s3;
    var s1 := [Some(b)] + s2;
    var cs := if c.Some? then [c.value] else [];
    var ds := if d.Some? then [d.value] else [];
    CompactCons(d, []);
    assert [d] + [] == s3;
    assert Compact(s3) == ds;
    CompactCons(c, s3);
    assert Compact(s2) == cs + ds;
    CompactCons(Some(b), s2);
    assert Compact(s1) == [b] + (cs + ds);
    CompactCons(Some(a), s1);
    assert [Some(a)] + s1 == [Some(a), Some(b), c, d];
    assert Compact([Some(a), Some(b), c, d]) == [a] + ([b] + (cs + ds));
    Regroup(a, b, cs, ds);
  }

  lemma Regroup(a: CssClass, b: CssClass, cs: seq<CssClass>, ds: seq<CssClass>)
    ensures [a] + ([b] + (cs + ds)) == [a, b] + cs + ds
  {
    assert [a, b] == [a] + [b];
  }

  /** The classes come in the source's order: base, sender, error, then
      products. */
  lemma ClassOrder(m: Message)
    ensures ClassList(m) == [MessageClass, if m.isUser then UserMessageClass else BotMessageClass]
                            + (if m.status == ERROR then [ErrorMessageClass] else [])
                            + (if HasProducts(m) then [HasProductsClass] else [])
  {
    var slots := ClassSlots(m);
    CompactFour(MessageClass, if m.isUser then UserMessageClass else BotMessageClass, slots[2], slots[3]);
  }

  /** A user message never shows the carousel, whatever it carries. */
  lemma UserMessagesShowNoCarousel(m: Message)
    requires m.isUser
    ensures !HasProducts(m) && HasProductsClass !in ClassList(m)
  {
  }

  /** A message whose text is only whitespace shows neither its text nor a
      retry button, even when its status is `error`. */
  lemma BlankTextHidesRetry(m: Message, hasOnRetry: bool)
    requires AllWhitespace(m.text)
    ensures !ShowText(m) && RetryButton(m, hasOnRetry).None?
  {
    BlankIffAllWhitespace(m.text);
  }

  /** Clicking the retry button of a user message, in a log whose ids are
      unique, removes that message and sends its text again under a fresh
      id. */
  lemma RetryButtonResendsItsMessage(s: UseChat.ChatState, i: int, newId: string, at: Instant)
    requires 0 <= i < |s.messages| && UniqueIds(s.messages)
    requires RetryButton(s.messages[i], true).Some? && s.messages[i].isUser
    requires newId != s.messages[i].id
    ensures var r := UseChat.Retry(s, RetryButton(s.messages[i], true).value, newId, at);
      && s.messages[i].id !in Ids(r.messages)
      && |r.messages| >= 1
      && r.messages[|r.messages| - 1] == UseChat.UserMessage(newId, s.messages[i].text, at)
  {
    var id := s.messages[i].id;
    var found := UseChat.FindById(s.messages, id);
    var j :| 0 <= j < |s.messages| && s.messages[j] == found.value;
    assert j == i;
    UseChat.RetryLaw(s, id, newId, at);
  }

  /** The retry button of a bot message in the `error` state does nothing
      when the log's ids are unique: only user messages are re-sent. */
  lemma BotRetryIsNoOp(s: UseChat.ChatState, i: int, newId: string, at: Instant)
    requires 0 <= i < |s.messages| && UniqueIds(s.messages)
    requires RetryButton(s.messages[i], true).Some? && !s.messages[i].isUser
    ensures UseChat.Retry(s, RetryButton(s.messages[i], true).value, newId, at) == s
  {
    var id := s.messages[i].id;
    var found := UseChat.FindById(s.messages, id);
    var j :| 0 <= j < |s.messages| && s.messages[j] == found.value;
    assert j == i;
  }
}
