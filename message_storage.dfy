/** The message store: a best-effort cache of the chat log under one
    localStorage key. The JSON text under the key is abstract: `Stored` is
    what `JSON.parse` makes of it, and `Encode` what `JSON.stringify` writes. */
module MessageStorage {
  import opened Wrappers
  import opened Text
  import Js
  import opened ChatTypes

  /** The single key the store owns. */
  const STORAGE_KEY: string := "chatbot_messages"

  /** A `timestamp` property as stored: absent or not a date text (both
      read back as Invalid Date), `null` (what `JSON.stringify` writes for an
      Invalid Date) or an ISO-8601 text, kept here as the instant it
      denotes. */
  datatype TimeField = Missing | NullTime | Iso(millis: int)

  /** One stored object. `None` stands for a property that is absent or holds
      a falsy non-string value; `isUser` keeps its JavaScript value because
      the loader tests its type. */
  datatype RawRecord = RawRecord(
    id: Option<string>,
    text: Option<string>,
    timestamp: TimeField,
    isUser: Js.Value,
    status: Option<string>,
    products: Option<seq<Product>>)

  /** An element of the stored array. A `null` element makes the loader throw;
      any other primitive reads as an object with every property absent. */
  datatype RawEntry = NullEntry | Entry(record: RawRecord)

  /** What the key holds: a JSON array, or text that is empty, not JSON or
      not an array (all of which the loader treats alike). */
  datatype Stored = Entries(entries: seq<RawEntry>) | Unreadable

  /** `new Date(x)` applied to the stored timestamp. */
  function DecodeTime(f: TimeField): Instant {
    match f
    case Missing => InvalidDate
    case NullTime => At(0)
    case Iso(ms) => At(ms)
  }

  /** How `JSON.stringify` writes a `Date`. */
  function EncodeTime(t: Instant): TimeField {
    match t
    case At(ms) => Iso(ms)
    case InvalidDate => NullTime
  }

  /** A valid instant survives saving and reloading; an Invalid Date comes
      back as the epoch, because it is written as `null`. */
  lemma TimeRoundTrip(t: Instant)
    ensures t.At? ==> DecodeTime(EncodeTime(t)) == t
    ensures t.InvalidDate? ==> DecodeTime(EncodeTime(t)) == At(0)
  {
  }

  /** `JSON.stringify` of one message: every property is written, `products`
      only when present. */
  function Encode(m: Message): RawRecord {
    RawRecord(Some(m.id), Some(m.text), EncodeTime(m.timestamp), Js.Bool(m.isUser), Some(m.status), m.products)
  }

  /** `JSON.stringify` of the whole log, in order. */
  function EncodeAll(msgs: seq<Message>): (r: seq<RawEntry>)
    ensures |r| == |msgs|
    ensures forall i :: 0 <= i < |msgs| ==> r[i] == Entry(Encode(msgs[i]))
  {
    seq(|msgs|, i requires 0 <= i < |msgs| => Entry(Encode(msgs[i])))
  }

  /** The id given to a stored entry without one: `legacy-${Date.now()}`. */
  function LegacyId(now: nat): (r: string)
    ensures r != ""
  {
    "legacy-" + NatToString(now)
  }

  /** The per-entry repair of the loader: the spread keeps `products`, the
      timestamp is reparsed and the four other properties get defaults. */
  function Repair(r: RawRecord, now: nat): Message {
    Message(
      if r.id.Some? && r.id.value != "" then r.id.value else LegacyId(now),
      if r.text.Some? then r.text.value else "",
      DecodeTime(r.timestamp),
      if r.isUser.Bool? then r.isUser.b else false,
      if r.status.Some? && r.status.value != "" then r.status.value else SENT,
      r.products)
  }

  /** The `map` over the parsed array: one message per entry, in order, or
      `None` when an entry is `null` and the property access throws. */
  function RepairAll(entries: seq<RawEntry>, now: nat): (r: Option<seq<Message>>)
    ensures r.Some? <==> forall i :: 0 <= i < |entries| ==> entries[i].Entry?
    ensures r.Some? ==> |r.value| == |entries|
    ensures r.Some? ==> forall i :: 0 <= i < |entries| ==> r.value[i] == Repair(entries[i].record, now)
  {
    if entries == [] then Some([])
    else if entries[0].NullEntry? then None
    else
      match RepairAll(entries[1..], now)
      case None => None
      case Some(rest) => Some([Repair(entries[0].record, now)] + rest)
  }

  /** `getMessages`: what the loader returns for the storage as it stands;
      every failure path yields the empty log. */
  function Decoded(available: bool, slot: Option<Stored>, now: nat): seq<Message> {
    if !available then []
    else match slot
      case None => []
      case Some(Unreadable) => []
      case Some(Entries(es)) =>
        match RepairAll(es, now)
        case None => []
        case Some(msgs) => msgs
  }

  /** A message the loader gives back unchanged: it has a non-empty id and
      status and a valid timestamp. */
  predicate WellFormed(m: Message) {
    m.id != "" && m.status != "" && m.timestamp.At?
  }

  /** Loading returns [] when storage is missing, the key is empty, the text
      is unreadable or an entry is `null`. */
  lemma LoadFailuresYieldEmpty(available: bool, slot: Option<Stored>, now: nat)
    requires || !available || slot.None? || slot == Some(Unreadable)
             || (slot.value.Entries? && exists i :: 0 <= i < |slot.value.entries| && slot.value.entries[i].NullEntry?)
    ensures Decoded(available, slot, now) == []
  {
  }

  /** Otherwise the loader yields exactly one message per stored entry, in
      the stored order, each the repair of its entry. */
  lemma LoadOnePerEntry(es: seq<RawEntry>, now: nat)
    requires forall i :: 0 <= i < |es| ==> es[i].Entry?
    ensures |Decoded(true, Some(Entries(es)), now)| == |es|
    ensures forall i :: 0 <= i < |es| ==> Decoded(true, Some(Entries(es)), now)[i] == Repair(es[i].record, now)
  {
  }

  /** The repair: a missing or empty id becomes a `legacy-` id, a missing text
      becomes "", a non-boolean `isUser` becomes false, a missing or empty
      status becomes "sent"; present values and `products` pass through. */
  lemma RepairDefaults(r: RawRecord, now: nat)
    ensures var m := Repair(r, now);
      && (r.id.None? || r.id.value == "" ==> m.id == LegacyId(now) && "legacy-" <= m.id)
      && (r.id.Some? && r.id.value != "" ==> m.id == r.id.value)
      && (r.text.None? ==> m.text == "")
      && (r.text.Some? ==> m.text == r.text.value)
      && (!r.isUser.Bool? ==> !m.isUser)
      && (r.isUser.Bool? ==> m.isUser == r.isUser.b)
      && (r.status.None? || r.status.value == "" ==> m.status == SENT)
      && (r.status.Some? && r.status.value != "" ==> m.status == r.status.value)
      && m.products == r.products
      && m.timestamp == DecodeTime(r.timestamp)
  {
  }

  /** Saving a well-formed log and loading it gives the same log back. */
  lemma RoundTrip(msgs: seq<Message>, now: nat)
    requires forall i :: 0 <= i < |msgs| ==> WellFormed(msgs[i])
    ensures Decoded(true, Some(Entries(EncodeAll(msgs))), now) == msgs
  {
    var es := EncodeAll(msgs);
    var r := RepairAll(es, now);
    assert r.Some?;
    forall i | 0 <= i < |msgs| ensures r.value[i] == msgs[i] {
      TimeRoundTrip(msgs[i].timestamp);
    }
  }

  /** Entries without an id that are loaded together get the same fallback
      id, since it is derived from the clock alone: the loader can produce
      duplicate ids. */
  lemma LegacyIdsCoincide(now: nat)
    ensures var blank := Entry(RawRecord(None, Some("hi"), Missing, Js.Undefined, None, None));
      var loaded := Decoded(true, Some(Entries([blank, blank])), now);
      |loaded| == 2 && loaded[0].id == loaded[1].id && !UniqueIds(loaded)
  {
  }

  /** The localStorage slot under `STORAGE_KEY`. `available` is false when
      `window.localStorage` is missing or its access throws. */
  class MessageStore {
    const available: bool
    var slot: Option<Stored>

    constructor (available: bool, slot: Option<Stored>)
      ensures this.available == available && this.slot == slot
    {
      this.available := available;
      this.slot := slot;
    }

    /** `saveMessages`: overwrites the key with the whole log. A missing
        storage or a failed write (quota exceeded) leaves the slot as it was
        and is not reported. */
    method SaveMessages(messages: seq<Message>, quotaExceeded: bool)
      modifies this
      ensures slot == if available && !quotaExceeded then Some(Entries(EncodeAll(messages))) else old(slot)
    {
      if !available {
        return;
      }
      if !quotaExceeded {
        slot := Some(Entries(EncodeAll(messages)));
      }
    }

    /** `getMessages`: never fails; every failure path yields []. */
    method GetMessages(now: nat) returns (messages: seq<Message>)
      ensures messages == Decoded(available, slot, now)
      ensures messages == [] || (available && slot.Some? && slot.value.Entries? && |messages| == |slot.value.entries|)
    {
      if !available {
        return [];
      }
      match slot {
        case None =>
          messages := [];
        case Some(Unreadable) =>
          messages := [];
        case Some(Entries(es)) =>
          var repaired := RepairAll(es, now);
          messages := if repaired.Some? then repaired.value else [];
      }
    }

    /** `clearMessages`: removes the key; nothing happens without storage. */
    method ClearMessages()
      modifies this
      ensures slot == if available then None else old(slot)
    {
      if available {
        slot := None;
      }
    }
  }
}
