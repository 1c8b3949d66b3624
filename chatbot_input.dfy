/** The message input: a text field bounded by `maxLength`, a send button
    and Enter-to-send. The field's content is the component's `message`
    state; `isLoading` comes from the session and is a parameter. */
module ChatbotInput {
  import opened Wrappers
  import opened Text

  const DEFAULT_MAX_LENGTH: nat := 500

  /** `value.slice(0, maxLength)` for a non-negative `maxLength`: the longest
      prefix of the value that fits. */
  function Truncate(value: string, maxLength: nat): (r: string)
    ensures |r| <= maxLength
    ensures r <= value
    ensures |value| <= maxLength ==> r == value
    ensures |value| > maxLength ==> |r| == maxLength
  {
    if |value| <= maxLength then value else value[..maxLength]
  }

  /** The guard of `handleSend`. */
  predicate CanSend(message: string, isLoading: bool) {
    !IsBlank(message) && !isLoading
  }

  /** `disabled` of the send button. */
  predicate SendDisabled(message: string, isLoading: bool) {
    IsBlank(message) || isLoading
  }

  /** `disabled` of the text field. */
  predicate InputDisabled(isLoading: bool) {
    isLoading
  }

  /** The character counter is rendered when `maxLength` is truthy and the
      field is not empty. */
  predicate ShowCharCount(message: string, maxLength: nat) {
    maxLength != 0 && |message| > 0
  }

  /** The key test of `handleKeyDown`. */
  predicate TriggersSend(key: string, shiftKey: bool) {
    key == "Enter" && !shiftKey
  }

  /** The send button is enabled exactly when a click would send: the button
      and the handler's guard agree. */
  lemma ButtonMatchesGuard(message: string, isLoading: bool)
    ensures !SendDisabled(message, isLoading) <==> CanSend(message, isLoading)
    ensures isLoading ==> SendDisabled(message, isLoading) && InputDisabled(isLoading)
    ensures AllWhitespace(message) ==> SendDisabled(message, isLoading)
  {
    BlankIffAllWhitespace(message);
  }

  /** The counter shows once something is typed, unless `maxLength` is 0;
      a typed text never exceeds the limit the counter displays. */
  lemma CharCountShown(value: string, maxLength: nat)
    ensures ShowCharCount(Truncate(value, maxLength), maxLength) <==> maxLength != 0 && value != ""
    ensures |Truncate(value, maxLength)| <= maxLength
  {
  }

  /** The text handed to the session is already trimmed and not blank, so
      the session's own blank test lets it through unchanged. */
  lemma SentTextPassesSessionGuard(message: string)
    requires !IsBlank(message)
    ensures !IsBlank(Trim(message))
    ensures Trim(Trim(message)) == Trim(message)
  {
    TrimIdempotent(message);
  }

  /** One mounted input. */
  class InputBox {
    var message: string
    const maxLength: nat

    /** The field never holds more than `maxLength` characters. */
    ghost predicate Valid()
      reads this
    {
      |message| <= maxLength
    }

    /** Mounting: an empty field; `maxLength` defaults to 500. */
    constructor (maxLength: Option<nat>)
      ensures Valid()
      ensures message == ""
      ensures this.maxLength == if maxLength.Some? then maxLength.value else DEFAULT_MAX_LENGTH
    {
      message := "";
      this.maxLength := if maxLength.Some? then maxLength.value else DEFAULT_MAX_LENGTH;
    }

    /** `onChange`: the field keeps the typed value cut to `maxLength`. */
    method OnChange(value: string)
      modifies this
      ensures Valid()
      ensures message == Truncate(value, maxLength)
    {
      message := Truncate(value, maxLength);
    }

    /** `handleSend`: when the guard holds the field is cleared and the
        trimmed text is passed to `onSendMessage` once (`sent`); otherwise
        nothing happens. */
    method HandleSend(isLoading: bool) returns (sent: Option<string>)
      requires Valid()
      modifies this
      ensures Valid()
      ensures sent.Some? <==> CanSend(old(message), isLoading)
      ensures sent.Some? ==> sent.value == Trim(old(message)) && message == ""
      ensures sent.None? ==> message == old(message)
    {
      if !IsBlank(message) && !isLoading {
        var trimmed := Trim(message);
        message := "";
        return Some(trimmed);
      }
      return None;
    }

    /** `handleKeyDown`: Enter without Shift sends as the button would; any
        other key leaves everything as it is. */
    method HandleKeyDown(key: string, shiftKey: bool, isLoading: bool) returns (sent: Option<string>)
      requires Valid()
      modifies this
      ensures Valid()
      ensures !TriggersSend(key, shiftKey) ==> sent.None? && message == old(message)
      ensures TriggersSend(key, shiftKey) ==> (sent.Some? <==> CanSend(old(message), isLoading))
      ensures sent.Some? ==> sent.value == Trim(old(message)) && message == ""
      ensures sent.None? ==> message == old(message)
    {
      if key == "Enter" && !shiftKey {
        sent := HandleSend(isLoading);
      } else {
        sent := None;
      }
    }
  }
}
