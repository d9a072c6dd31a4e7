/**
 The vocabulary shared by both ends of the stdio protocol: request ids, the two
 kinds of route, and the few facts about a frame that routing depends on.
*/
module Wire {

  datatype Option<+T> = None | Some(value: T)

  /** The transport mints its own ids under a reserved prefix and numbers them with
      `handshakeGeneration`; every other string is a caller's id. */
  datatype RequestId = Caller(text: string) | Control(number: nat)

  datatype Kind = Unary | Stream

  /** What `write` needs to know of a request: its length on the wire with the LF,
      and whether `JSON.stringify` accepts it. */
  datatype Line = Line(bytes: nat, encodable: bool)

  /** What the handshake reads out of a response: whether `isNegotiatedHello` accepts
      the result, whether it advertises multiplexing, whether it passes as a legacy
      probe's answer, or which error code it carries. */
  datatype Reply =
    | Result(negotiated: bool, multiplexed: bool, compatible: bool)
    | Failure(code: FailureCode)

  datatype FailureCode = UnknownCommand | HelloRejected | OtherFailure

  datatype EventType = Item | AgentUpdated | Completed | ErrorEvent

  predicate IsTerminal(t: EventType) {
    t == Completed || t == ErrorEvent
  }

  const REQUEST_ID_MAX_LENGTH := 4096

  predicate IsControlCharacter(c: char) {
    c <= '\U{1f}' || c == '\U{7f}'
  }

  /** The characters `String.prototype.trim` strips. */
  predicate IsBlank(c: char) {
    || '\U{9}' <= c <= '\U{d}' || c == ' ' || c == '\U{a0}' || c == '\U{1680}'
    || '\U{2000}' <= c <= '\U{200a}' || c == '\U{2028}' || c == '\U{2029}'
    || c == '\U{202f}' || c == '\U{205f}' || c == '\U{3000}' || c == '\U{feff}'
  }

  /** `isValidBackendRequestId` for a caller's string. */
  predicate IsValidText(text: string) {
    && 0 < |text| <= REQUEST_ID_MAX_LENGTH
    && !IsBlank(text[0]) && !IsBlank(text[|text| - 1])
    && forall i :: 0 <= i < |text| ==> !IsControlCharacter(text[i])
  }

  predicate IsValidId(id: RequestId) {
    id.Control? || IsValidText(id.text)
  }

  function TrimStart(text: string): string {
    if text != "" && IsBlank(text[0]) then TrimStart(text[1..]) else text
  }

  function TrimEnd(text: string): string {
    if text != "" && IsBlank(text[|text| - 1]) then TrimEnd(text[..|text| - 1]) else text
  }

  lemma {:induction false} TrimmingShortens(text: string)
    ensures |TrimStart(text)| <= |text| && |TrimEnd(text)| <= |text|
    ensures text != "" && IsBlank(text[0]) ==> |TrimStart(text)| < |text|
    ensures text != "" && IsBlank(text[|text| - 1]) ==> |TrimEnd(text)| < |text|
    decreases |text|
  {
    if text != "" {
      TrimmingShortens(text[1..]);
      TrimmingShortens(text[..|text| - 1]);
    }
  }

  /** An id is valid if and only if it says something, is not too long, is what is left of it
      when it is trimmed, and has no control character. */
  lemma ValidTextIsTrimmed(text: string)
    ensures IsValidText(text) <==>
      && text != "" && |text| <= 4096 && TrimEnd(TrimStart(text)) == text
      && forall c :: c in text ==> !IsControlCharacter(c)
  {
    TrimmingShortens(text);
    TrimmingShortens(TrimStart(text));
    hide IsBlank, IsControlCharacter;
    assert forall i :: 0 <= i < |text| ==> text[i] in text;
  }
}
