/**
 * The `X-Idempotency-Key` header check that guards product creation: the header
 * must be present and non-empty, at most 255 characters, and drawn from
 * `[A-Za-z0-9_-]`. An accepted key is attached to the request and the next
 * handler runs.
 */
module Idempotency {
  import opened Wrappers

  const HeaderRequiredMessage := "X-Idempotency-Key header is required"
  const EmptyMessage := "Idempotency key cannot be empty"
  const TooLongMessage := "Idempotency key cannot exceed 255 characters"
  const PatternMessage := "Idempotency key can only contain alphanumeric characters, hyphens, and underscores"

  const MaxKeyLength := 255

  /** `[a-zA-Z0-9_-]` */
  predicate IsKeyChar(c: char) {
    ('a' <= c <= 'z') || ('A' <= c <= 'Z') || ('0' <= c <= '9') || c == '_' || c == '-'
  }

  /** The shape of an acceptable key, as one statement. */
  predicate IsWellFormedKey(key: string) {
    1 <= |key| <= MaxKeyLength && forall i :: 0 <= i < |key| ==> IsKeyChar(key[i])
  }

  /**
   * The key schema: a required string whose rules are tried in declaration
   * order (`min(1)`, `max(255)`, `pattern`), the first failing rule supplying the
   * message.
   */
  function KeySchema(key: string): (r: Result<string, string>)
    ensures r.Ok? <==> IsWellFormedKey(key)
    ensures r.Ok? ==> r.value == key
  {
    if |key| == 0 then Err(EmptyMessage)
    else if |key| > MaxKeyLength then Err(TooLongMessage)
    else if exists i :: 0 <= i < |key| && !IsKeyChar(key[i]) then Err(PatternMessage)
    else Ok(key)
  }

  /**
   * `validateIdempotencyKey` as a value: the header (absent when not sent) either
   * yields the key to attach or the BAD_REQUEST error the middleware throws.
   */
  function CheckHeader(header: Option<string>): (r: Result<string, ApiError>)
    ensures header == None || header == Some("") ==> r == Err(ApiError(BadRequest, HeaderRequiredMessage))
    ensures r.Ok? <==> header.Some? && IsWellFormedKey(header.value)
    ensures r.Ok? ==> r.value == header.value
    ensures r.Err? ==> r.error.status == BadRequest
  {
    if header.None? || header.value == "" then Err(ApiError(BadRequest, HeaderRequiredMessage))
    else match KeySchema(header.value)
      case Err(message) => Err(ApiError(BadRequest, message))
      case Ok(_) => Ok(header.value)
  }

  /** The empty-key message of the schema never reaches the caller: the presence check runs first. */
  lemma {:induction false} EmptyKeyReportsMissingHeader()
    ensures CheckHeader(Some("")).Err? && CheckHeader(Some("")).error.message != EmptyMessage
  {
    assert |EmptyMessage| != |HeaderRequiredMessage|;
  }

  /** A key longer than 255 characters fails on its length, whatever characters it holds. */
  lemma {:induction false} TooLongKeyMessage(key: string)
    requires |key| > MaxKeyLength
    ensures CheckHeader(Some(key)) == Err(ApiError(BadRequest, TooLongMessage))
  {
  }

  /** A key of acceptable length with a character outside `[A-Za-z0-9_-]` fails on the pattern. */
  lemma {:induction false} BadCharacterKeyMessage(key: string, i: nat)
    requires 1 <= |key| <= MaxKeyLength
    requires i < |key| && !IsKeyChar(key[i])
    ensures CheckHeader(Some(key)) == Err(ApiError(BadRequest, PatternMessage))
  {
  }

  /** The three failure messages a sent header can produce are pairwise distinct. */
  lemma {:induction false} FailureMessagesDistinct()
    ensures HeaderRequiredMessage != TooLongMessage
    ensures HeaderRequiredMessage != PatternMessage
    ensures TooLongMessage != PatternMessage
  {
    assert |HeaderRequiredMessage| != |TooLongMessage|;
    assert |HeaderRequiredMessage| != |PatternMessage|;
    assert |TooLongMessage| != |PatternMessage|;
  }

  /** The request as the middleware sees it: the attached key and how often `next` ran. */
  class Request {
    var idempotencyKey: Option<string>
    var nextCalls: nat

    constructor ()
      ensures idempotencyKey == None && nextCalls == 0
    {
      idempotencyKey := None;
      nextCalls := 0;
    }

    /**
     * `validateIdempotencyKey`: on acceptance the key is attached unchanged and
     * `next` runs exactly once; on rejection the request is left as it was.
     */
    method ValidateIdempotencyKey(header: Option<string>) returns (r: Result<string, ApiError>)
      modifies this
      ensures r == CheckHeader(header)
      ensures r.Ok? ==> idempotencyKey == Some(r.value) && nextCalls == old(nextCalls) + 1
      ensures r.Err? ==> idempotencyKey == old(idempotencyKey) && nextCalls == old(nextCalls)
    {
      r := CheckHeader(header);
      if r.Ok? {
        idempotencyKey := Some(r.value);
        nextCalls := nextCalls + 1;
      }
    }
  }
}
