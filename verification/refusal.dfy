/** The refusal policy of the gateway-to-authority hop: internal/evidence/refusal,
    the classification in channel.go, and what a hold records (worker.go, hold.go). */
module Refusal {
  import opened Base
  import opened Decimal

  const UNRECOGNISED := "unrecognised"
  const PENDING_REGISTRATION_CONFLICT := "pending_registration_conflict"
  const MAX_SAFE_INTEGER := 9007199254740991

  const BYTE_REASONS: set<string> := {"bad_authenticator", "binding_mismatch", "commissioning_digest_mismatch"}
  const RECEIVER_STATE_REASONS: set<string> := {"unrecognised_version", "unknown_key"}

  /** Each status's closed list of reasons. */
  function StatusReasons(status: int): set<string> {
    if status == 400 then {"malformed"}
    else if status == 401 then {"malformed", "unknown_key", "bad_authenticator", "stale", "replay"}
    else if status == 403 then {"not_authorized"}
    else if status == 409 then {"conflict", PENDING_REGISTRATION_CONFLICT}
    else if status == 422 then BYTE_REASONS + RECEIVER_STATE_REASONS
    else if status == 429 then {"rate_limited", "pending_registration_limit"}
    else if status == 503 then {"unavailable"}
    else {}
  }

  const LISTED_STATUSES: set<int> := {400, 401, 403, 409, 422, 429, 503}

  predicate Admits(status: int, reason: string) {
    if status == 0 then exists s | s in LISTED_STATUSES :: reason in StatusReasons(s)
    else reason in StatusReasons(status)
  }

  /** The reason recorded: the response's where its status admits it. */
  function RecordedReason(status: int, reason: string): string {
    if Admits(status, reason) then reason else UNRECOGNISED
  }

  datatype Class = Hold | Handoff | Backoff

  function Policy(status: int, reason: string): Class {
    if status == 401 || status == 403 then Handoff
    else if status == 400 then Hold
    else if status == 409 then if reason == PENDING_REGISTRATION_CONFLICT then Backoff else Hold
    else if status == 422 then if reason in RECEIVER_STATE_REASONS then Handoff else Hold
    else if status == 429 || status == 503 then Backoff
    else Hold
  }

  /** Whether a hold may record `reason` for `status`. */
  predicate Held(status: int, reason: string) {
    || reason == UNRECOGNISED
    || (if status == 0 then reason != "" && RecordedReason(0, reason) == reason
        else reason in StatusReasons(status) && Policy(status, reason) == Hold)
  }

  predicate HeldRefusalStatus(status: int) {
    status in {0, 400, 409, 422}
  }

  // ---------------------------------------------------------------------
  // The HTTP channel's classification
  // ---------------------------------------------------------------------

  /** A decoded response body; `digest` is "" where the body omits it. */
  datatype Wire = Wire(outcome: string, reason: string, digest: string, artifacts: nat)

  /** What a refusal asks of the lane: Retriable backs off, ReceiverState waits
      for a handoff, and neither holds. */
  datatype Refused = Refused(status: int, reason: string, retriable: bool, receiverState: bool, retryAfter: nat)

  /** Retry-After in whole seconds, as delay-seconds of section 10.2.3 of RFC
      9110: decimal digits, within 31 bits and positive. `value` is trimmed. */
  function RetryAfterSeconds(value: string): Option<nat> {
    if value == [] || exists c | c in value :: !IsDigit(c) then None
    else if Value(value) == 0 || Value(value) > 0x7fff_ffff then None
    else Some(Value(value))
  }

  /** A well-formed refusal's class, or None for an unrecognised outcome. */
  function RefusedResult(status: int, wire: Wire, digest: string, retryAfter: string): Option<Refused> {
    var recorded := RecordedReason(status, wire.reason);
    var bound := wire.digest == digest;
    var action := Policy(status, wire.reason);
    var result := Refused(status, recorded, action == Backoff, action == Handoff, 0);
    if status in {400, 403, 409, 422} then
      if wire.outcome != "refused" || !(bound || (status == 400 && wire.digest == "")) || wire.artifacts != 0 then None
      else Some(result)
    else if status == 401 then
      if wire.outcome != "refused" || wire.digest != "" || wire.artifacts != 0 then None else Some(result)
    else if status in {429, 503} then
      if wire.outcome != "pending" || (!bound && !(status == 503 && wire.digest == "")) || wire.artifacts != 0 then None
      else if status == 503 then Some(result)
      else
        var after := RetryAfterSeconds(retryAfter);
        if recorded in StatusReasons(429) && after.None? then None
        else Some(result.(retryAfter := if after.Some? then after.value else 0))
    else None
  }

  predicate Holds(r: Refused) {
    !r.retriable && !r.receiverState
  }

  /** A Retry-After is read exactly where it is a decimal number of seconds from one to
      the greatest of 31 bits; so one a server writes is read back. */
  lemma RetryAfterReads(value: string, n: int)
    ensures RetryAfterSeconds(value) == Some(n) <==>
              && 0 < n <= 2147483647
              && value != [] && (forall c | c in value :: '0' <= c <= '9') && Value(value) == n
    ensures 0 < n <= 2147483647 ==> RetryAfterSeconds(Format(n)) == Some(n)
  {
    if n > 0 { ValueOfDigits(n); }
    hide Digits, Value;
  }

  /** The reasons each status lists, written out. */
  predicate Listed(status: int, reason: string) {
    || (status == 400 && reason == "malformed")
    || (status == 401 && (reason == "malformed" || reason == "unknown_key" || reason == "bad_authenticator"
                          || reason == "stale" || reason == "replay"))
    || (status == 403 && reason == "not_authorized")
    || (status == 409 && (reason == "conflict" || reason == "pending_registration_conflict"))
    || (status == 422 && (reason == "bad_authenticator" || reason == "binding_mismatch"
                          || reason == "commissioning_digest_mismatch" || reason == "unrecognised_version"
                          || reason == "unknown_key"))
    || (status == 429 && (reason == "rate_limited" || reason == "pending_registration_limit"))
    || (status == 503 && reason == "unavailable")
  }

  /** What is recorded of a reason: itself where its status lists it, or, for a channel
      without statuses, where any does. */
  lemma RecordsListed(status: int, reason: string)
    ensures RecordedReason(status, reason) ==
            if (if status == 0 then exists s :: Listed(s, reason) else Listed(status, reason)) then reason
            else "unrecognised"
  {
    assert forall s :: Listed(s, reason) <==> reason in StatusReasons(s);
    assert forall s | s !in LISTED_STATUSES :: StatusReasons(s) == {};
    assert forall s :: "unrecognised" !in StatusReasons(s);
  }

  /** Which responses are well-formed refusals, by status. */
  lemma RefusalWellFormed(status: int, wire: Wire, digest: string, retryAfter: string)
    ensures RefusedResult(status, wire, digest, retryAfter).Some? <==>
              && wire.artifacts == 0
              && (|| (wire.outcome == "refused"
                      && (|| (status in {400, 403, 409, 422} && wire.digest == digest)
                          || (status in {400, 401} && wire.digest == "")))
                  || (wire.outcome == "pending"
                      && (|| (status in {429, 503} && wire.digest == digest)
                          || (status == 503 && wire.digest == ""))
                      && (status == 429 && wire.reason in {"rate_limited", "pending_registration_limit"} ==>
                            RetryAfterSeconds(retryAfter).Some?)))
  {
  }

  /** What a well-formed refusal asks of the lane, by its status and reason: which back
      off, which wait for a handoff, and that all others hold. The reason recorded is
      the response's where its status lists it. */
  lemma RefusalClass(status: int, wire: Wire, digest: string, retryAfter: string)
    requires RefusedResult(status, wire, digest, retryAfter).Some?
    ensures var r := RefusedResult(status, wire, digest, retryAfter).value;
            && r.status == status
            && (r.retriable <==>
                  status in {429, 503} || (status == 409 && wire.reason == "pending_registration_conflict"))
            && (r.receiverState <==>
                  status in {401, 403} || (status == 422 && wire.reason in {"unrecognised_version", "unknown_key"}))
            && (Holds(r) <==>
                  || status == 400
                  || (status == 409 && wire.reason != "pending_registration_conflict")
                  || (status == 422 && wire.reason !in {"unrecognised_version", "unknown_key"}))
            && r.reason == (if Listed(status, wire.reason) then wire.reason else "unrecognised")
            && r.retryAfter == (if status == 429 && RetryAfterSeconds(retryAfter).Some?
                                then RetryAfterSeconds(retryAfter).value else 0)
  {
    RecordsListed(status, wire.reason);
    hide Listed, RecordedReason, RetryAfterSeconds;
  }

  // ---------------------------------------------------------------------
  // The record of a hold
  // ---------------------------------------------------------------------

  /** What a hold records beside queue record `record`; the artifact's digest and
      type are the queued record's. */
  datatype HoldRecord<Id> = HoldRecord(v: int, record: Id, digest: Id, status: int, reason: string, firstHeldAt: int)

  function HoldFor<Id>(id: Id, status: int, reason: string, now: int): HoldRecord<Id> {
    var kept := if HeldRefusalStatus(status) then status else 0;
    HoldRecord(1, id, id, kept, RecordedReason(kept, reason), now)
  }

  predicate ValidHold<Id(==)>(h: HoldRecord<Id>, queued: Id) {
    && h.v == 1 && h.record == queued && h.digest == queued
    && Held(h.status, h.reason) && HeldRefusalStatus(h.status)
    && 0 < h.firstHeldAt <= MAX_SAFE_INTEGER
  }

  /** Which hold records validate beside a queued record: version one, naming it and its
      bytes, held at a positive safe time, for no status, 400, 409 or 422, and for a
      reason that status holds at, or an unrecognised one. */
  lemma ValidHoldExactly<Id>(h: HoldRecord<Id>, queued: Id)
    ensures ValidHold(h, queued) <==>
              && h.v == 1 && h.record == queued && h.digest == queued && 0 < h.firstHeldAt <= 9007199254740991
              && (|| (h.status in {0, 400, 409, 422} && h.reason == "unrecognised")
                  || (h.status == 0 && exists s :: Listed(s, h.reason))
                  || (h.status in {400, 409, 422} && Listed(h.status, h.reason)
                      && h.reason !in {"pending_registration_conflict", "unrecognised_version", "unknown_key"}))
  {
    RecordsListed(0, h.reason);
    RecordsListed(h.status, h.reason);
    assert forall s :: !Listed(s, "") && !Listed(s, "unrecognised");
    assert Listed(h.status, h.reason) <==> h.reason in StatusReasons(h.status);
  }

  /** Every refusal the HTTP channel classes as a hold yields a record that is
      valid when written and when reloaded, exactly while the clock reads a
      positive safe integer; and one of no other class is ever recorded as held. */
  lemma HoldRecordValidates<Id>(status: int, wire: Wire, digest: string, retryAfter: string, queued: Id, now: int)
    requires RefusedResult(status, wire, digest, retryAfter).Some?
    ensures var r := RefusedResult(status, wire, digest, retryAfter).value;
            && (Holds(r) ==> (ValidHold(HoldFor(queued, r.status, r.reason, now), queued) <==>
                0 < now <= MAX_SAFE_INTEGER))
            && (Holds(r) <==> status in {400, 409, 422} && Policy(status, wire.reason) == Hold)
            && (!Holds(r) && r.reason != UNRECOGNISED ==> !Held(r.status, r.reason))
  {
  }

  /** A channel that reports no status: whatever its reason, its hold validates
      exactly while the clock reads a positive safe integer. */
  lemma StatuslessHoldValidates<Id>(status: int, reason: string, queued: Id, now: int)
    requires HeldRefusalStatus(status) ==> status == 0
    ensures ValidHold(HoldFor(queued, status, reason, now), queued) <==> 0 < now <= MAX_SAFE_INTEGER
  {
    assert forall s | s in LISTED_STATUSES :: "" !in StatusReasons(s);
  }
}
