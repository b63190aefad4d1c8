/**
 Execution limits: the runner's check with overflow-checked machine arithmetic
 (crates/kodo/src/protocol.rs) and the control plane's with unbounded integers
 (lib/kodo/runner_protocol.ex).
 */
module Limits {
  import opened Prelude

  const LIMITS_VERSION: int := 1
  const MAX_CONNECTED_PAYLOAD_BYTES: nat := 4 * 1024 * 1024 - 4 * 1024
  const JSON_ESCAPE_EXPANSION: nat := 6
  const RESPONSE_ENVELOPE_BYTES: nat := 4 * 1024
  const RESULT_METADATA_BYTES: nat := 512
  const MAX_LIMIT_VALUE: nat := 4_294_967_295
  const MAX_BLOCKING_TOOLS: nat := 1024
  const U32_SIZE: nat := 0x1_0000_0000

  datatype ExecutionLimits = ExecutionLimits(
    version: int, maxOutputBytes: int, maxResults: int, maxPatchInputBytes: int, maxFileInputBytes: int,
    maxBlockingTools: int, maxRetainedProcesses: int, maxProcessOutputChunks: int, maxCachedRequests: int,
    maxCachedResponseBytes: int)

  function Quotas(l: ExecutionLimits): seq<int>
  {
    [l.maxOutputBytes, l.maxResults, l.maxPatchInputBytes, l.maxFileInputBytes, l.maxBlockingTools,
     l.maxRetainedProcesses, l.maxProcessOutputChunks, l.maxCachedRequests, l.maxCachedResponseBytes]
  }

  datatype LimitsError =
    | UnsupportedVersion | ZeroQuota | QuotaTooLarge | TooManyBlockingTools | Unaddressable
    | ResponseExceedsTransport | CacheTooSmall | PatchExceedsTransport

  // ---- The runner ----

  /** `checked_mul` and `checked_add` on a machine word of `size` values. */
  function CheckedMul(a: Option<nat>, b: nat, size: nat): Option<nat>
  {
    if a.Some? && a.value * b < size then Some(a.value * b) else None
  }

  function CheckedAdd(a: Option<nat>, b: Option<nat>, size: nat): Option<nat>
  {
    if a.Some? && b.Some? && a.value + b.value < size then Some(a.value + b.value) else None
  }

  /** What the wire format can decode into unsigned machine words. */
  predicate Representable(l: ExecutionLimits, size: nat)
  {
    && 0 <= l.version < 0x1_0000
    && forall i :: 0 <= i < |Quotas(l)| ==> 0 <= Quotas(l)[i] < size
  }

  function MaximumEncodedResponse(l: ExecutionLimits, size: nat): (r: Option<nat>)
    requires Representable(l, size)
  {
    assert 0 <= Quotas(l)[0] && 0 <= Quotas(l)[1] && 0 <= Quotas(l)[6];
    var entries := CheckedAdd(Some(l.maxResults), Some(l.maxProcessOutputChunks), size);
    var bytes := CheckedMul(Some(l.maxOutputBytes), JSON_ESCAPE_EXPANSION, size);
    var metadata := CheckedMul(entries, RESULT_METADATA_BYTES, size);
    CheckedAdd(CheckedAdd(bytes, metadata, size), Some(RESPONSE_ENVELOPE_BYTES), size)
  }

  function Validate(l: ExecutionLimits, size: nat): (r: Result<(), LimitsError>)
    requires Representable(l, size)
  {
    assert 0 <= Quotas(l)[2];
    var response := MaximumEncodedResponse(l, size);
    var patch := CheckedAdd(CheckedMul(Some(l.maxPatchInputBytes), JSON_ESCAPE_EXPANSION, size),
                            Some(RESPONSE_ENVELOPE_BYTES), size);
    if l.version != LIMITS_VERSION then Err(UnsupportedVersion)
    else if 0 in Quotas(l) then Err(ZeroQuota)
    else if exists i :: 0 <= i < |Quotas(l)| && Quotas(l)[i] > MAX_LIMIT_VALUE then Err(QuotaTooLarge)
    else if l.maxBlockingTools > MAX_BLOCKING_TOOLS then Err(TooManyBlockingTools)
    else if response.None? then Err(Unaddressable)
    else if response.value > MAX_CONNECTED_PAYLOAD_BYTES then Err(ResponseExceedsTransport)
    else if l.maxCachedResponseBytes < response.value then Err(CacheTooSmall)
    else if patch.None? then Err(Unaddressable)
    else if patch.value > MAX_CONNECTED_PAYLOAD_BYTES then Err(PatchExceedsTransport)
    else Ok(())
  }

  predicate RunnerAccepts(l: ExecutionLimits, size: nat) { Representable(l, size) && Validate(l, size).Ok? }

  // ---- The control plane ----

  function ResponseBudget(l: ExecutionLimits): int
  {
    l.maxOutputBytes * JSON_ESCAPE_EXPANSION
    + (l.maxResults + l.maxProcessOutputChunks) * RESULT_METADATA_BYTES
    + RESPONSE_ENVELOPE_BYTES
  }

  predicate ControlPlaneAccepts(l: ExecutionLimits)
  {
    && l.version == LIMITS_VERSION
    && (forall i :: 0 <= i < |Quotas(l)| ==> 0 < Quotas(l)[i] <= MAX_LIMIT_VALUE)
    && l.maxBlockingTools <= MAX_BLOCKING_TOOLS
    && ResponseBudget(l) <= MAX_CONNECTED_PAYLOAD_BYTES
    && ResponseBudget(l) <= l.maxCachedResponseBytes
    && l.maxPatchInputBytes * JSON_ESCAPE_EXPANSION + RESPONSE_ENVELOPE_BYTES <= MAX_CONNECTED_PAYLOAD_BYTES
  }

  lemma QuotaFields(l: ExecutionLimits)
    ensures |Quotas(l)| == 9
    ensures Quotas(l)[0] == l.maxOutputBytes && Quotas(l)[1] == l.maxResults && Quotas(l)[2] == l.maxPatchInputBytes
    ensures Quotas(l)[4] == l.maxBlockingTools && Quotas(l)[6] == l.maxProcessOutputChunks
    ensures Quotas(l)[7] == l.maxCachedRequests && Quotas(l)[8] == l.maxCachedResponseBytes
  {
  }

  /**
   The two languages agree on every record, for 32-bit and 64-bit words (and any word that holds a
   32-bit value): an overflow can only happen where the unbounded check refuses too.
   */
  lemma LanguagesAgree(l: ExecutionLimits, size: nat)
    requires size >= U32_SIZE
    ensures RunnerAccepts(l, size) <==> ControlPlaneAccepts(l)
    ensures RunnerAccepts(l, size) ==> MaximumEncodedResponse(l, size) == Some(ResponseBudget(l))
  {
    QuotaFields(l);
    hide Quotas;
    if ControlPlaneAccepts(l) {
      assert Representable(l, size);
      assert 0 !in Quotas(l);
      assert MaximumEncodedResponse(l, size) == Some(ResponseBudget(l));
    }
    if RunnerAccepts(l, size) {
      assert MaximumEncodedResponse(l, size) == Some(ResponseBudget(l));
      forall i | 0 <= i < |Quotas(l)|
        ensures 0 < Quotas(l)[i] <= MAX_LIMIT_VALUE
      {
        assert Quotas(l)[i] in Quotas(l);
      }
    }
  }
}
