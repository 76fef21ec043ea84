/**
 The journal's capacity check: a length predictor written independently of the
 encoder.
 */
module Sizes {
  import opened Types

  const HEADER_BYTES: nat := 4 + 5 * 2 + 32 + 32 + 2 * 8 + 32
  const MAX_SNAPSHOT_BYTES: nat := 16 * 1024 * 1024
  const AUTH_PIN_BYTES: nat := 16 + 2 + 2 + 32 + 8
  const RUNTIME_AUTH_BYTES: nat := 32 + 16 + 32 + 32 + 16 + 2 + 2
  const CHANNEL_BYTES: nat := 16 + 16 + 32 + 32
  const BASELINE_BYTES: nat := 16 + 32 + 8 + 8 + 16 + 8

  function Flag(b: bool): nat { if b then 1 else 0 }

  function OperationLen(o: Operation): nat {
    16 + 32 + 8 + 1 + 1 + Flag(o.result.Some?) * 16 + 1 + Flag(o.generation.Some?) * 8
    + 1 + Flag(o.planDigest.Some?) * 32
  }

  function TenureLen(t: Tenure): nat {
    16 + 1 + 32 + 16 + 16 + 32 + 32 + 4 + |t.request.nonce| + 4 + |t.request.wire| + 1
    + (if t.response.Some? then 32 + 32 + 4 + |t.response.value.wire| else 0)
  }

  function AttemptLen(a: Attempt): nat {
    4 + |a.prepared.request.wire| + AUTH_PIN_BYTES + CHANNEL_BYTES + RUNTIME_AUTH_BYTES + BASELINE_BYTES + 1
    + (if a.observation.Some? then 4 + |a.observation.value.response.wire| + 32 + CHANNEL_BYTES else 0)
    + 1 + Flag(a.closure.Some?)
    + 1 + (if a.decision.Some? then 16 + 8 + 1 + 1 + Flag(a.decision.value.receipt.Some?) * 16 else 0)
  }

  function AttemptsLen(attempts: seq<Attempt>): nat {
    if attempts == [] then 0 else AttemptsLen(attempts[..|attempts| - 1]) + AttemptLen(attempts[|attempts| - 1])
  }

  function RolloutLen(r: Rollout): nat {
    16 + 32 + 32 + 16 + 32 + 4 + |r.intent.request.bytes| + AUTH_PIN_BYTES + 32 + 32 + 32
    + RUNTIME_AUTH_BYTES + 1 + 4
    + (if r.direct.Some? then 4 + |r.direct.value.wire| else 0)
    + AttemptsLen(r.attempts)
  }

  function OperationsLen(ops: seq<Operation>): nat {
    if ops == [] then 0 else OperationsLen(ops[..|ops| - 1]) + OperationLen(ops[|ops| - 1])
  }

  function TenuresLen(ts: seq<Tenure>): nat {
    if ts == [] then 0 else TenuresLen(ts[..|ts| - 1]) + TenureLen(ts[|ts| - 1])
  }

  function RolloutsLen(rs: seq<Rollout>): nat {
    if rs == [] then 0 else RolloutsLen(rs[..|rs| - 1]) + RolloutLen(rs[|rs| - 1])
  }

  function PlanLen(p: Option<Plan>): nat {
    1 + (if p.Some? then 16 + 16 + 8 + 16 + 4 + |p.value.content.bytes| + 32 + 32 + 32 + 16 + 32 else 0)
  }

  function BindingLen(b: Option<Binding>): nat {
    1 + (if b.Some?
         then 16 + 32 + 32 + 32 + 8 + 8 + 4 + |b.value.bootstrap.wire| + 32 + RUNTIME_AUTH_BYTES
         else 0)
  }

  function PayloadLen(s: State): nat {
    4 + 2 + 16 + 16 + 16 + 4 + |s.manifest.wire| + 32 + 8 + 8 + 4
    + |s.allocation.records| * (16 + 8 + 16 + 16 + 1)
    + PlanLen(s.plan)
    + 4 + OperationsLen(s.operations)
    + 4 + TenuresLen(s.tenures)
    + AUTH_PIN_BYTES + 8
    + BindingLen(s.binding)
    + 1 + (if s.rollout.Some? then RolloutLen(s.rollout.value) else 0)
    + 4 + RolloutsLen(s.history)
  }

  predicate SizeFits(s: State) { HEADER_BYTES + PayloadLen(s) <= MAX_SNAPSHOT_BYTES }
}
