/** Backend instances, model profiles and GPUs of the lifecycle service. */
module Fleet {
  import opened Wrappers
  import Tasks

  type Instant = Tasks.Instant

  datatype BackendState = Starting | Warming | Ready | Draining | Stopping | Stopped | Failed | External {
    predicate Active() { Starting? || Warming? || Ready? || Draining? || Stopping? }

    /** States whose memory still counts as taken. */
    predicate Reserved() { Active() || External? }
  }

  datatype Instance = Instance(
    id: string, model: string, backendModel: string, runtime: string, gpus: seq<string>, state: BackendState,
    reserved: int, port: Option<int>, active: int, dryRun: bool, ownedLoad: bool,
    context: Option<int>, parallel: Option<int>, loadName: string, idleTtl: Option<int>,
    createdAt: Instant, updatedAt: Instant, lastUsedAt: Option<Instant>, failure: Option<string>)
  {
    function Marked(state: BackendState, now: Instant): Instance { this.(state := state, updatedAt := now) }

    function MarkedFailed(reason: string, now: Instant): Instance {
      this.(state := Failed, failure := Some(reason), updatedAt := now)
    }

    /** `adjust_active_requests`. */
    function Adjusted(delta: int, now: Instant): Instance {
      this.(active := Max(0, active + delta), updatedAt := now,
            lastUsedAt := if delta > 0 then Some(now) else lastUsedAt)
    }
  }

  datatype Profile = Profile(
    name: string, backendModel: string, runtime: string, binary: string, portStart: int, estimatedVram: int,
    safetyMargin: int,
    minReplicas: int, maxReplicas: int, idleTtl: int, preferred: seq<string>,
    context: Option<int>, parallel: Option<int>, minDwell: int, bucketOnly: bool)
  {
    function Required(): int { estimatedVram + safetyMargin }
  }

  datatype Gpu = Gpu(id: string, index: string, free: int)

  function Max(a: int, b: int): int { if a > b then a else b }

  function Min(a: int, b: int): int { if a < b then a else b }
}
