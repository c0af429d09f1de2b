/**
 * The content-addressed storage backend (a Powergate node) as seen by the client.
 * Every network call becomes an oracle: a deterministic function whose result is
 * given, together with a log of the requests the client has sent, so that a
 * contract can say which calls an operation made and in which order.
 */
module Store {
  import opened Wrappers

  newtype byte = x: int | 0 <= x < 256

  /** A `Uint8Array`. */
  type Bytes = seq<byte>

  /** A content identifier, kept as the string the backend reports. */
  type Cid = string

  /** What `pow.admin.users.create()` produced: a user whose token may be undefined, or an error. */
  datatype Provision = Created(userToken: Option<string>) | CreationFailed(message: string)

  /** What `pow.storageConfig.apply(cid)` produced: a job id, or an error with its message. */
  datatype ApplyResult = Applied(jobId: string) | Rejected(message: string)

  /** One request sent to the backend. */
  datatype Request =
    | UserCreation
    | Staging(data: Bytes)
    | Fetching(cid: Cid)
    | Applying(cid: Cid)

  class Backend {
    /** `data.stage`: same bytes, same answer. */
    const stage: Bytes -> Result<Cid, string>
    /** `data.get`. */
    const get: Cid -> Result<Bytes, string>
    /** `storageConfig.apply`. */
    const apply: Cid -> ApplyResult
    /** Every request received so far, oldest first. */
    var requests: seq<Request>

    constructor (stage: Bytes -> Result<Cid, string>, get: Cid -> Result<Bytes, string>,
                 apply: Cid -> ApplyResult)
      ensures this.stage == stage && this.get == get && this.apply == apply
      ensures requests == []
    {
      this.stage := stage;
      this.get := get;
      this.apply := apply;
      requests := [];
    }

    /** Creates a user; `outcome` is what the backend answers. */
    method CreateUser(outcome: Provision) returns (r: Provision)
      modifies this
      ensures r == outcome
      ensures requests == old(requests) + [UserCreation]
    {
      requests := requests + [UserCreation];
      r := outcome;
    }

    method Stage(data: Bytes) returns (r: Result<Cid, string>)
      modifies this
      ensures r == stage(data)
      ensures requests == old(requests) + [Staging(data)]
    {
      requests := requests + [Staging(data)];
      r := stage(data);
    }

    method Get(cid: Cid) returns (r: Result<Bytes, string>)
      modifies this
      ensures r == get(cid)
      ensures requests == old(requests) + [Fetching(cid)]
    {
      requests := requests + [Fetching(cid)];
      r := get(cid);
    }

    method Apply(cid: Cid) returns (r: ApplyResult)
      modifies this
      ensures r == apply(cid)
      ensures requests == old(requests) + [Applying(cid)]
    {
      requests := requests + [Applying(cid)];
      r := apply(cid);
    }
  }
}
