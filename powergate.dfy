/**
 * The Powergate adapter: job statuses, credential provisioning, staging,
 * fetching, and pinning that treats "already pinned" as success.
 */
module Pinning {
  import opened Wrappers
  import opened Store

  // ---------------------------------------------------------------------
  // Job statuses

  datatype JobStatus = Unspecified | Queued | Executing | Failed | Canceled | Succeeded

  /** The numeric value of each status in the `JobStatus` enum. */
  function Code(s: JobStatus): (n: nat)
    ensures n <= 5
  {
    match s
    case Unspecified => 0
    case Queued => 1
    case Executing => 2
    case Failed => 3
    case Canceled => 4
    case Succeeded => 5
  }

  /** The status with numeric value `n`, if the enum has one. */
  function FromCode(n: int): (r: Option<JobStatus>)
    ensures r.Some? <==> 0 <= n <= 5
    ensures r.Some? ==> Code(r.value) == n
  {
    if n == 0 then Some(Unspecified)
    else if n == 1 then Some(Queued)
    else if n == 2 then Some(Executing)
    else if n == 3 then Some(Failed)
    else if n == 4 then Some(Canceled)
    else if n == 5 then Some(Succeeded)
    else None
  }

  lemma CodeRoundTrip(s: JobStatus)
    ensures FromCode(Code(s)) == Some(s)
  {
  }

  lemma CodeInjective(s: JobStatus, t: JobStatus)
    ensures Code(s) == Code(t) ==> s == t
  {
    CodeRoundTrip(s);
    CodeRoundTrip(t);
  }

  /** The statuses the job watcher reacts to. */
  predicate IsOutcome(s: JobStatus) {
    s == Canceled || s == Failed || s == Succeeded
  }

  lemma OutcomesAreHighCodes(s: JobStatus)
    ensures IsOutcome(s) <==> Code(s) >= 3
  {
  }

  // ---------------------------------------------------------------------
  // Substring search (`String.prototype.includes`)

  /** `sub` occurs in `s` starting at index `i`. */
  ghost predicate OccursAt(s: string, sub: string, i: nat) {
    i + |sub| <= |s| && s[i..i + |sub|] == sub
  }

  /** Whether `sub` occurs somewhere in `s`, tried position by position. */
  function Contains(s: string, sub: string): (r: bool)
    ensures sub == [] ==> r
    ensures r ==> |sub| <= |s|
    decreases |s|
  {
    if |sub| > |s| then false
    else if s[..|sub|] == sub then true
    else Contains(s[1..], sub)
  }

  /** An occurrence in the tail of `s` is an occurrence in `s` one position later. */
  lemma OccursInTail(s: string, sub: string, i: nat)
    requires |s| > 0
    ensures OccursAt(s[1..], sub, i) <==> OccursAt(s, sub, i + 1)
  {
  }

  lemma {:induction false} ContainsIff(s: string, sub: string)
    ensures Contains(s, sub) <==> exists i: nat :: OccursAt(s, sub, i)
    decreases |s|
  {
    if |sub| > |s| {
      forall i: nat ensures !OccursAt(s, sub, i) { }
    } else if s[..|sub|] == sub {
      assert OccursAt(s, sub, 0);
    } else {
      ContainsIff(s[1..], sub);
      if i: nat :| OccursAt(s, sub, i) {
        assert i != 0;
        OccursInTail(s, sub, i - 1);
      }
      if j: nat :| OccursAt(s[1..], sub, j) {
        OccursInTail(s, sub, j);
      }
    }
  }

  /** A string contains every string it has as an infix. */
  lemma ContainsInfix(prefix: string, sub: string, suffix: string)
    ensures Contains(prefix + sub + suffix, sub)
  {
    var s := prefix + sub + suffix;
    assert s[|prefix|..|prefix| + |sub|] == sub;
    assert OccursAt(s, sub, |prefix|);
    ContainsIff(s, sub);
  }

  // ---------------------------------------------------------------------
  // Pin error classification

  /** The backend's rejection text for content that is pinned already. */
  const ALREADY_PINNED := "cid already pinned, consider using override flag"

  /**
   * The outcome of `pin` given the backend's answer to `storageConfig.apply`:
   * success, an already-pinned rejection swallowed, or the rejection rethrown.
   */
  function ClassifyPin(a: ApplyResult): (r: Outcome<string>)
    ensures a.Applied? ==> r == Pass
    ensures a.Rejected? ==> (r == Pass <==> Contains(a.message, ALREADY_PINNED))
    ensures r.Fail? ==> a.Rejected? && r.error == a.message
  {
    match a
    case Applied(_) => Pass
    case Rejected(message) =>
      if Contains(message, ALREADY_PINNED) then Pass else Fail(message)
  }

  /** Any rejection whose message mentions the already-pinned text is swallowed. */
  lemma AlreadyPinnedIsSwallowed(prefix: string, suffix: string)
    ensures ClassifyPin(Rejected(prefix + ALREADY_PINNED + suffix)) == Pass
  {
    ContainsInfix(prefix, ALREADY_PINNED, suffix);
  }

  /** A rejection that does not mention the already-pinned text surfaces unchanged. */
  lemma OtherRejectionsPropagate(message: string)
    requires forall i: nat :: !OccursAt(message, ALREADY_PINNED, i)
    ensures ClassifyPin(Rejected(message)) == Fail(message)
  {
    ContainsIff(message, ALREADY_PINNED);
  }

  // ---------------------------------------------------------------------
  // Credentials

  /** JavaScript truthiness of an optional string: present and not empty. */
  predicate Truthy(t: Option<string>): (r: bool)
    ensures r <==> t != None && t != Some("")
  {
    t.Some? && t.value != ""
  }

  /** The host every instance connects to. */
  const HOST := "http://0.0.0.0:6002"

  /** The state of a `Pow` client object: its host and the tokens set on it. */
  datatype Pow = Pow(host: string, adminToken: Option<string>, authToken: Option<string>)

  /** `createPow({ host })`: a client with no tokens set. */
  function CreatePow(host: string): Pow {
    Pow(host, None, None)
  }

  /** `setAdminToken(t)` followed by `setToken(t)`. */
  function WithTokens(p: Pow, t: Option<string>): Pow {
    p.(adminToken := t, authToken := t)
  }

  /**
   * The token `build(tokenval)` hands to the new instance when user creation
   * answers `provisioned` (consulted only when `tokenval` is falsy).
   */
  function BuildToken(tokenval: Option<string>, provisioned: Provision): (r: Option<string>)
    ensures Truthy(tokenval) ==> r == tokenval
    ensures r == tokenval || (provisioned.Created? && r == provisioned.userToken)
    ensures !Truthy(tokenval) && provisioned.CreationFailed? ==> !Truthy(r)
    ensures !Truthy(tokenval) && provisioned.Created? ==> r == provisioned.userToken
  {
    if Truthy(tokenval) then tokenval
    else match provisioned
      case Created(userToken) => userToken
      case CreationFailed(_) => tokenval
  }

  /** The requests `build(tokenval)` sends: a user creation when no token is supplied. */
  function BuildRequests(tokenval: Option<string>): seq<Request> {
    if Truthy(tokenval) then [] else [UserCreation]
  }

  // ---------------------------------------------------------------------
  // The adapter

  class Powergate {
    const host: string
    /** The node reachable at `host`. */
    const backend: Backend
    var pow: Pow
    var token: Option<string>

    /**
     * The credential invariant: the client talks to `host` and carries the same
     * token as admin and as user; a token set on the client is the instance's
     * token, and a truthy instance token is always set on the client.
     */
    ghost predicate Valid()
      reads this
    {
      && pow.host == host
      && pow.adminToken == pow.authToken
      && (pow.authToken.Some? ==> pow.authToken == token)
      && (Truthy(token) ==> pow.authToken == token)
    }

    constructor (host: string, backend: Backend, pow: Pow, token: Option<string>)
      ensures this.host == host && this.backend == backend
      ensures this.pow == pow && this.token == token
    {
      this.host := host;
      this.backend := backend;
      this.pow := pow;
      this.token := token;
    }

    /**
     * `Powergate.build(tokenval)`: uses a supplied token, otherwise asks the
     * backend for a new user; a failed creation is swallowed.
     */
    static method Build(tokenval: Option<string>, backend: Backend, provisioned: Provision)
      returns (p: Powergate)
      modifies backend
      ensures fresh(p) && p.Valid()
      ensures p.host == HOST && p.backend == backend
      ensures p.token == BuildToken(tokenval, provisioned)
      ensures p.pow == if Truthy(tokenval) then WithTokens(CreatePow(HOST), tokenval)
                       else if provisioned.Created? then WithTokens(CreatePow(HOST), provisioned.userToken)
                       else CreatePow(HOST)
      ensures backend.requests == old(backend.requests) + BuildRequests(tokenval)
    {
      var pow := CreatePow(HOST);
      var t := tokenval;
      if Truthy(t) {
        pow := WithTokens(pow, t);
      } else {
        var created := backend.CreateUser(provisioned);
        match created
        case Created(userToken) =>
          t := userToken;
          pow := WithTokens(pow, userToken);
        case CreationFailed(_) =>
      }
      p := new Powergate(HOST, backend, pow, t);
    }

    /** `open()`: a new client for the same host, given the instance's token if truthy. */
    method Open()
      modifies this
      ensures token == old(token)
      ensures pow == if Truthy(token) then WithTokens(CreatePow(host), token) else CreatePow(host)
      ensures Valid()
    {
      pow := CreatePow(host);
      if Truthy(token) {
        pow := WithTokens(pow, token);
      }
    }

    method GetToken() returns (t: Option<string>)
      ensures t == token
    {
      t := token;
    }

    /** `close()` is not implemented and always throws. */
    method Close() returns (r: Outcome<string>)
      ensures r == Fail("Method not implemented.")
    {
      r := Fail("Method not implemented.");
    }

    /** `getAssetCid(buffer)`: the CID the backend reports for staging `buffer`. */
    method GetAssetCid(buffer: Bytes) returns (r: Result<Cid, string>)
      modifies backend
      ensures r == backend.stage(buffer)
      ensures backend.requests == old(backend.requests) + [Staging(buffer)]
    {
      r := backend.Stage(buffer);
    }

    /** `getGeoDIDDocument(cid)`: the bytes the backend returns for `cid`. */
    method GetGeoDIDDocument(cid: Cid) returns (r: Result<Bytes, string>)
      modifies backend
      ensures r == backend.get(cid)
      ensures backend.requests == old(backend.requests) + [Fetching(cid)]
    {
      r := backend.Get(cid);
    }

    /** `pin(cid)`: apply the storage config; swallow only the already-pinned rejection. */
    method Pin(cid: Cid) returns (r: Outcome<string>)
      modifies backend
      ensures r == ClassifyPin(backend.apply(cid))
      ensures backend.requests == old(backend.requests) + [Applying(cid)]
    {
      var applied := backend.Apply(cid);
      match applied
      case Applied(_) =>
        r := Pass;
      case Rejected(message) =>
        if Contains(message, ALREADY_PINNED) {
          r := Pass;
        } else {
          r := Fail(message);
        }
    }
  }
}
