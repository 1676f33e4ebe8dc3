/**
  The object-storage service as the remediation routine sees it: a listing of
  bucket names, each bucket's server-side-encryption configuration, and the
  answers the service gives to put-encryption requests. The network calls of
  the real client are replaced by this in-memory stand-in, which also keeps a
  log of the requests it received so that callers can state what was asked.
*/
module S3Service {

  /** Why fetching a bucket's encryption configuration failed. */
  datatype FetchFailure =
    | ConfigurationNotFound        // the bucket has no encryption configuration
    | AccessDenied
    | OtherFailure(code: string)   // any other fault, including a malformed response

  /** The answer to get-bucket-encryption: the algorithm of each rule, or a failure.
      A rule is modelled by its SSE algorithm alone. */
  datatype FetchResult = Rules(algorithms: seq<string>) | FetchError(failure: FetchFailure)

  /** What the service holds for the region. `configuration` maps a bucket to
      the algorithms of its encryption rules; a bucket without an entry has no
      configuration. `getFaults` names the buckets whose get-encryption call
      fails for a reason that has nothing to do with their configuration
      (a denied permission, a transient fault); a write does not cure these. */
  datatype EncryptionState = EncryptionState(configuration: map<string, seq<string>>,
                                             getFaults: map<string, FetchFailure>)

  /** A put-bucket-encryption request: the bucket and the algorithms of its new rules. */
  datatype PutRequest = PutRequest(bucket: string, algorithms: seq<string>)

  /** Response metadata of a successful write, treated as an opaque token. */
  datatype ResponseMetadata = ResponseMetadata(requestId: string, httpStatusCode: int)

  /** A client error raised by the service when it rejects a request. */
  datatype ClientError = ClientError(code: string, message: string)

  datatype PutOutcome = PutOk(metadata: ResponseMetadata) | PutFailed(error: ClientError)

  /** What get-bucket-encryption answers for `bucket` in `state`. */
  function Fetch(state: EncryptionState, bucket: string): (r: FetchResult)
  {
    if bucket in state.getFaults then FetchError(state.getFaults[bucket])
    else if bucket in state.configuration then Rules(state.configuration[bucket])
    else FetchError(ConfigurationNotFound)
  }

  /** The encryption state after the service answered `req` with `outcome`:
      an accepted write replaces that bucket's configuration, which a later
      get returns unless that get fails for an unrelated fault; a rejected
      write changes nothing, and no other bucket is touched. */
  function AfterPut(state: EncryptionState, req: PutRequest, outcome: PutOutcome): (state': EncryptionState)
    ensures state'.getFaults == state.getFaults
    ensures outcome.PutOk? && req.bucket !in state.getFaults ==> Fetch(state', req.bucket) == Rules(req.algorithms)
    ensures req.bucket in state.getFaults ==> Fetch(state', req.bucket) == Fetch(state, req.bucket)
    ensures outcome.PutFailed? ==> state' == state
    ensures forall b :: b != req.bucket ==> Fetch(state', b) == Fetch(state, b)
  {
    if outcome.PutOk? then state.(configuration := state.configuration[req.bucket := req.algorithms])
    else state
  }

  /** A client connected to one region of the service. */
  class S3Client {
    /** The buckets list-buckets returns, in listing order. */
    const bucketList: seq<string>
    /** How the service answers each put request. */
    const respond: PutRequest -> PutOutcome
    /** The encryption configuration the service currently holds. */
    var encryption: EncryptionState
    /** Buckets whose configuration was requested, in request order. */
    var fetchLog: seq<string>
    /** Put requests received, in request order. */
    var putLog: seq<PutRequest>

    /** Builds a stand-in client; callers of the routine reach clients through
        a `connect` function, so this only documents what a client holds when
        it is first opened. */
    constructor (buckets: seq<string>, state: EncryptionState, respond: PutRequest -> PutOutcome)
      ensures bucketList == buckets && this.respond == respond && encryption == state
      ensures fetchLog == [] && putLog == []
    {
      bucketList := buckets;
      this.respond := respond;
      encryption := state;
      fetchLog := [];
      putLog := [];
    }

    method ListBuckets() returns (names: seq<string>)
      ensures names == bucketList
    {
      names := bucketList;
    }

    method GetBucketEncryption(bucket: string) returns (r: FetchResult)
      modifies this`fetchLog
      ensures r == Fetch(encryption, bucket)
      ensures fetchLog == old(fetchLog) + [bucket]
    {
      r := Fetch(encryption, bucket);
      fetchLog := fetchLog + [bucket];
    }

    method PutBucketEncryption(req: PutRequest) returns (outcome: PutOutcome)
      modifies this`encryption, this`putLog
      ensures outcome == respond(req)
      ensures encryption == AfterPut(old(encryption), req, outcome)
      ensures putLog == old(putLog) + [req]
    {
      outcome := respond(req);
      encryption := AfterPut(encryption, req, outcome);
      putLog := putLog + [req];
    }
  }
}
