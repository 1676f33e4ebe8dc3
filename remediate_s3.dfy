/**
  The S3 bucket remediation routine: resolve the invocation's flag and region,
  then scan every bucket of the region in listing order, classify it as
  encrypted or not, and, when remediation is enabled, give the first
  unencrypted bucket a default AES256 encryption rule and stop there.
*/
module RemediateS3 {
  import opened Wrappers
  import opened S3Service

  /** A value of the invocation event (a JSON document). */
  datatype Json =
    | JNull
    | JBool(b: bool)
    | JNumber(n: int)
    | JString(s: string)
    | JArray(items: seq<Json>)
    | JObject(fields: map<string, Json>)

  /** What the handler derives from an event. */
  datatype Request = Request(encrypt: bool, region: Json)

  /** The only algorithm the routine ever writes. */
  const DefaultAlgorithm: string := "AES256"

  /** The value the scan returns: nothing, a successful write's metadata, or
      the client error a rejected write raised. */
  datatype Outcome = NoOutcome | Remediated(metadata: ResponseMetadata) | Raised(error: ClientError)

  /** Flag and region resolution: remediation is enabled exactly when the event
      has an `Enable` key, whatever it holds, and the region is the event's
      `Region` when present, else the ambient default region. */
  function ResolveRequest(event: map<string, Json>, defaultRegion: string): (req: Request)
    ensures req.encrypt <==> "Enable" in event
    ensures "Region" in event ==> req.region == event["Region"]
    ensures "Region" !in event ==> req.region == JString(defaultRegion)
  {
    Request("Enable" in event, if "Region" in event then event["Region"] else JString(defaultRegion))
  }

  // ---------------------------------------------------------------------------
  // Classification

  /** A rule set protects the bucket when some rule names a non-empty algorithm. */
  predicate IsEncrypted(rules: seq<string>)
  {
    exists i | 0 <= i < |rules| :: rules[i] != ""
  }

  /** A failed fetch, of whatever kind, stands for the empty rule set. */
  function RulesOrEmpty(f: FetchResult): (rules: seq<string>)
  {
    match f
    case Rules(algorithms) => algorithms
    case FetchError(_) => []
  }

  predicate BucketEncrypted(state: EncryptionState, bucket: string)
  {
    IsEncrypted(RulesOrEmpty(Fetch(state, bucket)))
  }

  /** The inner loop over the rules, which raises the flag `isEnabled` on
      every rule with an algorithm and never lowers it. */
  method RulesEncrypted(rules: seq<string>) returns (isEnabled: bool)
    ensures isEnabled <==> IsEncrypted(rules)
  {
    isEnabled := false;
    for i := 0 to |rules|
      invariant isEnabled <==> exists j | 0 <= j < i :: rules[j] != ""
    {
      if rules[i] != "" {
        isEnabled := true;
      }
    }
  }

  // ---------------------------------------------------------------------------
  // Specification of the scan

  /** The index of the first bucket, in listing order, that is not encrypted. */
  function FirstUnencrypted(buckets: seq<string>, state: EncryptionState): (r: Option<nat>)
    ensures r.None? <==> forall j | 0 <= j < |buckets| :: BucketEncrypted(state, buckets[j])
    ensures r.Some? ==> r.value < |buckets| && !BucketEncrypted(state, buckets[r.value])
    ensures r.Some? ==> forall j | 0 <= j < r.value :: BucketEncrypted(state, buckets[j])
  {
    if |buckets| == 0 then None
    else if !BucketEncrypted(state, buckets[0]) then Some(0)
    else
      match FirstUnencrypted(buckets[1..], state)
      case None => None
      case Some(k) => Some(k + 1)
  }

  /** The single write remediation issues: one rule with the default algorithm. */
  function RemediationRequest(bucket: string): (req: PutRequest)
  {
    PutRequest(bucket, [DefaultAlgorithm])
  }

  /** Everything one scan does: its result, the encryption state it leaves,
      the writes it issues and the buckets whose configuration it fetches. */
  datatype Run = Run(outcome: Outcome, state: EncryptionState, puts: seq<PutRequest>, visited: seq<string>)

  function OutcomeOf(answer: PutOutcome): (outcome: Outcome)
  {
    match answer
    case PutOk(metadata) => Remediated(metadata)
    case PutFailed(error) => Raised(error)
  }

  /** The scan stated without a loop: in a dry run, or when every bucket is
      encrypted, all buckets are fetched and nothing else happens; otherwise the
      first unencrypted bucket gets the one write and the scan ends with that
      write's answer. */
  function ExpectedRun(buckets: seq<string>, state: EncryptionState, encrypt: bool,
                       respond: PutRequest -> PutOutcome): (run: Run)
  {
    match FirstUnencrypted(buckets, state)
    case None => Run(NoOutcome, state, [], buckets)
    case Some(i) =>
      if !encrypt then Run(NoOutcome, state, [], buckets)
      else
        var req := RemediationRequest(buckets[i]);
        var answer := respond(req);
        Run(OutcomeOf(answer), AfterPut(state, req, answer), [req], buckets[..i + 1])
  }

  /** The run when bucket `i` is the first unencrypted one and remediation is on. */
  lemma ExpectedRunStopsAt(buckets: seq<string>, state: EncryptionState, respond: PutRequest -> PutOutcome, i: nat)
    requires i < |buckets| && !BucketEncrypted(state, buckets[i])
    requires forall j | 0 <= j < i :: BucketEncrypted(state, buckets[j])
    ensures var req := RemediationRequest(buckets[i]);
            ExpectedRun(buckets, state, true, respond)
              == Run(OutcomeOf(respond(req)), AfterPut(state, req, respond(req)), [req], buckets[..i + 1])
  {
  }

  /** The run when remediation is off or no bucket needs it. */
  lemma ExpectedRunSkipsAll(buckets: seq<string>, state: EncryptionState, encrypt: bool,
                            respond: PutRequest -> PutOutcome)
    requires encrypt ==> forall j | 0 <= j < |buckets| :: BucketEncrypted(state, buckets[j])
    ensures ExpectedRun(buckets, state, encrypt, respond) == Run(NoOutcome, state, [], buckets)
  {
  }

  // ---------------------------------------------------------------------------
  // The routine

  /** The scan-classify-remediate loop over the buckets of `region`; `connect`
      stands for opening a client on a region. */
  method GetBucketEncryption(region: Json, encrypt: bool, connect: Json -> S3Client) returns (outcome: Outcome)
    requires allocated(connect(region))
    modifies connect(region)
    ensures var client := connect(region);
            var run := ExpectedRun(client.bucketList, old(client.encryption), encrypt, client.respond);
            outcome == run.outcome && client.encryption == run.state &&
            client.putLog == old(client.putLog) + run.puts &&
            client.fetchLog == old(client.fetchLog) + run.visited
  {
    var client := connect(region);
    var buckets := client.ListBuckets();
    ghost var state0 := client.encryption;
    ghost var fetched0 := client.fetchLog;
    var i := 0;
    while i < |buckets|
      invariant 0 <= i <= |buckets|
      invariant client.encryption == state0 && client.putLog == old(client.putLog)
      invariant client.fetchLog == fetched0 + buckets[..i]
      invariant encrypt ==> forall j | 0 <= j < i :: BucketEncrypted(state0, buckets[j])
    {
      var bucket := buckets[i];
      var fetched := client.GetBucketEncryption(bucket);
      var rules := RulesOrEmpty(fetched);
      var isEnabled := RulesEncrypted(rules);
      assert isEnabled == BucketEncrypted(state0, bucket);
      if !isEnabled && encrypt {
        assert buckets[..i + 1] == buckets[..i] + [bucket];
        ExpectedRunStopsAt(buckets, state0, client.respond, i);
        var answer := client.PutBucketEncryption(RemediationRequest(bucket));
        outcome := OutcomeOf(answer);
        return;
      }
      assert buckets[..i + 1] == buckets[..i] + [bucket];
      i := i + 1;
    }
    assert buckets[..i] == buckets;
    ExpectedRunSkipsAll(buckets, state0, encrypt, client.respond);
    outcome := NoOutcome;
  }

  /** The Lambda entry point: resolve the request and run the scan on the
      resolved region. The result is what the handler prints; a `Raised`
      result stands for the exception escaping the handler. */
  method LambdaHandler(event: map<string, Json>, defaultRegion: string, connect: Json -> S3Client)
    returns (result: Outcome)
    requires allocated(connect(ResolveRequest(event, defaultRegion).region))
    modifies connect(ResolveRequest(event, defaultRegion).region)
    ensures var req := ResolveRequest(event, defaultRegion);
            var client := connect(req.region);
            var run := ExpectedRun(client.bucketList, old(client.encryption), req.encrypt, client.respond);
            result == run.outcome && client.encryption == run.state &&
            client.putLog == old(client.putLog) + run.puts &&
            client.fetchLog == old(client.fetchLog) + run.visited
  {
    var req := ResolveRequest(event, defaultRegion);
    result := GetBucketEncryption(req.region, req.encrypt, connect);
  }
}
