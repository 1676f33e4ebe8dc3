/**
  Properties of the remediation routine, stated about its specification
  `ExpectedRun`; the scan method and the handler are proved equal to it.
*/
module RemediateS3Properties {
  import opened Wrappers
  import opened S3Service
  import opened RemediateS3

  // ---------------------------------------------------------------------------
  // Request resolution

  /** Only the presence of `Enable` matters, never its value. */
  lemma EnableValueIrrelevant(event: map<string, Json>, v: Json, w: Json, defaultRegion: string)
    ensures ResolveRequest(event["Enable" := v], defaultRegion).encrypt
    ensures ResolveRequest(event["Enable" := v], defaultRegion) == ResolveRequest(event["Enable" := w], defaultRegion)
    ensures !ResolveRequest(event - {"Enable"}, defaultRegion).encrypt
  {
  }

  /** The ambient default is consulted only when the event names no region. */
  lemma DefaultRegionOnlyWhenAbsent(event: map<string, Json>, d1: string, d2: string)
    ensures "Region" in event ==> ResolveRequest(event, d1) == ResolveRequest(event, d2)
    ensures "Region" !in event ==> (ResolveRequest(event, d1).region == ResolveRequest(event, d2).region <==> d1 == d2)
  {
  }

  // ---------------------------------------------------------------------------
  // Classification

  /** Classification is an "any" over the rules: it does not depend on their order. */
  lemma {:induction false} IsEncryptedOrderIndependent(a: seq<string>, b: seq<string>)
    requires multiset(a) == multiset(b)
    ensures IsEncrypted(a) <==> IsEncrypted(b)
  {
    if IsEncrypted(a) {
      EncryptedWitnessMoves(a, b);
    }
    if IsEncrypted(b) {
      EncryptedWitnessMoves(b, a);
    }
  }

  lemma EncryptedWitnessMoves(a: seq<string>, b: seq<string>)
    requires multiset(a) == multiset(b) && IsEncrypted(a)
    ensures IsEncrypted(b)
  {
    var i :| 0 <= i < |a| && a[i] != "";
    assert a[i] in multiset(a);
    assert a[i] in b;
    var j :| 0 <= j < |b| && b[j] == a[i];
  }

  /** "Any" distributes over concatenation of rule sets. */
  lemma {:induction false} IsEncryptedAppend(a: seq<string>, b: seq<string>)
    ensures IsEncrypted(a + b) <==> IsEncrypted(a) || IsEncrypted(b)
  {
    if IsEncrypted(a + b) {
      var i :| 0 <= i < |a + b| && (a + b)[i] != "";
      if i < |a| {
        assert a[i] == (a + b)[i];
      } else {
        assert b[i - |a|] == (a + b)[i];
      }
    }
    if IsEncrypted(a) {
      var i :| 0 <= i < |a| && a[i] != "";
      assert (a + b)[i] == a[i];
    }
    if IsEncrypted(b) {
      var i :| 0 <= i < |b| && b[i] != "";
      assert (a + b)[|a| + i] == b[i];
    }
  }

  /** A failed fetch, of any kind, makes the bucket count as unencrypted. */
  lemma FailedFetchIsUnencrypted(state: EncryptionState, bucket: string)
    requires Fetch(state, bucket).FetchError?
    ensures !BucketEncrypted(state, bucket)
  {
  }

  /** The configuration remediation writes does count as encrypted. */
  lemma {:induction false} RemediatedIsEncrypted(state: EncryptionState, bucket: string)
    requires Fetch(state, bucket) == Rules(RemediationRequest(bucket).algorithms)
    ensures BucketEncrypted(state, bucket)
  {
    assert RulesOrEmpty(Fetch(state, bucket))[0] == DefaultAlgorithm;
  }

  // ---------------------------------------------------------------------------
  // The scan

  /** No write is ever issued for a bucket classified encrypted, and every write
      sets exactly one rule with the default algorithm. */
  lemma NoWriteForEncryptedBucket(buckets: seq<string>, state: EncryptionState, encrypt: bool,
                                  respond: PutRequest -> PutOutcome)
    ensures forall p | p in ExpectedRun(buckets, state, encrypt, respond).puts ::
              !BucketEncrypted(state, p.bucket) && p.algorithms == ["AES256"]
  {
  }

  /** A scan issues at most one write, and only when remediation is enabled. */
  lemma AtMostOneWrite(buckets: seq<string>, state: EncryptionState, encrypt: bool,
                       respond: PutRequest -> PutOutcome)
    ensures |ExpectedRun(buckets, state, encrypt, respond).puts| <= 1
    ensures !encrypt ==> ExpectedRun(buckets, state, encrypt, respond).puts == []
  {
  }

  /** Dry run: no write, every bucket fetched, no outcome, nothing changed. */
  lemma DryRunChangesNothing(buckets: seq<string>, state: EncryptionState, respond: PutRequest -> PutOutcome)
    ensures ExpectedRun(buckets, state, false, respond) == Run(NoOutcome, state, [], buckets)
  {
  }

  /** With every bucket already encrypted, an enabled run is also a dry run. */
  lemma AllEncryptedNoWrite(buckets: seq<string>, state: EncryptionState, respond: PutRequest -> PutOutcome)
    requires forall j | 0 <= j < |buckets| :: BucketEncrypted(state, buckets[j])
    ensures ExpectedRun(buckets, state, true, respond) == Run(NoOutcome, state, [], buckets)
  {
  }

  /** With remediation enabled and bucket `i` the first unencrypted one, exactly
      one write is issued, for bucket `i`, buckets after `i` are never fetched,
      and the run returns that write's answer. */
  lemma RemediatesFirstUnencrypted(buckets: seq<string>, state: EncryptionState,
                                   respond: PutRequest -> PutOutcome, i: nat)
    requires i < |buckets| && !BucketEncrypted(state, buckets[i])
    requires forall j | 0 <= j < i :: BucketEncrypted(state, buckets[j])
    ensures var run := ExpectedRun(buckets, state, true, respond);
            var req := PutRequest(buckets[i], ["AES256"]);
            run.puts == [req] && run.visited == buckets[..i + 1] &&
            (respond(req).PutOk? ==> run.outcome == Remediated(respond(req).metadata)) &&
            (respond(req).PutFailed? ==> run.outcome == Raised(respond(req).error))
  {
  }

  /** A rejected write propagates its client error and leaves the state alone. */
  lemma WriteErrorPropagates(buckets: seq<string>, state: EncryptionState, encrypt: bool,
                             respond: PutRequest -> PutOutcome, e: ClientError)
    requires forall p :: respond(p) == PutFailed(e)
    ensures var run := ExpectedRun(buckets, state, encrypt, respond);
            run.state == state && (run.puts != [] <==> run.outcome == Raised(e))
  {
  }

  /** Only the written bucket's configuration can change; when the write is
      accepted it becomes the single AES256 rule. */
  lemma OnlyTargetChanges(buckets: seq<string>, state: EncryptionState, encrypt: bool,
                          respond: PutRequest -> PutOutcome, b: string)
    ensures var run := ExpectedRun(buckets, state, encrypt, respond);
            (forall p | p in run.puts :: p.bucket != b) ==> Fetch(run.state, b) == Fetch(state, b)
    ensures var run := ExpectedRun(buckets, state, encrypt, respond);
            run.outcome.Remediated? && run.puts[0].bucket !in state.getFaults ==>
              Fetch(run.state, run.puts[0].bucket) == Rules(["AES256"])
    ensures var run := ExpectedRun(buckets, state, encrypt, respond);
            b in state.getFaults ==> Fetch(run.state, b) == Fetch(state, b)
  {
  }

  /** A run never changes which gets fail for reasons unrelated to the configuration. */
  lemma RunKeepsGetFaults(buckets: seq<string>, state: EncryptionState, encrypt: bool,
                          respond: PutRequest -> PutOutcome)
    ensures ExpectedRun(buckets, state, encrypt, respond).state.getFaults == state.getFaults
  {
  }

  // ---------------------------------------------------------------------------
  // Repeated invocations

  /** The listed buckets that are not encrypted. */
  function UnencryptedNames(buckets: seq<string>, state: EncryptionState): (names: set<string>)
  {
    set b | b in buckets && !BucketEncrypted(state, b)
  }

  /** No get of a listed bucket fails for a reason other than a missing configuration. */
  predicate NoGetFaults(buckets: seq<string>, state: EncryptionState)
  {
    forall j | 0 <= j < |buckets| :: buckets[j] !in state.getFaults
  }

  /** An accepted remediation of a bucket whose get does not fail for an
      unrelated fault removes exactly that bucket from the unencrypted ones. */
  lemma {:induction false} RemediationProgress(buckets: seq<string>, state: EncryptionState,
                                               respond: PutRequest -> PutOutcome)
    requires ExpectedRun(buckets, state, true, respond).outcome.Remediated?
    requires NoGetFaults(buckets, state)
    ensures var run := ExpectedRun(buckets, state, true, respond);
            run.puts[0].bucket in UnencryptedNames(buckets, state) &&
            UnencryptedNames(buckets, run.state) == UnencryptedNames(buckets, state) - {run.puts[0].bucket}
  {
    var run := ExpectedRun(buckets, state, true, respond);
    var i := FirstUnencrypted(buckets, state).value;
    var target := buckets[i];
    assert run.puts[0].bucket == target;
    RemediatedIsEncrypted(run.state, target);
    forall b | b in buckets
      ensures b in UnencryptedNames(buckets, run.state) <==> b in UnencryptedNames(buckets, state) - {target}
    {
      if b != target {
        assert Fetch(run.state, b) == Fetch(state, b);
      }
    }
  }

  /** The state after `n` successive invocations with `Enable` set. */
  function AfterInvocations(buckets: seq<string>, state: EncryptionState,
                            respond: PutRequest -> PutOutcome, n: nat): (state': EncryptionState)
    decreases n
  {
    if n == 0 then state
    else AfterInvocations(buckets, ExpectedRun(buckets, state, true, respond).state, respond, n - 1)
  }

  /** The unencrypted set is empty exactly when every listed bucket is encrypted. */
  lemma UnencryptedNamesEmpty(buckets: seq<string>, state: EncryptionState)
    ensures UnencryptedNames(buckets, state) == {} <==> FirstUnencrypted(buckets, state).None?
  {
    if UnencryptedNames(buckets, state) == {} {
      forall j | 0 <= j < |buckets| ensures BucketEncrypted(state, buckets[j]) {
        assert buckets[j] !in UnencryptedNames(buckets, state);
      }
    } else {
      var b :| b in UnencryptedNames(buckets, state);
      var j :| 0 <= j < |buckets| && buckets[j] == b;
    }
  }

  /** Once every listed bucket is encrypted, further enabled invocations change nothing. */
  lemma {:induction false} EncryptedStateIsStable(buckets: seq<string>, state: EncryptionState,
                                                  respond: PutRequest -> PutOutcome, n: nat)
    requires FirstUnencrypted(buckets, state).None?
    ensures AfterInvocations(buckets, state, respond, n) == state
    decreases n
  {
    if n > 0 {
      assert ExpectedRun(buckets, state, true, respond).state == state;
      EncryptedStateIsStable(buckets, state, respond, n - 1);
    }
  }

  /** Each invocation fixes one bucket, so when the service accepts every
      remediation write and no listed bucket's get fails for an unrelated
      fault, any number of invocations at least the number of unencrypted
      buckets leaves every listed bucket encrypted. */
  lemma {:induction false} RepeatedInvocationsEncryptAll(buckets: seq<string>, state: EncryptionState,
                                                         respond: PutRequest -> PutOutcome, n: nat)
    requires forall b :: respond(RemediationRequest(b)).PutOk?
    requires NoGetFaults(buckets, state)
    requires n >= |UnencryptedNames(buckets, state)|
    ensures FirstUnencrypted(buckets, AfterInvocations(buckets, state, respond, n)).None?
    decreases n
  {
    UnencryptedNamesEmpty(buckets, state);
    if FirstUnencrypted(buckets, state).None? {
      EncryptedStateIsStable(buckets, state, respond, n);
    } else {
      var next := InvocationStep(buckets, state, respond, n);
      RepeatedInvocationsEncryptAll(buckets, next, respond, n - 1);
    }
  }

  /** One enabled invocation with an unencrypted bucket present, an accepting
      service and no unrelated get faults leaves one unencrypted bucket fewer. */
  lemma InvocationStep(buckets: seq<string>, state: EncryptionState, respond: PutRequest -> PutOutcome, n: nat)
      returns (next: EncryptionState)
    requires forall b :: respond(RemediationRequest(b)).PutOk?
    requires NoGetFaults(buckets, state)
    requires FirstUnencrypted(buckets, state).Some? && n > 0
    ensures next == ExpectedRun(buckets, state, true, respond).state
    ensures NoGetFaults(buckets, next)
    ensures |UnencryptedNames(buckets, next)| == |UnencryptedNames(buckets, state)| - 1
    ensures AfterInvocations(buckets, state, respond, n) == AfterInvocations(buckets, next, respond, n - 1)
  {
    next := ExpectedRun(buckets, state, true, respond).state;
    var i := FirstUnencrypted(buckets, state).value;
    assert respond(RemediationRequest(buckets[i])).PutOk?;
    RemediationProgress(buckets, state, respond);
    RunKeepsGetFaults(buckets, state, true, respond);
  }

  /** The other side of the convergence: when the first unencrypted bucket's
      get fails for a reason unrelated to its configuration, every invocation
      writes that same bucket again, sees the same state, and never reaches
      the buckets after it, however many invocations follow. */
  lemma {:induction false} FaultyBucketBlocksRemediation(buckets: seq<string>, state: EncryptionState,
                                                         respond: PutRequest -> PutOutcome, i: nat, n: nat)
    requires i < |buckets| && !BucketEncrypted(state, buckets[i])
    requires forall j | 0 <= j < i :: BucketEncrypted(state, buckets[j])
    requires buckets[i] in state.getFaults
    ensures forall b :: Fetch(AfterInvocations(buckets, state, respond, n), b) == Fetch(state, b)
    ensures var run := ExpectedRun(buckets, AfterInvocations(buckets, state, respond, n), true, respond);
            run.puts == [RemediationRequest(buckets[i])] && run.visited == buckets[..i + 1]
    decreases n
  {
    if n > 0 {
      var next := ExpectedRun(buckets, state, true, respond).state;
      assert forall b :: Fetch(next, b) == Fetch(state, b);
      assert next.getFaults == state.getFaults;
      FaultyBucketBlocksRemediation(buckets, next, respond, i, n - 1);
    }
  }
}
