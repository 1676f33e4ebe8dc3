# S3 bucket encryption remediation, modelled in Dafny

This project models `remediate_s3.py`, an AWS Lambda function that audits the
server-side encryption of every S3 bucket in a region and, when the invocation
asks for it, gives an unencrypted bucket a default AES256 encryption rule.

- `lambda_handler` turns the event into two settings: remediation is enabled
  exactly when the event has an `Enable` key, whatever its value, and the
  region is the event's `Region` or else the ambient default region.
- `get_bucket_encryption` lists the buckets and visits them in listing order.
  It fetches each bucket's encryption rules; a failed fetch of any kind counts
  as no rules. A bucket is encrypted when some rule names a non-empty
  algorithm. In a dry run, unencrypted buckets are skipped and the scan runs
  to the end and returns nothing. With remediation enabled, the first
  unencrypted bucket gets one write setting a single `AES256` rule, and the
  function returns that write's response at once. A client error from the
  write propagates.

Files:

- `wrappers.dfy`: the `Option` datatype.
- `s3_service.dfy`: the storage service as seen by the routine. It has the
  bucket listing, the state of the region and a function `respond` that gives
  the service's answer to each put request. The state keeps two things apart:
  each bucket's encryption configuration (a missing name means "no
  configuration"), and the buckets whose get call fails for a reason that has
  nothing to do with the configuration, such as a denied permission. A write
  changes only the configuration, so it does not cure a failing get. Class `S3Client` stands for the boto3
  client. It holds that state and logs every fetch and put request it gets, so
  the contracts can say which buckets were visited and which writes were
  issued.
- `remediate_s3.dfy`: the routine. It has the request resolution, the
  classification, and the inner rule loop (`RulesEncrypted`). It also has
  `FirstUnencrypted`, the declarative result of one scan (`ExpectedRun`), the
  scan loop (`GetBucketEncryption`) and the handler. The scan method is proved
  to do exactly what `ExpectedRun` describes: the result, the new encryption
  state, the writes and the fetched buckets.
- `remediate_s3_properties.dfy`: lemmas about `ExpectedRun` and the
  classification, including that enough repeated invocations encrypt the
  whole region.

The network is abstracted away. `boto3.client('s3', region_name=region)`
becomes a parameter `connect: Json -> S3Client`. The scan methods require that
the client they are given already exists (`allocated`). `os.environ['AWS_DEFAULT_REGION']`
becomes the parameter `defaultRegion`. The `ResponseMetadata` of a write is an
opaque value. The model returns it instead of its `json.dumps` text. An exception
escaping the routine becomes the result `Raised(error)`, and no further
request follows it.

The code returns right after the first write (remediate_s3.py:76), so at
most one bucket is remediated per invocation.

## Model

| member | source | states |
|---|---|---|
| RemediateS3.ResolveRequest | remediate_s3.py:30-38 | encrypt holds iff `Enable` is a key of the event; region is `event['Region']` when that key is present, else the supplied default |
| RemediateS3Properties.EnableValueIrrelevant | remediate_s3.py:30-33 | any value under `Enable` enables remediation and all values give the same request; removing the key disables it |
| RemediateS3Properties.DefaultRegionOnlyWhenAbsent | remediate_s3.py:35-38 | the default region has no effect when the event names a region, and decides the region when it does not |
| RemediateS3.LambdaHandler | remediate_s3.py:21-40 | the handler runs the scan with the resolved flag on the client of the resolved region, and its result and effects are those of `ExpectedRun` |
| RemediateS3.RulesEncrypted | remediate_s3.py:52-55 | the inner loop's flag ends true iff some rule has a non-empty algorithm |
| RemediateS3Properties.IsEncryptedOrderIndependent | remediate_s3.py:52-55 | classification depends only on the multiset of rules, not on their order |
| RemediateS3Properties.IsEncryptedAppend | remediate_s3.py:52-55 | classification is an "any": a concatenation of rule lists is encrypted iff one of the parts is |
| RemediateS3Properties.FailedFetchIsUnencrypted | remediate_s3.py:47-50 | a bucket whose fetch fails, for any reason (no configuration, denied, any other fault), is classified unencrypted |
| RemediateS3Properties.RemediatedIsEncrypted | remediate_s3.py:63-74 | the configuration the write installs counts as encrypted |
| RemediateS3.FirstUnencrypted | remediate_s3.py:44-62 | returns none iff every listed bucket is encrypted, otherwise the least index of an unencrypted bucket, with all earlier buckets encrypted |
| RemediateS3.GetBucketEncryption | remediate_s3.py:42-82 | the loop's result, the new encryption state, the writes issued and the buckets fetched are exactly those of `ExpectedRun` for the listing and the state at entry |
| S3Service.S3Client.constructor | remediate_s3.py:43 | a fresh client holds the given listing, state and answers, with empty request logs |
| S3Service.S3Client.ListBuckets | remediate_s3.py:44 | returns the bucket listing in its order |
| S3Service.S3Client.GetBucketEncryption | remediate_s3.py:48 | returns the bucket's unrelated get fault if it has one, else its rules, else "no configuration", and logs the request |
| S3Service.S3Client.PutBucketEncryption | remediate_s3.py:63-74 | returns the service's answer, logs the request, and applies the write to the state only when accepted |
| S3Service.AfterPut | remediate_s3.py:63-74 | an accepted write sets that bucket's configuration, which the next get returns unless that bucket's get fails for an unrelated fault; such faults stay; a rejected write changes nothing; no other bucket changes |
| RemediateS3Properties.NoWriteForEncryptedBucket | remediate_s3.py:59-74 | every write issued targets a bucket classified unencrypted and sets exactly one `AES256` rule |
| RemediateS3Properties.AtMostOneWrite | remediate_s3.py:62-76 | a run issues at most one write, and none when remediation is disabled |
| RemediateS3Properties.DryRunChangesNothing | remediate_s3.py:44-80 | with remediation disabled: no write, every bucket fetched in order, no outcome, state unchanged |
| RemediateS3Properties.AllEncryptedNoWrite | remediate_s3.py:44-59 | with remediation enabled and every bucket encrypted: no write, every bucket fetched, no outcome, state unchanged |
| RemediateS3Properties.RemediatesFirstUnencrypted | remediate_s3.py:62-76 | with remediation enabled and bucket i the first unencrypted one: exactly one write, for bucket i, only buckets up to i fetched, and the result is that write's metadata or its client error |
| RemediateS3Properties.WriteErrorPropagates | remediate_s3.py:81-82 | when the service rejects every write, the state is unchanged and the run raises that client error exactly when it issued a write |
| RemediateS3Properties.OnlyTargetChanges | remediate_s3.py:63-74 | a bucket that was not written keeps what its get returns; after a successful remediation a target without an unrelated get fault holds exactly the `AES256` rule; a bucket whose get fails for an unrelated fault keeps failing |
| RemediateS3Properties.RemediationProgress | remediate_s3.py:62-76 | when no listed bucket's get fails for an unrelated fault, an accepted remediation removes exactly its target from the set of unencrypted listed buckets |
| RemediateS3Properties.UnencryptedNamesEmpty | remediate_s3.py:44-59 | the set of unencrypted listed buckets is empty iff no first unencrypted bucket exists |
| RemediateS3Properties.RepeatedInvocationsEncryptAll | remediate_s3.py:62-76 | when the service accepts remediation writes and no listed bucket's get fails for an unrelated fault, any number of enabled invocations at least the number of unencrypted buckets leaves every listed bucket encrypted |
| RemediateS3Properties.EncryptedStateIsStable | remediate_s3.py:44-59 | once every listed bucket is encrypted, any number of further enabled invocations leaves the state unchanged |
| RemediateS3Properties.RunKeepsGetFaults | remediate_s3.py:47-50 | no run changes which buckets' gets fail for reasons unrelated to their configuration |
| RemediateS3Properties.InvocationStep | remediate_s3.py:62-76 | one enabled invocation with an unencrypted bucket, an accepting service and no unrelated get faults leaves one unencrypted bucket fewer and still no such faults, and is the first of any positive number of invocations |
| RemediateS3Properties.FaultyBucketBlocksRemediation | remediate_s3.py:47-76 | when the first unencrypted bucket's get fails for an unrelated fault, after any number of enabled invocations every get still answers as before, and the next invocation again writes only that bucket and fetches no bucket after it |

## Left out

- Creating the boto3 client and the network calls to list, fetch and put: they become the `S3Client` stand-in and the `connect` parameter.
- `print`, `logger` and the logging setup: output on the side only. The handler's printed value is returned instead.
- `json.dumps` of the response metadata: the metadata is returned as an opaque value.
- Reading `os.environ`, and the `KeyError` when `AWS_DEFAULT_REGION` is unset: the default region is a parameter.
- Malformed rule dictionaries (missing nested keys at line 54 raise outside the `try`): a rule is just its algorithm string, and an absent algorithm is not modelled.
- Invalid regions and failures of `list_buckets`: these are unhandled faults with no logic of their own.
- Exceptions other than `ClientError` raised by the write: they propagate like a client error but are not modelled.
- RemediationProgress: assumes no listed bucket's get fails for a reason unrelated to its configuration. Under such a fault the program keeps classifying the bucket unencrypted after an accepted write, and FaultyBucketBlocksRemediation states what happens then.
- RepeatedInvocationsEncryptAll: holds only when no listed bucket's get fails for an unrelated fault. Otherwise remediation stalls at the first such unencrypted bucket, as FaultyBucketBlocksRemediation proves.
- Pagination of the bucket listing: the source reads one response, so the listing is one sequence.
