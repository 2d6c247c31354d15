# Secret-scan gate and size-limited blob reads, modelled in Dafny

This project models two parts of the gitness git server.

**The pre-receive secret-scan gate** (`PreReceiveScanSecrets`, `scan_secrets.dfy`). On a push, the
gate reads the repository's "secret scanning enabled" setting. When scanning is enabled, it walks the
push's reference updates in order and works out a commit range for each one:

- A deletion (new sha is the all-zero `NilSHA`) is skipped.
- An existing reference is scanned as `old^{commit}..new^{commit}`.
- A new reference is scanned from a fallback base. That base is looked up once per push and cached:
  the fallback sha, or `""` (scan from the root) when none is available.

The first failing collaborator call aborts the loop with an error and drops the findings. When
findings remain, the gate appends the printed findings and two empty lines to `output.Messages` and
sets `output.Error` to "Changes blocked by security scan results". It still returns no error.

The collaborators are the settings store, the fallback lookup, the scanner and the findings printer.
They are fixed answers held in an `Oracles` value. The `Collaborators` class records every fallback
lookup and scan call in one ghost log of `Call`s, in the order they are made. The imperative methods `ScanSecrets` and `ScanSecretsInternal` are
proved against pure specification functions (`Evaluate`, `Run`, `Step`). The properties are lemmas
about those functions.

**The blob read over a `git cat-file --batch` channel** (`Blob`, `blob.dfy`). `GetBlob` does the following:

- writes `sha + "\n"` to the batch process;
- reads one header `<sha> <type> <size>`;
- rejects a header for another sha, or for an object that is not a `blob`;
- caps the delivered size by a positive limit;
- returns a `LimitReaderCloser`, an `io.LimitReader` over the batch stdout whose `Close` calls the
  batch's cancel function.

Every error path calls cancel. The batch process is a `CatFileBatch` object: whether the write fails,
the header answer and the stdout bytes are given, and `cancelCalls` counts the cancel calls.
`Close` has no guard, so a second `Close` cancels again, as in the source.

`wrappers.dfy` holds the `Option`/`Result` types used for Go's nil pointers and `(value, error)` returns.

Three facts about the code that the model keeps:

- The sha-mismatch error is a plain formatted error, not a distinguished error kind. The model
  still gives it its own constructor, `ShaMismatch`, so that the error paths can be told apart.
- The content reader yields *at most* `ContentSize` bytes. It yields fewer if the stream ends early.
- Nothing enforces that `Close` is called exactly once.

## Model

| member | source | states |
|---|---|---|
| `PreReceiveScanSecrets.HasResults` | app/api/controller/githook/pre_receive_scan_secrets.go:36-38 | true exactly when the findings list is non-empty |
| `PreReceiveScanSecrets.ScanSecrets` | app/api/controller/githook/pre_receive_scan_secrets.go:40-83 | the error returned, the calls made (in order) and the new `output` are those of `Evaluate`. A failing settings lookup returns `SettingsCheckFailed`, makes no fallback or scan call and leaves `output` unchanged. Disabled scanning returns no error, makes no call and leaves `output` unchanged. Any error leaves `output` unchanged |
| `PreReceiveScanSecrets.Evaluate` | app/api/controller/githook/pre_receive_scan_secrets.go:40-83 | an evaluation error never blocks and a block is never an error. A block always uses the fixed message and is the only case that appends messages. No collaborator is called unless scanning is enabled |
| `PreReceiveScanSecrets.BlockedExactlyWhenFindings` | app/api/controller/githook/pre_receive_scan_secrets.go:73-82 | the push is blocked iff scanning is enabled, no call failed and the planned scans (new references from the fallback lookup's answer) found something. The appended messages are then the printed findings followed by two empty strings |
| `PreReceiveScanSecrets.ScanSecretsInternal` | app/api/controller/githook/pre_receive_scan_secrets.go:85-159 | the loop makes exactly the calls of `Run`, lookups and scans interleaved in the same order. It returns `Run`'s error with an empty result, or `Run`'s findings when nothing failed |
| `PreReceiveScanSecrets.BaseFromFallback` | app/api/controller/githook/pre_receive_scan_secrets.go:120-126 | the cached base is the fallback sha when available and `""` otherwise |
| `PreReceiveScanSecrets.Step` | app/api/controller/githook/pre_receive_scan_secrets.go:97-155 | one iteration only appends calls, at most two. A lookup is only made from an unresolved cache and only about the current update when it creates a reference. A deletion changes nothing, a resolved cache is kept, and a failure is the error answer of the last call |
| `PreReceiveScanSecrets.Run` | app/api/controller/githook/pre_receive_scan_secrets.go:93-156 | the loop only appends calls, stops at a failure (a failed state is final) and never changes a resolved cache |
| `PreReceiveScanSecrets.CallsFollowRefUpdates` | app/api/controller/githook/pre_receive_scan_secrets.go:93-156 | the calls of the loop, lookups and scans together, are a prefix of the planned calls in order, and all of them when nothing fails: per non-deleted update a scan, preceded for the first new reference by the fallback lookup about it. New references are planned from the base that lookup answers, so this holds for runs that abort too |
| `PreReceiveScanSecrets.PlannedCallsProjections` | app/api/controller/githook/pre_receive_scan_secrets.go:97-143 | the planned calls hold exactly the planned scans, and one lookup, about the first new reference, unless the cache is already filled |
| `PreReceiveScanSecrets.FallbackLookedUpAtMostOnce` | app/api/controller/githook/pre_receive_scan_secrets.go:106-131 | the fallback lookup is called at most once per push, about the first new (non-deleted, nil-old) reference. It is called exactly then when nothing fails, and the cache is then filled. The cached base is what that call returned |
| `PreReceiveScanSecrets.ScansFollowRefUpdates` | app/api/controller/githook/pre_receive_scan_secrets.go:97-143 | the scan calls are a prefix of the planned scans, one per non-deleted update in push order, and all of them when nothing fails. Existing references use `old^{commit}`, new ones the base the fallback lookup about the first new reference answered, and the rev is always `new^{commit}` |
| `PreReceiveScanSecrets.PlannedScansNonDeleted` | app/api/controller/githook/pre_receive_scan_secrets.go:97-104 | the i-th planned scan is that of the i-th update that is not a deletion, with its base and rev |
| `PreReceiveScanSecrets.DeletionsNeverScanned` | app/api/controller/githook/pre_receive_scan_secrets.go:97-100 | every scan call targets the new commit of a non-deleted update, in order. A push of deletions only makes no call at all |
| `PreReceiveScanSecrets.OnlyDeletions` | app/api/controller/githook/pre_receive_scan_secrets.go:97-100 | a list of deletions has nothing to scan, no new reference and asks for no call |
| `PreReceiveScanSecrets.AbortsAtFirstFailure` | app/api/controller/githook/pre_receive_scan_secrets.go:108-146 | the calls made are a prefix of the planned calls and every call but the last succeeded. The loop failed exactly when the last call failed, and the failure is that call's error. So no scan follows a failed lookup and no lookup follows a failed scan |
| `PreReceiveScanSecrets.FindingsInRefUpdateOrder` | app/api/controller/githook/pre_receive_scan_secrets.go:148-155 | when nothing failed, every call succeeded and the findings are the scans' findings concatenated in reference-update order |
| `PreReceiveScanSecrets.Collaborators.GetBaseSHAForScanningChanges` | app/api/controller/githook/pre_receive_scan_secrets.go:108-115 | appends a lookup about the current update to the call log and returns the lookup's answer for the full update list |
| `PreReceiveScanSecrets.Collaborators.ScanSecrets` | app/api/controller/githook/pre_receive_scan_secrets.go:136-143 | appends a scan with these parameters to the call log and returns the scanner's answer |
| `PreReceiveScanSecrets.Collaborators.PrintScanSecretsFindings` | app/api/controller/githook/pre_receive_scan_secrets.go:78 | appends the printed findings to `output.Messages` and leaves `output.Error` unchanged |
| `PreReceiveScanSecrets.Collaborators.RepoGetScanningEnabled` | app/api/controller/githook/pre_receive_scan_secrets.go:48-54 | returns the setting lookup's answer (value or error) |
| `Blob.ContentSize` | git/api/blob.go:66-69 | with a positive limit the delivered size is at most both the object size and the limit, and equals one of them. Otherwise it is the object size |
| `Blob.ValidateHeader` | git/api/blob.go:56-69 | succeeds iff the header's sha is the requested one and its type is `blob`. A sha mismatch gives `ShaMismatch`, a wrong type `InvalidObjectType`. On success the sha is the request's, the size is the header's and the content size is `ContentSize` of them: capped by a positive limit, the size otherwise |
| `Blob.OpenBlob` | git/api/blob.go:44-69 | a failed write gives `WriteFailed` and a failed header read `HeaderReadFailed`. Success happens iff the write and the header read succeed and the header names the requested blob. It then carries the requested sha, the header's size and `ContentSize` of it |
| `Blob.GetBlob` | git/api/blob.go:36-77 | writes exactly `sha + "\n"` and has the outcome of `OpenBlob`. It calls cancel once on every error path and never on success. On success it returns a fresh reader over the batch stdout that has delivered nothing, may deliver `ContentSize` bytes and stops the batch when closed |
| `Blob.CatFileBatch.Write` | git/api/blob.go:44 | appends the written text to stdin unless the write fails, and returns the write error |
| `Blob.CatFileBatch.ReadBatchHeaderLine` | git/api/blob.go:50 | returns the channel's header answer |
| `Blob.CatFileBatch.Cancel` | git/api/blob.go:42-61 | the `cancel` function of the batch process counts one more call and leaves stdin as it was |
| `Blob.Pipe.Read` | git/api/blob.go:79-81 | the batch stdout that `io.LimitReader` wraps: returns the stream's next bytes, at most as many as asked, at least one unless none were asked, and reports end of file only when asked at the end of the data |
| `Blob.LimitReaderCloser.constructor` | git/api/blob.go:79-84 | the reader starts with the whole limit remaining and nothing delivered |
| `Blob.LimitReaderCloser.Read` | git/api/blob.go:91-93 | the bytes delivered are the stream's next bytes, never more than `ContentSize` in total. `remaining` only decreases, never goes below zero from a non-negative start, and gives end of file once used up |
| `Blob.LimitReaderCloser.Close` | git/api/blob.go:95-98 | calls the batch's cancel once and always returns no error, however much content was read |

## Left out

- Process spawning in `CatFileBatch`, pipe I/O and `context` cancellation: the batch process is an object with given answers and a cancel counter.
- The parsing inside `ReadBatchHeaderLine`, the wrapping done by `processGitErrorf`, and error message texts: errors are constructors carrying the collaborator's cause.
- The settings key and default (`settings.KeySecretScanningEnabled`, `settings.DefaultSecretScanningEnabled`) are not part of this model: the settings answer is given with the default already applied.
- The bodies of `GetBaseSHAForScanningChanges`, `rgit.ScanSecrets` and `printScanSecretsFindings` are not part of this model. They are oracles, and the printed message format is left open.
- The `sha` package is not part of this model. `SHA.IsNil()` and `New.String() == NilSHA` are both modelled as equality with the all-zero sha.
- Logging has no behavioural effect and is left out.
- `Blob.CatFileBatch.Write`: does not model a partial write before a write error; a failed write appends nothing.
- `Blob.LimitReaderCloser.Read`: the underlying stream's only failure is end of file. Other read errors of the pipe are not modelled.
- The `infraprovider` interface is unrelated to the gate and is not modelled. So is concurrency: both components are sequential.
