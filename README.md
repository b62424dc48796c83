# go-encryption composition function, modelled in Dafny

This project models `RunFunction`, the Crossplane composition function in
`functions/go-encryption/fn.go`. One invocation does the following:

1. It reads the observed composite resource (XR) and the observed composed resources.
2. It converts the XR to its typed `XEncryptionKey` view and requires a non-empty
   `spec.protectionLevel`.
3. It synthesises one GCP KMS `CryptoKey` named `<xr name>-encryption`. The key's
   protection level is copied from the XR. Its algorithm (`GOOGLE_SYMMETRIC_ENCRYPTION`),
   deletion policy (`Delete`) and management policies (`["*"]`) are fixed.
4. It reports a waiting result until Crossplane has observed a composed resource
   named `cryptokey`. After that it reports a `FunctionSuccess` condition.
5. On every exit after validation, a deferred closure merges the key into the
   request's desired resources. It then sets `status.dummy` on the XR and emits the
   XR as desired. Any library call that fails appends a fatal result.

Modules:

- `Wrappers`: `Option` and `Checked`.
- `CryptoKeys`: the key, `Synthesize`, and its inverse `Origin`.
- `Model`: the request, the XR, composed resources, and `Sdk`. `Sdk` holds the outcome
  of every fallible library call.
- `Responses`: the response. The `Response` class is the response object, which the
  response helpers change step by step. `Reply` is its value.
- `EncryptionFunction`: the specification functions (`Decode`, `Gate`, `Assemble`,
  `Expected`) and the imperative model (`MergeDesired`, `Finalize`, `RunFunction`).
  `RunFunction` is proved to return exactly `Expected(req, sdk)`.
- `FunctionProperties`: lemmas about `Expected`. Some cover one invocation. Others
  relate several invocations, including the waiting-then-success scenario.

Where the code and its design description differ, the model follows the code:

- A failure in the deferred closure still leaves the waiting result or the success
  condition in the response. The fatal result is appended after it
  (`FinalizeFailureAppendsFatal`).
- Desired resources are merged into the request's prior desired resources. They are
  not built fresh.
- If setting the status or the composite fails, the merged desired resources are
  already in the response (`LateFailureKeepsMergedResources`).
- The waiting message is spelled as in the code: "waiting for crpytokey to be created".
- The validation error at line 54 wraps a nil error. Go renders this as
  `missing protectionLevel %!w(<nil>)`, and the model uses that text.

The response starts as a copy of the request's desired state, as the SDK's
`response.To` does. So an early fatal exit returns that desired state unchanged.
Because `RunFunction`'s result is a function of its inputs (`Expected`), invoking it
twice on the same request gives the same response.

## Model

| member | source | states |
|---|---|---|
| CryptoKeys.Synthesize | functions/go-encryption/fn.go:92-111 | the key synthesised for an XR name and protection level is the one `Origin` maps back to exactly that name and that level: fixed apiVersion, kind, algorithm, deletion policy `Delete`, management policies `["*"]`, and a name ending in "-encryption" |
| CryptoKeys.SynthesizeOrigin | functions/go-encryption/fn.go:92-111 | every key with the synthesised shape is `Synthesize` of the name and level `Origin` recovers, so `Synthesize` and `Origin` are inverse |
| CryptoKeys.SynthesizeInjective | functions/go-encryption/fn.go:92-111 | different XR names or protection levels give different keys |
| CryptoKeys.XrNameOfKeyName | functions/go-encryption/fn.go:92 | removing the "-encryption" suffix from a key name gives back the XR name |
| CryptoKeys.KeyNameOfXrName | functions/go-encryption/fn.go:92 | every name with the suffix is the key name of the XR name left after removing it |
| CryptoKeys.KeyNameInjective | functions/go-encryption/fn.go:92 | distinct XR names get distinct key names |
| EncryptionFunction.Decode | functions/go-encryption/fn.go:34-56 | validation succeeds exactly when the XR and the observed resources can be read, the XR converts, and protectionLevel is present and non-empty; the typed view keeps the XR's name and protection level |
| EncryptionFunction.MergeDesired | functions/go-encryption/fn.go:66-73 | the merge fails exactly when some local object's conversion fails, and it names such an object; otherwise the result has the prior keys plus the local keys, each local object converted under its own name, and every other prior entry unchanged |
| EncryptionFunction.Finalize | functions/go-encryption/fn.go:59-90 | the deferred closure leaves the response as `Assemble` says: merged resources, then the stamped XR, with the first failing call appending one fatal result |
| EncryptionFunction.RunFunction | functions/go-encryption/fn.go:29-132 | the returned response is exactly `Expected(req, sdk)`: the early exits, the synthesis, the gate, and the deferred closure on exactly the exits after validation |
| Responses.Response.constructor | functions/go-encryption/fn.go:32 | a new response has no results or conditions and carries the request's desired XR and desired resources |
| Responses.Response.Fatal | functions/go-encryption/fn.go:36 | appends one fatal result targeted at the XR and changes nothing else |
| Responses.Response.Normal | functions/go-encryption/fn.go:119 | appends one normal result with the given message and target and changes nothing else |
| Responses.Response.ConditionTrue | functions/go-encryption/fn.go:128-129 | appends one condition with status True and the given type, reason, message and target, and changes nothing else |
| Responses.Response.SetDesiredComposedResources | functions/go-encryption/fn.go:75-78 | on success replaces the desired resources; on failure returns the error and changes nothing |
| Responses.Response.SetDesiredCompositeResource | functions/go-encryption/fn.go:86-89 | on success sets the desired XR; on failure returns the error and changes nothing |
| FunctionProperties.EarlyExitIsSingleFatal | functions/go-encryption/fn.go:34-56 | a failure before the defer is registered gives exactly one fatal result, no condition, and the request's desired state unchanged |
| FunctionProperties.MissingProtectionLevelIsFatal | functions/go-encryption/fn.go:52-56 | an absent or empty protectionLevel gives exactly the one fatal validation result and nothing else |
| FunctionProperties.CompletedInvocation | functions/go-encryption/fn.go:58-113 | when the deferred closure completes, the desired resources are the prior ones with "cryptokey" set to the synthesised key and every other key unchanged, the desired XR is the observed one with status.dummy = "cool-status", and no result is fatal |
| FunctionProperties.FatalIffFailure | functions/go-encryption/fn.go:34-90 | a response has a fatal result exactly when validation or a step of the deferred closure failed |
| FunctionProperties.GateSignals | functions/go-encryption/fn.go:115-129 | after validation, the waiting result targeted at XR and claim is present exactly when "cryptokey" is not observed; the conditions are the single FunctionSuccess/True/Success condition with message "Function completed successfully" when it is observed, and none otherwise |
| FunctionProperties.FinalizeFailureAppendsFatal | functions/go-encryption/fn.go:59-90 | a failing deferred step appends exactly one fatal result after the gate's result and keeps the gate's condition |
| FunctionProperties.LateFailureKeepsMergedResources | functions/go-encryption/fn.go:75-89 | if setting the status or the composite fails, the response has a fatal result, the merged desired resources, and the request's desired XR |
| FunctionProperties.ObservationOnlyChangesSignal | functions/go-encryption/fn.go:113-121 | two invocations that differ only in the observed resources assert the same desired resources and desired XR |
| FunctionProperties.ScenarioWaiting | functions/go-encryption/fn.go:92-121 | for XR db1 with protection level SOFTWARE and nothing observed: one waiting result, no condition, and a desired key "db1-encryption" with level SOFTWARE, the symmetric algorithm and policies ["*"] |
| FunctionProperties.ScenarioSuccess | functions/go-encryption/fn.go:113-131 | once "cryptokey" is observed: no results, the single success condition, and the same desired resources as the first pass |
| FunctionProperties.ScenarioMissingProtectionLevel | functions/go-encryption/fn.go:52-56 | an XR without protectionLevel gives one fatal result, no condition, and no desired state |

## Left out

- The gRPC transport, `context.Context`, the request tag, logging and `response.DefaultTTL`: they do not affect the outcome.
- `convertViaJSON` and the SDK getters and setters are not modelled internally. `Sdk` states whether each call succeeds and gives its error text. A successful conversion keeps the fields the function reads.
- Fatal messages carry the prefix written in the code and the library's error text. The exact `%w` wrapping of error chains is not modelled.
- Result and condition builders (`TargetCompositeAndClaim`, `WithMessage`) are folded into the call that creates the entry.
- If an SDK setter fails after a partial write, that partial write is not modelled: a failed setter leaves the response unchanged.
- RunFunction: an XR that passes validation but has no `metadata.name` makes the code dereference a nil pointer at line 92 and panic. The model requires a name in that case and does not model the panic.
- The generated schema packages are reduced to the fields the function uses. The XR's status is a flat map of fields.
