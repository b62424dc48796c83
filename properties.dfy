/** What one invocation, and several invocations together, promise. */
module FunctionProperties {
  import opened Wrappers
  import opened CryptoKeys
  import opened Model
  import opened Responses
  import opened EncryptionFunction

  /** Some step of the deferred closure fails. */
  predicate FinalizeFails(sdk: Sdk)
  {
    sdk.getDesiredError.Some? || CryptoKeyName in sdk.convertErrors || sdk.setDesiredError.Some?
    || sdk.setStatusError.Some? || sdk.setCompositeError.Some?
  }

  /**
   * A failure before the deferred closure is registered (reading the XR or the
   * observed resources, converting the XR, or validating protectionLevel) yields
   * one fatal result and nothing else: no condition, and the desired state of the
   * request passed through untouched.
   */
  lemma EarlyExitIsSingleFatal(req: Request, sdk: Sdk)
    requires Decode(req, sdk).Fail?
    ensures Expected(req, sdk).results == [FatalResult(Decode(req, sdk).message)]
    ensures Expected(req, sdk).conditions == []
    ensures Expected(req, sdk).desiredComposite == req.desiredComposite
    ensures Expected(req, sdk).desiredResources == req.desiredResources
  {
  }

  /** An absent or empty protectionLevel is the fatal validation error. */
  lemma MissingProtectionLevelIsFatal(req: Request, sdk: Sdk)
    requires sdk.getCompositeError.None? && sdk.getObservedError.None? && sdk.convertXrError.None?
    requires req.observedComposite.protectionLevel.None? || req.observedComposite.protectionLevel == Some("")
    ensures Expected(req, sdk) == Initial(req).AddResult(FatalResult(MissingProtectionLevelMessage))
  {
  }

  /**
   * When the deferred closure runs to the end, the desired resources are the
   * request's with "cryptokey" set to the synthesised key, every other entry kept,
   * and the desired XR is the observed one with status.dummy set.
   */
  lemma CompletedInvocation(req: Request, sdk: Sdk)
    requires Named(req, sdk) && Decode(req, sdk).Ok? && !FinalizeFails(sdk)
    ensures Expected(req, sdk).desiredResources.Keys == req.desiredResources.Keys + {CryptoKeyName}
    ensures Expected(req, sdk).desiredResources[CryptoKeyName] == ToComposed(KeyFor(req, sdk))
    ensures forall name :: name in req.desiredResources && name != CryptoKeyName ==>
              Expected(req, sdk).desiredResources[name] == req.desiredResources[name]
    ensures Expected(req, sdk).desiredComposite == Some(Stamp(req.observedComposite))
    ensures Expected(req, sdk).desiredComposite.value.status[StatusField] == StatusValue
    ensures !HasFatal(Expected(req, sdk).results)
  {
  }

  /**
   * A response carries a fatal result exactly when validation or a step of the
   * deferred closure failed.
   */
  lemma FatalIffFailure(req: Request, sdk: Sdk)
    requires Named(req, sdk)
    ensures HasFatal(Expected(req, sdk).results) <==> Decode(req, sdk).Fail? || FinalizeFails(sdk)
  {
    var reply := Expected(req, sdk);
    if Decode(req, sdk).Fail? || FinalizeFails(sdk) {
      assert IsFatal(reply.results[|reply.results| - 1]);
    }
  }

  /**
   * The gate: the waiting result is reported exactly when "cryptokey" is not
   * observed, and the FunctionSuccess condition exactly when it is.
   */
  lemma GateSignals(req: Request, sdk: Sdk)
    requires Named(req, sdk) && Decode(req, sdk).Ok?
    ensures WaitingResult in Expected(req, sdk).results <==> CryptoKeyName !in req.observedResources
    ensures Expected(req, sdk).conditions == (if CryptoKeyName in req.observedResources then [SuccessCondition] else [])
  {
  }

  /**
   * A failing step of the deferred closure appends one fatal result after the
   * gate's waiting result or success condition, which stay in the response.
   */
  lemma FinalizeFailureAppendsFatal(req: Request, sdk: Sdk)
    requires Named(req, sdk) && Decode(req, sdk).Ok? && FinalizeFails(sdk)
    ensures var gated := Gate(Initial(req), req.observedResources);
      && |Expected(req, sdk).results| == |gated.results| + 1
      && Expected(req, sdk).results[..|gated.results|] == gated.results
      && IsFatal(Expected(req, sdk).results[|gated.results|])
      && Expected(req, sdk).conditions == gated.conditions
  {
  }

  /**
   * A failure while stamping or emitting the XR comes after the merged resources
   * were set, so the response carries both the fatal result and the merged key.
   */
  lemma LateFailureKeepsMergedResources(req: Request, sdk: Sdk)
    requires Named(req, sdk) && Decode(req, sdk).Ok?
    requires sdk.getDesiredError.None? && CryptoKeyName !in sdk.convertErrors && sdk.setDesiredError.None?
    requires sdk.setStatusError.Some? || sdk.setCompositeError.Some?
    ensures HasFatal(Expected(req, sdk).results)
    ensures Expected(req, sdk).desiredResources == req.desiredResources[CryptoKeyName := ToComposed(KeyFor(req, sdk))]
    ensures Expected(req, sdk).desiredComposite == req.desiredComposite
  {
    var results := Expected(req, sdk).results;
    assert IsFatal(results[|results| - 1]);
  }

  /**
   * What Crossplane has observed decides only the signal: two invocations that
   * differ in the observed resources alone assert the same desired state.
   */
  lemma ObservationOnlyChangesSignal(req: Request, sdk: Sdk, observed: map<string, Composed>)
    requires Named(req, sdk)
    ensures Named(req.(observedResources := observed), sdk)
    ensures Expected(req.(observedResources := observed), sdk).desiredResources == Expected(req, sdk).desiredResources
    ensures Expected(req.(observedResources := observed), sdk).desiredComposite == Expected(req, sdk).desiredComposite
  {
  }

  /** An XR db1 with protection level SOFTWARE, and a request carrying it. */
  function Db1(): Composite
  {
    Composite(Some("db1"), Some("SOFTWARE"), map[])
  }

  function Db1Request(observed: map<string, Composed>): Request
  {
    Request(Db1(), observed, None, map[])
  }

  /** First pass: nothing observed yet, so the key is requested and the XR waits. */
  lemma ScenarioWaiting()
    ensures Expected(Db1Request(map[]), NoFailures).results == [WaitingResult]
    ensures Expected(Db1Request(map[]), NoFailures).conditions == []
    ensures CryptoKeyName in Expected(Db1Request(map[]), NoFailures).desiredResources
    ensures var composed := Expected(Db1Request(map[]), NoFailures).desiredResources[CryptoKeyName];
      && composed.CryptoKeyResource?
      && composed.key.metadata.name == "db1-encryption"
      && composed.key.spec.forProvider.versionTemplate.protectionLevel == "SOFTWARE"
      && composed.key.spec.forProvider.versionTemplate.algorithm == "GOOGLE_SYMMETRIC_ENCRYPTION"
      && composed.key.spec.managementPolicies == ["*"]
  {
  }

  /** Second pass: the key is observed, so success is reported and the same key asserted. */
  lemma ScenarioSuccess(observedKey: Composed)
    ensures var first := Expected(Db1Request(map[]), NoFailures);
      var second := Expected(Db1Request(map[CryptoKeyName := observedKey]), NoFailures);
      && second.results == []
      && second.conditions == [SuccessCondition]
      && second.desiredResources == first.desiredResources
  {
  }

  /** An XR without protectionLevel: exactly one fatal result, nothing else. */
  lemma ScenarioMissingProtectionLevel()
    ensures var rsp := Expected(Request(Db1().(protectionLevel := None), map[], None, map[]), NoFailures);
      && rsp.results == [FatalResult(MissingProtectionLevelMessage)]
      && rsp.conditions == []
      && rsp.desiredResources == map[]
      && rsp.desiredComposite == None
  {
  }
}
