/**
 * The composition function's RunFunction: validate the XR, synthesise a CryptoKey,
 * gate success on the key being observed, and, on every exit after validation,
 * merge the key into the desired state and stamp the XR's status.
 *
 * Decode, Gate, Assemble and Expected state what one invocation returns; the
 * methods MergeDesired, Finalize and RunFunction perform it step by step and are
 * proved to return exactly that.
 */
module EncryptionFunction {
  import opened Wrappers
  import opened CryptoKeys
  import opened Model
  import opened Responses

  const WaitingMessage: string := "waiting for crpytokey to be created"
  const SuccessType: string := "FunctionSuccess"
  const SuccessReason: string := "Success"
  const SuccessMessage: string := "Function completed successfully"
  /** The status field the deferred step sets on the XR, and its value. */
  const StatusField: string := "dummy"
  const StatusValue: string := "cool-status"
  /** fmt.Errorf("missing protectionLevel %w", nil): Go renders the nil operand this way. */
  const MissingProtectionLevelMessage: string := "missing protectionLevel %!w(<nil>)"

  const WaitingResult: Result := Result(SeverityNormal, WaitingMessage, TargetCompositeAndClaim)
  const SuccessCondition: Condition :=
    Condition(SuccessType, StatusTrue, SuccessReason, Some(SuccessMessage), TargetCompositeAndClaim)

  /** A protection level the function accepts: present and not empty. */
  predicate ValidProtectionLevel(protectionLevel: Option<string>)
  {
    protectionLevel.Some? && protectionLevel.value != ""
  }

  /**
   * Reading the XR and the observed resources, converting the XR and validating
   * spec.protectionLevel: the typed XR, or the message of the first failure.
   */
  function Decode(req: Request, sdk: Sdk): (r: Checked<XEncryptionKey>)
    ensures r.Ok? ==> r.value.name == req.observedComposite.name
    ensures r.Ok? ==> r.value.protectionLevel == req.observedComposite.protectionLevel
    ensures r.Ok? <==> sdk.getCompositeError.None? && sdk.getObservedError.None?
                       && sdk.convertXrError.None? && ValidProtectionLevel(req.observedComposite.protectionLevel)
  {
    if sdk.getCompositeError.Some? then Fail("cannot get XR " + sdk.getCompositeError.value)
    else if sdk.getObservedError.Some? then Fail("cannot get observed resources: " + sdk.getObservedError.value)
    else if sdk.convertXrError.Some? then Fail("cannot convert xr: " + sdk.convertXrError.value)
    else
      var xr := ToXEncryptionKey(req.observedComposite);
      if !ValidProtectionLevel(xr.protectionLevel) then Fail(MissingProtectionLevelMessage)
      else Ok(xr)
  }

  /**
   * What the source demands of its caller: an XR that passes validation has a
   * metadata.name, which the synthesis dereferences.
   */
  predicate Named(req: Request, sdk: Sdk)
  {
    Decode(req, sdk).Ok? ==> req.observedComposite.name.Some?
  }

  /** The key synthesised for a request that passed validation. */
  function KeyFor(req: Request, sdk: Sdk): CryptoKey
    requires Named(req, sdk) && Decode(req, sdk).Ok?
  {
    Synthesize(req.observedComposite.name.value, req.observedComposite.protectionLevel.value)
  }

  /** The XR with the placeholder status field set. */
  function Stamp(xr: Composite): Composite
  {
    xr.(status := xr.status[StatusField := StatusValue])
  }

  /** The convergence gate: wait until Crossplane observes the key, then report success. */
  function Gate(reply: Reply, observed: map<string, Composed>): Reply
  {
    if CryptoKeyName !in observed then reply.AddResult(WaitingResult)
    else reply.AddCondition(SuccessCondition)
  }

  /**
   * The deferred step for a local desired map holding only key: merge it into the
   * request's desired resources, then stamp and emit the XR; the first failing call
   * appends a fatal result and ends the step.
   */
  function Assemble(reply: Reply, req: Request, sdk: Sdk, key: CryptoKey): Reply
  {
    if sdk.getDesiredError.Some? then
      reply.AddResult(FatalResult("cannot get desired resources: " + sdk.getDesiredError.value))
    else if CryptoKeyName in sdk.convertErrors then
      reply.AddResult(FatalResult("cannot convert " + CryptoKeyName + " to unstructured "
                                  + sdk.convertErrors[CryptoKeyName]))
    else if sdk.setDesiredError.Some? then
      reply.AddResult(FatalResult("cannot set desired resources: " + sdk.setDesiredError.value))
    else
      var merged := reply.(desiredResources := req.desiredResources[CryptoKeyName := ToComposed(key)]);
      if sdk.setStatusError.Some? then
        merged.AddResult(FatalResult("cannot set status " + sdk.setStatusError.value))
      else if sdk.setCompositeError.Some? then
        merged.AddResult(FatalResult("cannot set composite " + sdk.setCompositeError.value))
      else
        merged.(desiredComposite := Some(Stamp(req.observedComposite)))
  }

  /** The response one invocation returns. */
  function Expected(req: Request, sdk: Sdk): Reply
    requires Named(req, sdk)
  {
    match Decode(req, sdk)
    case Fail(message) => Initial(req).AddResult(FatalResult(message))
    case Ok(_) => Assemble(Gate(Initial(req), req.observedResources), req, sdk, KeyFor(req, sdk))
  }

  /**
   * The loop of the deferred step: convert each local desired object and put it into
   * the desired resources under its name, stopping at the first object whose
   * conversion fails. Objects are taken in no fixed order, as Go ranges over a map.
   */
  method MergeDesired(prior: map<string, Composed>, local: map<string, CryptoKey>, unconvertible: set<string>)
    returns (merged: map<string, Composed>, failed: Option<string>)
    ensures failed.None? <==> local.Keys !! unconvertible
    ensures failed.Some? ==> failed.value in local && failed.value in unconvertible
    ensures failed.None? ==> merged.Keys == prior.Keys + local.Keys
    ensures failed.None? ==> forall name :: name in local ==> merged[name] == ToComposed(local[name])
    ensures failed.None? ==> forall name :: name in prior && name !in local ==> merged[name] == prior[name]
  {
    merged, failed := prior, None;
    var todo := local.Keys;
    while todo != {}
      invariant todo <= local.Keys
      invariant (local.Keys - todo) !! unconvertible
      invariant merged.Keys == prior.Keys + (local.Keys - todo)
      invariant forall name :: name in local && name !in todo ==> merged[name] == ToComposed(local[name])
      invariant forall name :: name in prior && (name !in local || name in todo) ==> merged[name] == prior[name]
      decreases todo
    {
      var name :| name in todo;
      if name in unconvertible {
        failed := Some(name);
        return;
      }
      merged := merged[name := ToComposed(local[name])];
      todo := todo - {name};
    }
  }

  /**
   * The closure deferred once validation has passed, run on each later exit.
   * desiredComposed is the function's local desired map, which then holds the key.
   */
  method Finalize(rsp: Response, req: Request, sdk: Sdk, desiredComposed: map<string, CryptoKey>, observedComposite: Composite)
    requires desiredComposed.Keys == {CryptoKeyName}
    requires observedComposite == req.observedComposite
    modifies rsp
    ensures rsp.Value() == Assemble(old(rsp.Value()), req, sdk, desiredComposed[CryptoKeyName])
  {
    if sdk.getDesiredError.Some? {
      rsp.Fatal("cannot get desired resources: " + sdk.getDesiredError.value);
      return;
    }
    var desiredComposedResources := req.desiredResources;
    var merged, failed := MergeDesired(desiredComposedResources, desiredComposed, sdk.convertErrors.Keys);
    if failed.Some? {
      rsp.Fatal("cannot convert " + failed.value + " to unstructured " + sdk.convertErrors[failed.value]);
      return;
    }
    var err := rsp.SetDesiredComposedResources(merged, sdk.setDesiredError);
    if err.Some? {
      rsp.Fatal("cannot set desired resources: " + err.value);
      return;
    }

    if sdk.setStatusError.Some? {
      rsp.Fatal("cannot set status " + sdk.setStatusError.value);
      return;
    }
    var xr := Stamp(observedComposite);
    err := rsp.SetDesiredCompositeResource(xr, sdk.setCompositeError);
    if err.Some? {
      rsp.Fatal("cannot set composite " + err.value);
      return;
    }
  }

  /** RunFunction: one invocation of the composition function. */
  method RunFunction(req: Request, sdk: Sdk) returns (rsp: Response)
    requires Named(req, sdk)
    ensures rsp.Value() == Expected(req, sdk)
  {
    rsp := new Response.To(req);

    if sdk.getCompositeError.Some? {
      rsp.Fatal("cannot get XR " + sdk.getCompositeError.value);
      return;
    }
    var observedComposite := req.observedComposite;

    if sdk.getObservedError.Some? {
      rsp.Fatal("cannot get observed resources: " + sdk.getObservedError.value);
      return;
    }
    var observedComposed := req.observedResources;

    if sdk.convertXrError.Some? {
      rsp.Fatal("cannot convert xr: " + sdk.convertXrError.value);
      return;
    }
    var xr := ToXEncryptionKey(observedComposite);

    var protectionLevel := xr.protectionLevel;
    if protectionLevel.None? || protectionLevel.value == "" {
      rsp.Fatal(MissingProtectionLevelMessage);
      return;
    }

    // From here on every exit runs Finalize, the deferred closure.
    var cryptoKey := Synthesize(xr.name.value, protectionLevel.value);
    var desiredComposed := map[CryptoKeyName := cryptoKey];

    if CryptoKeyName !in observedComposed {
      rsp.Normal(WaitingMessage, TargetCompositeAndClaim);
      Finalize(rsp, req, sdk, desiredComposed, observedComposite);
      return;
    }

    rsp.ConditionTrue(SuccessType, SuccessReason, Some(SuccessMessage), TargetCompositeAndClaim);
    Finalize(rsp, req, sdk, desiredComposed, observedComposite);
  }
}
