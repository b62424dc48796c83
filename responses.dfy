/**
 * The RunFunctionResponse the function builds: its results, its conditions and
 * the desired state, and the response-package helpers that change it.
 */
module Responses {
  import opened Wrappers
  import opened Model

  datatype Severity = SeverityFatal | SeverityWarning | SeverityNormal

  /** Who sees a result or condition: the XR only, or the XR and its claim. */
  datatype Target = TargetComposite | TargetCompositeAndClaim

  datatype Result = Result(severity: Severity, message: string, target: Target)

  datatype ConditionStatus = StatusTrue | StatusFalse | StatusUnknown

  datatype Condition = Condition(
    conditionType: string,
    status: ConditionStatus,
    reason: string,
    message: Option<string>,
    target: Target)

  /** The result response.Fatal records for an error. */
  function FatalResult(message: string): Result
  {
    Result(SeverityFatal, message, TargetComposite)
  }

  predicate IsFatal(r: Result)
  {
    r.severity == SeverityFatal
  }

  predicate HasFatal(results: seq<Result>)
  {
    exists i :: 0 <= i < |results| && IsFatal(results[i])
  }

  /** The content of a response, as the host receives it. */
  datatype Reply = Reply(
    results: seq<Result>,
    conditions: seq<Condition>,
    desiredComposite: Option<Composite>,
    desiredResources: map<string, Composed>)
  {
    function AddResult(r: Result): Reply
    {
      this.(results := results + [r])
    }

    function AddCondition(c: Condition): Reply
    {
      this.(conditions := conditions + [c])
    }
  }

  /** A response that nothing has changed yet: it carries the request's desired state. */
  function Initial(req: Request): Reply
  {
    Reply([], [], req.desiredComposite, req.desiredResources)
  }

  /** The response object, changed step by step while the function runs. */
  class Response {
    var results: seq<Result>
    var conditions: seq<Condition>
    var desiredComposite: Option<Composite>
    var desiredResources: map<string, Composed>

    function Value(): Reply
      reads this
    {
      Reply(results, conditions, desiredComposite, desiredResources)
    }

    /** response.To: a response that starts out as a copy of the request's desired state. */
    constructor To(req: Request)
      ensures Value() == Initial(req)
    {
      results := [];
      conditions := [];
      desiredComposite := req.desiredComposite;
      desiredResources := req.desiredResources;
    }

    /** response.Fatal: appends a fatal result for the XR. */
    method Fatal(message: string)
      modifies this
      ensures Value() == old(Value()).AddResult(FatalResult(message))
    {
      results := results + [FatalResult(message)];
    }

    /** response.Normal, with the builder's target applied. */
    method Normal(message: string, target: Target)
      modifies this
      ensures Value() == old(Value()).AddResult(Result(SeverityNormal, message, target))
    {
      results := results + [Result(SeverityNormal, message, target)];
    }

    /** response.ConditionTrue, with the builder's target and message applied. */
    method ConditionTrue(conditionType: string, reason: string, message: Option<string>, target: Target)
      modifies this
      ensures Value() == old(Value()).AddCondition(Condition(conditionType, StatusTrue, reason, message, target))
    {
      conditions := conditions + [Condition(conditionType, StatusTrue, reason, message, target)];
    }

    /**
     * response.SetDesiredComposedResources; failure is the library's outcome for
     * this call and leaves the response as it was.
     */
    method SetDesiredComposedResources(resources: map<string, Composed>, failure: Option<string>)
      returns (err: Option<string>)
      modifies this
      ensures err == failure
      ensures Value() == if failure.None? then old(Value()).(desiredResources := resources) else old(Value())
    {
      err := failure;
      if failure.None? {
        desiredResources := resources;
      }
    }

    /** response.SetDesiredCompositeResource, fallible in the same way. */
    method SetDesiredCompositeResource(xr: Composite, failure: Option<string>)
      returns (err: Option<string>)
      modifies this
      ensures err == failure
      ensures Value() == if failure.None? then old(Value()).(desiredComposite := Some(xr)) else old(Value())
    {
      err := failure;
      if failure.None? {
        desiredComposite := Some(xr);
      }
    }
  }
}
