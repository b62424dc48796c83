/**
 * The data the composition function reads: the RunFunctionRequest fields it uses,
 * the typed view of the XR, composed resources, and the outcome of each SDK or
 * JSON-conversion call it makes, which is supplied rather than computed.
 */
module Model {
  import opened Wrappers
  import opened CryptoKeys

  /** The logical name under which the key is composed and observed. */
  const CryptoKeyName: string := "cryptokey"

  /** The observed composite resource (XR), reduced to the fields the function touches. */
  datatype Composite = Composite(
    name: Option<string>,             // metadata.name
    protectionLevel: Option<string>,  // spec.protectionLevel
    status: map<string, string>)      // status.<field>

  /** The typed XEncryptionKey view produced by converting the XR. */
  datatype XEncryptionKey = XEncryptionKey(name: Option<string>, protectionLevel: Option<string>)

  /** A composed resource: a CryptoKey this function produced, or any other resource. */
  datatype Composed = CryptoKeyResource(key: CryptoKey) | OtherResource(document: string)

  datatype Request = Request(
    observedComposite: Composite,
    observedResources: map<string, Composed>,
    desiredComposite: Option<Composite>,
    desiredResources: map<string, Composed>)

  /**
   * How each fallible library call of one invocation turns out: None when it
   * succeeds, Some(error text) when it fails. convertErrors maps the name of a
   * desired object to the error its conversion to unstructured form returns.
   */
  datatype Sdk = Sdk(
    getCompositeError: Option<string>,  // request.GetObservedCompositeResource
    getObservedError: Option<string>,   // request.GetObservedComposedResources
    convertXrError: Option<string>,     // convertViaJSON into XEncryptionKey
    getDesiredError: Option<string>,    // request.GetDesiredComposedResources
    convertErrors: map<string, string>, // convertViaJSON into composed.Unstructured
    setDesiredError: Option<string>,    // response.SetDesiredComposedResources
    setStatusError: Option<string>,     // Unstructured.SetValue("status.dummy", ...)
    setCompositeError: Option<string>)  // response.SetDesiredCompositeResource

  /** An invocation in which every library call succeeds. */
  const NoFailures: Sdk := Sdk(None, None, None, None, map[], None, None, None)

  /** The typed view of an XR; the JSON round trip keeps both fields read later. */
  function ToXEncryptionKey(xr: Composite): XEncryptionKey
  {
    XEncryptionKey(xr.name, xr.protectionLevel)
  }

  /** The conversion of a desired CryptoKey to the composed form sent to Crossplane. */
  function ToComposed(key: CryptoKey): Composed
  {
    CryptoKeyResource(key)
  }
}
