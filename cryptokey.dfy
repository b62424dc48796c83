/**
 * The GCP KMS CryptoKey managed resource (kms.gcp.upbound.io/v1beta2) that the
 * composition function asks Crossplane to create, and its synthesis from the XR.
 * Only the fields the function sets are modelled; each is always present.
 */
module CryptoKeys {
  import opened Wrappers

  const ApiVersion: string := "kms.gcp.upbound.io/v1beta2"
  const Kind: string := "CryptoKey"
  const Algorithm: string := "GOOGLE_SYMMETRIC_ENCRYPTION"
  /** The management-policy list meaning "fully managed by Crossplane". */
  const FullyManaged: seq<string> := ["*"]
  /** Appended to the XR name to name the key. */
  const NameSuffix: string := "-encryption"

  datatype DeletionPolicy = Delete | Orphan

  datatype ObjectMeta = ObjectMeta(name: string)

  datatype VersionTemplate = VersionTemplate(algorithm: string, protectionLevel: string)

  datatype ForProvider = ForProvider(versionTemplate: VersionTemplate)

  datatype CryptoKeySpec = CryptoKeySpec(
    deletionPolicy: DeletionPolicy,
    forProvider: ForProvider,
    managementPolicies: seq<string>)

  datatype CryptoKey = CryptoKey(
    apiVersion: string,
    kind: string,
    metadata: ObjectMeta,
    spec: CryptoKeySpec)

  /** The name given to the key composed for the XR called xrName. */
  function KeyName(xrName: string): string
  {
    xrName + NameSuffix
  }

  predicate HasNameSuffix(keyName: string)
  {
    |NameSuffix| <= |keyName| && keyName[|keyName| - |NameSuffix|..] == NameSuffix
  }

  /** The XR name a key name was derived from, when it has the derived form. */
  function XrNameOf(keyName: string): Option<string>
  {
    if HasNameSuffix(keyName) then Some(keyName[..|keyName| - |NameSuffix|]) else None
  }

  /** Stripping the suffix recovers the XR name. */
  lemma XrNameOfKeyName(xrName: string)
    ensures XrNameOf(KeyName(xrName)) == Some(xrName)
  {
  }

  /** Every name XrNameOf accepts is the key name of the XR name it returns. */
  lemma KeyNameOfXrName(keyName: string, xrName: string)
    requires XrNameOf(keyName) == Some(xrName)
    ensures KeyName(xrName) == keyName
  {
  }

  /** Distinct XRs get distinct key names, so the host can tell their keys apart. */
  lemma {:induction false} KeyNameInjective(a: string, b: string)
    requires KeyName(a) == KeyName(b)
    ensures a == b
  {
    XrNameOfKeyName(a);
    XrNameOfKeyName(b);
  }

  /**
   * The XR name and protection level a key was synthesised for, or None when the
   * key does not have the shape Synthesize gives every key.
   */
  function Origin(key: CryptoKey): Option<(string, string)>
  {
    var template := key.spec.forProvider.versionTemplate;
    if key.apiVersion == ApiVersion && key.kind == Kind
       && key.spec.deletionPolicy == Delete
       && template.algorithm == Algorithm
       && key.spec.managementPolicies == FullyManaged
       && XrNameOf(key.metadata.name).Some?
    then Some((XrNameOf(key.metadata.name).value, template.protectionLevel))
    else None
  }

  /**
   * The key composed for an XR: named after the XR, with its protection level copied
   * verbatim and the fixed apiVersion, kind, algorithm, deletion policy and
   * management policies. Origin inverts it.
   */
  function Synthesize(xrName: string, protectionLevel: string): (key: CryptoKey)
    ensures Origin(key) == Some((xrName, protectionLevel))
  {
    XrNameOfKeyName(xrName);
    CryptoKey(
      ApiVersion,
      Kind,
      ObjectMeta(KeyName(xrName)),
      CryptoKeySpec(
        Delete,
        ForProvider(VersionTemplate(Algorithm, protectionLevel)),
        FullyManaged))
  }

  /** Synthesize reaches every key that has its shape: Origin and Synthesize are inverse. */
  lemma SynthesizeOrigin(key: CryptoKey)
    requires Origin(key).Some?
    ensures Synthesize(Origin(key).value.0, Origin(key).value.1) == key
  {
  }

  /** Different inputs give different keys. */
  lemma SynthesizeInjective(n1: string, p1: string, n2: string, p2: string)
    requires Synthesize(n1, p1) == Synthesize(n2, p2)
    ensures n1 == n2 && p1 == p2
  {
  }
}
