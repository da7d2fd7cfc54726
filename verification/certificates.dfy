/**
 Certificate subjects and the self-signed certificates the key generators build.

 The cryptography itself (RSA key generation, signing, PEM/DER encoding) is
 abstract: a key is a record of its modulus size and an opaque value standing
 for its random material, and a certificate is the record of the fields the
 generators set on it.
 */
module Certificates {

  datatype Option<+T> = None | Some(value: T)

  /** The RDN field names, in the order the generators set them on a subject. */
  const RdnFields: seq<string> := ["C", "ST", "L", "O", "OU", "CN", "emailAddress"]

  /** The default value of each RDN field. */
  const Defaults: map<string, string> := map[
    "C" := "US",
    "ST" := "California",
    "L" := "Mountain View",
    "O" := "Android",
    "OU" := "Android",
    "CN" := "Android",
    "emailAddress" := "android@android.com"
  ]

  /**
   The effective value of one subject field: the override when the override map
   names the field (whatever the field), else the default of one of the seven
   RDN fields, else nothing. An absent override map and an empty one behave alike.
   The source wraps the value in a one-entry dictionary under key 1, which every
   caller unwraps with `[1]`; the model returns the unwrapped value.
   */
  function SubjectParam(param: string, custom: Option<map<string, string>>): (r: Option<string>)
    ensures custom.Some? && param in custom.value ==> r == Some(custom.value[param])
    ensures r.Some? <==> param in RdnFields || (custom.Some? && param in custom.value)
    ensures r.Some? && r.value == "" ==> custom.Some? && param in custom.value
  {
    var table :=
      if custom.Some? && param in custom.value
      then Defaults[param := custom.value[param]]
      else Defaults;
    if param in table then Some(table[param]) else None
  }

  /** The value a generator stores for one field; every RDN field resolves. */
  function Rdn(param: string, custom: Option<map<string, string>>): string
    requires param in RdnFields
  {
    SubjectParam(param, custom).value
  }

  /** An X.509 distinguished name restricted to the seven fields the generators set. */
  datatype DistinguishedName = DistinguishedName(
    c: string, st: string, l: string, o: string, ou: string, cn: string, emailAddress: string)

  /** An RSA key: its modulus size and an opaque value for its random material. */
  datatype RsaKey = RsaKey(bits: nat, material: nat)

  /**
   A certificate as the generators configure it. Validity bounds are offsets in
   seconds from the moment of generation, which the model does not know.
   */
  datatype Certificate = Certificate(
    subject: DistinguishedName,
    issuer: DistinguishedName,
    serialNumber: int,
    notBeforeOffset: int,
    notAfterOffset: int,
    publicKey: RsaKey,
    signingKey: RsaKey,
    digest: string)

  const SecondsPerDay := 24 * 60 * 60
  const ValidityDays := 10000

  /** Issuer equals subject and the certificate is signed with its own key. */
  predicate SelfSignedBy(c: Certificate, key: RsaKey) {
    c.issuer == c.subject && c.publicKey == key && c.signingKey == key
  }

  /** The subject of a platform certificate: every field at its default. */
  function PlatformSubject(): (n: DistinguishedName)
    ensures n == DistinguishedName(
      "US", "California", "Mountain View", "Android", "Android", "Android", "android@android.com")
  {
    DistinguishedName(
      Rdn("C", None), Rdn("ST", None), Rdn("L", None), Rdn("O", None),
      Rdn("OU", None), Rdn("CN", None), Rdn("emailAddress", None))
  }

  /** The subject of an apex certificate: CN is the apex name, the rest at their defaults. */
  function ApexSubject(apex: string): (n: DistinguishedName)
    ensures n.cn == apex
    ensures n == PlatformSubject().(cn := apex)
  {
    DistinguishedName(
      Rdn("C", None), Rdn("ST", None), Rdn("L", None), Rdn("O", None),
      Rdn("OU", None), Rdn("CN", Some(map["CN" := apex])), Rdn("emailAddress", None))
  }

  /**
   The certificate built for a subject and key: serial number 1, valid from the
   moment of generation for 10000 days, self-signed with SHA-256.
   */
  function SelfSignedCertificate(subject: DistinguishedName, key: RsaKey): (c: Certificate)
    ensures c.subject == subject && SelfSignedBy(c, key)
    ensures c.serialNumber == 1 && c.digest == "sha256"
    ensures c.notBeforeOffset == 0 && c.notAfterOffset == 864000000
  {
    Certificate(subject, subject, 1, 0, ValidityDays * SecondsPerDay, key, key, "sha256")
  }

  /** With no override, each of the seven fields resolves to its documented default. */
  lemma DefaultFields()
    ensures SubjectParam("C", None) == Some("US")
    ensures SubjectParam("ST", None) == Some("California")
    ensures SubjectParam("L", None) == Some("Mountain View")
    ensures SubjectParam("O", None) == Some("Android")
    ensures SubjectParam("OU", None) == Some("Android")
    ensures SubjectParam("CN", None) == Some("Android")
    ensures SubjectParam("emailAddress", None) == Some("android@android.com")
  {
  }

  /** An empty override map, or one that does not name the field, changes nothing. */
  lemma OverrideOnlyForNamedField(param: string, custom: map<string, string>)
    requires param !in custom
    ensures SubjectParam(param, Some(custom)) == SubjectParam(param, None)
  {
  }

  /** A name outside the seven fields, with no override for it, resolves to nothing rather than failing. */
  lemma UnknownFieldIsNone(param: string, custom: Option<map<string, string>>)
    requires param !in RdnFields
    requires custom.None? || param !in custom.value
    ensures SubjectParam(param, custom) == None
  {
  }
}
