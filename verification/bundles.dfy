/**
 Key bundles: the files one catalog entry owns, when a bundle counts as
 complete, and what provisioning one entry, or a whole catalog, does to the
 files on disk.

 The file system is a map from path to an abstract artifact; a path exists
 when it is a key of the map. Paths under the certificate directory are that
 directory's name, a slash and the file name; all other paths are relative to
 the working directory.
 */
module Bundles {
  import opened Certificates

  const RsaPlatformKeySize: nat := 4096
  const RsaApexKeySize: nat := 4096

  /** The one apex whose public key goes to the legacy `.pubkey` file. */
  const LegacyPublicKeyApex := "com.android.vndk"

  /** What a file holds, abstractly. */
  datatype Artifact =
    | PrivateKeyPem(key: RsaKey)
    | CertificatePem(certificate: Certificate)
    | PrivateKeyPkcs8(key: RsaKey)
    | AvbPublicKey(key: RsaKey)

  type Files = map<string, Artifact>

  /** A catalog entry: a platform key or an apex key, identified by name. */
  datatype Entry = Platform(name: string) | Apex(name: string)

  /** The paths a platform generator returns. */
  datatype PlatformBundle = PlatformBundle(privateKeyPem: string, x509Pem: string, pk8: string)

  /** The paths an apex generator returns; both public-key names are always reported. */
  datatype ApexBundle = ApexBundle(
    privateKeyPem: string, x509Pem: string, pk8: string, avbPublicKey: string, publicKey: string)

  function PlatformPaths(certsDir: string, cert: string): PlatformBundle {
    PlatformBundle(certsDir + "/" + cert + ".pem", cert + ".x509.pem", cert + ".pk8")
  }

  function ApexPaths(apex: string): ApexBundle {
    ApexBundle(
      apex + ".pem",
      apex + ".certificate.override.x509.pem",
      apex + ".certificate.override.pk8",
      apex + ".avbpubkey",
      apex + ".pubkey")
  }

  /** Where the extracted public key of an apex is written. */
  function PublicKeyPath(apex: string): string {
    if apex == LegacyPublicKeyApex then ApexPaths(apex).publicKey else ApexPaths(apex).avbPublicKey
  }

  function KeySize(e: Entry): nat {
    if e.Platform? then RsaPlatformKeySize else RsaApexKeySize
  }

  function KeyPath(certsDir: string, e: Entry): string {
    match e
    case Platform(cert) => PlatformPaths(certsDir, cert).privateKeyPem
    case Apex(apex) => ApexPaths(apex).privateKeyPem
  }

  function CertPath(certsDir: string, e: Entry): string {
    match e
    case Platform(cert) => PlatformPaths(certsDir, cert).x509Pem
    case Apex(apex) => ApexPaths(apex).x509Pem
  }

  function Pk8Path(certsDir: string, e: Entry): string {
    match e
    case Platform(cert) => PlatformPaths(certsDir, cert).pk8
    case Apex(apex) => ApexPaths(apex).pk8
  }

  /** The paths a regeneration of the entry writes. */
  function Written(certsDir: string, e: Entry): set<string> {
    {KeyPath(certsDir, e), CertPath(certsDir, e), Pk8Path(certsDir, e)}
    + (if e.Apex? then {PublicKeyPath(e.name)} else {})
  }

  /** The paths that provisioning the entry reads or writes. */
  function Footprint(certsDir: string, e: Entry): (fp: set<string>)
    ensures Written(certsDir, e) <= fp
  {
    match e
    case Platform(_) => Written(certsDir, e)
    case Apex(apex) => Written(certsDir, e) + {ApexPaths(apex).avbPublicKey, ApexPaths(apex).publicKey}
  }

  /**
   A platform bundle is complete when its three files exist; an apex bundle when
   its three files exist and at least one of its two public-key files does.
   */
  predicate Complete(files: Files, certsDir: string, e: Entry) {
    && KeyPath(certsDir, e) in files
    && CertPath(certsDir, e) in files
    && Pk8Path(certsDir, e) in files
    && (e.Apex? ==> ApexPaths(e.name).publicKey in files || ApexPaths(e.name).avbPublicKey in files)
  }

  function ExpectedCertificate(e: Entry, key: RsaKey): Certificate {
    match e
    case Platform(_) => SelfSignedCertificate(PlatformSubject(), key)
    case Apex(apex) => SelfSignedCertificate(ApexSubject(apex), key)
  }

  /** The files of a freshly generated bundle, in the order they are written. */
  function FreshBundle(certsDir: string, e: Entry, key: RsaKey): map<string, Artifact> {
    match e
    case Platform(_) =>
      map[KeyPath(certsDir, e) := PrivateKeyPem(key)]
         [CertPath(certsDir, e) := CertificatePem(ExpectedCertificate(e, key))]
         [Pk8Path(certsDir, e) := PrivateKeyPkcs8(key)]
    case Apex(apex) =>
      map[KeyPath(certsDir, e) := PrivateKeyPem(key)]
         [PublicKeyPath(apex) := AvbPublicKey(key)]
         [CertPath(certsDir, e) := CertificatePem(ExpectedCertificate(e, key))]
         [Pk8Path(certsDir, e) := PrivateKeyPkcs8(key)]
  }

  /**
   A bundle whose files all belong to one key: the private key in PEM form, a
   certificate for that key with the entry's subject, the same key in PKCS8
   form and, for an apex, its public key at the path chosen by the apex name.
   */
  predicate Consistent(files: Files, certsDir: string, e: Entry) {
    && KeyPath(certsDir, e) in files
    && files[KeyPath(certsDir, e)].PrivateKeyPem?
    && var key := files[KeyPath(certsDir, e)].key;
    && key.bits == KeySize(e)
    && CertPath(certsDir, e) in files
    && files[CertPath(certsDir, e)] == CertificatePem(ExpectedCertificate(e, key))
    && Pk8Path(certsDir, e) in files
    && files[Pk8Path(certsDir, e)] == PrivateKeyPkcs8(key)
    && (e.Apex? ==> PublicKeyPath(e.name) in files && files[PublicKeyPath(e.name)] == AvbPublicKey(key))
  }

  /**
   Provisioning one entry: a complete bundle is left alone; an incomplete one
   is regenerated entirely with a new key made from `material`. Lemma
   ProvisionSpec states what this does to the files.
   */
  function Provision(files: Files, certsDir: string, e: Entry, material: nat): Files {
    if Complete(files, certsDir, e) then files
    else files + FreshBundle(certsDir, e, RsaKey(KeySize(e), material))
  }

  /**
   After provisioning, the bundle is complete. A bundle complete beforehand is
   left alone; otherwise exactly the paths a regeneration writes are added.
   No file is removed and every file outside those paths keeps its contents.
   */
  lemma ProvisionSpec(files: Files, certsDir: string, e: Entry, material: nat)
    ensures Complete(Provision(files, certsDir, e, material), certsDir, e)
    ensures Complete(files, certsDir, e) ==> Provision(files, certsDir, e, material) == files
    ensures Provision(files, certsDir, e, material).Keys
         == files.Keys + (if Complete(files, certsDir, e) then {} else Written(certsDir, e))
    ensures forall p :: p in files && p !in Written(certsDir, e) ==> Provision(files, certsDir, e, material)[p] == files[p]
  {
    if !Complete(files, certsDir, e) {
      FreshBundleWritesItsPaths(certsDir, e, RsaKey(KeySize(e), material));
    }
  }

  /** A generated bundle occupies exactly the paths a regeneration writes, and these complete it. */
  lemma FreshBundleWritesItsPaths(certsDir: string, e: Entry, key: RsaKey)
    ensures FreshBundle(certsDir, e, key).Keys == Written(certsDir, e)
    ensures forall files: Files :: Written(certsDir, e) <= files.Keys ==> Complete(files, certsDir, e)
  {
  }

  /** Writing the platform files one by one, in the generator's order, adds the generated bundle. */
  lemma PlatformWritesInOrder(files: Files, certsDir: string, cert: string, key: RsaKey)
    ensures var b := PlatformPaths(certsDir, cert);
      files[b.privateKeyPem := PrivateKeyPem(key)]
           [b.x509Pem := CertificatePem(SelfSignedCertificate(PlatformSubject(), key))]
           [b.pk8 := PrivateKeyPkcs8(key)]
      == files + FreshBundle(certsDir, Platform(cert), key)
  {
  }

  /** Writing the apex files one by one, in the generator's order, adds the generated bundle. */
  lemma ApexWritesInOrder(files: Files, certsDir: string, apex: string, key: RsaKey)
    ensures var b := ApexPaths(apex);
      files[b.privateKeyPem := PrivateKeyPem(key)]
           [PublicKeyPath(apex) := AvbPublicKey(key)]
           [b.x509Pem := CertificatePem(SelfSignedCertificate(ApexSubject(apex), key))]
           [b.pk8 := PrivateKeyPkcs8(key)]
      == files + FreshBundle(certsDir, Apex(apex), key)
  {
  }

  /** The three paths of a platform bundle are distinct, whatever the names. */
  lemma PlatformPathsDistinct(certsDir: string, cert: string)
    ensures PlatformPaths(certsDir, cert).privateKeyPem != PlatformPaths(certsDir, cert).x509Pem
    ensures PlatformPaths(certsDir, cert).privateKeyPem != PlatformPaths(certsDir, cert).pk8
    ensures PlatformPaths(certsDir, cert).x509Pem != PlatformPaths(certsDir, cert).pk8
  {
    var b := PlatformPaths(certsDir, cert);
    // The private key path has one more slash than the certificate path.
    SlashCount(certsDir, cert);
    // The last characters tell the certificate and PKCS8 paths apart from each other and from the key.
    LastChar(certsDir + "/" + cert, ".pem");
    LastChar(cert, ".x509.pem");
    LastChar(cert, ".pk8");
  }

  lemma SlashCount(certsDir: string, cert: string)
    ensures multiset(certsDir + "/" + cert + ".pem")['/'] == multiset(certsDir)['/'] + 1 + multiset(cert)['/']
    ensures multiset(cert + ".x509.pem")['/'] == multiset(cert)['/']
  {
    assert multiset(".pem")['/'] == 0;
    assert multiset(".x509.pem")['/'] == 0;
  }

  lemma LastChar(s: string, suffix: string)
    requires suffix != []
    ensures (s + suffix)[|s + suffix| - 1] == suffix[|suffix| - 1]
  {
  }

  /** The five paths of an apex bundle are distinct: their suffixes differ in length. */
  lemma ApexPathsDistinct(apex: string)
    ensures |{ApexPaths(apex).privateKeyPem, ApexPaths(apex).x509Pem, ApexPaths(apex).pk8,
              ApexPaths(apex).avbPublicKey, ApexPaths(apex).publicKey}| == 5
  {
    var b := ApexPaths(apex);
    assert |b.privateKeyPem| == |apex| + 4;
    assert |b.x509Pem| == |apex| + 30;
    assert |b.pk8| == |apex| + 25;
    assert |b.avbPublicKey| == |apex| + 10;
    assert |b.publicKey| == |apex| + 7;
  }

  /** Extraction writes `.pubkey` for the legacy apex only and `.avbpubkey` for every other. */
  lemma PublicKeyRouting(apex: string)
    ensures apex == LegacyPublicKeyApex ==> PublicKeyPath(apex) == apex + ".pubkey"
    ensures apex != LegacyPublicKeyApex ==> PublicKeyPath(apex) == apex + ".avbpubkey"
  {
  }

  /** A consistent bundle passes the completeness check. */
  lemma ConsistentIsComplete(files: Files, certsDir: string, e: Entry)
    requires Consistent(files, certsDir, e)
    ensures Complete(files, certsDir, e)
  {
  }

  /**
   Regeneration rewrites every file of the bundle with one new key: no partial
   repair is possible, whatever was there before.
   */
  lemma ProvisionRegenerates(files: Files, certsDir: string, e: Entry, material: nat)
    requires !Complete(files, certsDir, e)
    ensures Consistent(Provision(files, certsDir, e, material), certsDir, e)
    ensures Provision(files, certsDir, e, material)[KeyPath(certsDir, e)] == PrivateKeyPem(RsaKey(KeySize(e), material))
  {
    var key := RsaKey(KeySize(e), material);
    var r := Provision(files, certsDir, e, material);
    assert r == files + FreshBundle(certsDir, e, key);
    FreshBundleConsistent(certsDir, e, key);
    var k, c, p := KeyPath(certsDir, e), CertPath(certsDir, e), Pk8Path(certsDir, e);
    assert r[k] == PrivateKeyPem(key);
    assert r[c] == CertificatePem(ExpectedCertificate(e, key));
    assert r[p] == PrivateKeyPkcs8(key);
    if e.Apex? {
      assert r[PublicKeyPath(e.name)] == AvbPublicKey(key);
    }
  }

  /** A freshly generated bundle holds one key in every file. */
  lemma FreshBundleConsistent(certsDir: string, e: Entry, key: RsaKey)
    ensures key.bits == KeySize(e) ==> Consistent(FreshBundle(certsDir, e, key), certsDir, e)
    ensures FreshBundle(certsDir, e, key)[KeyPath(certsDir, e)] == PrivateKeyPem(key)
    ensures FreshBundle(certsDir, e, key)[CertPath(certsDir, e)] == CertificatePem(ExpectedCertificate(e, key))
    ensures FreshBundle(certsDir, e, key)[Pk8Path(certsDir, e)] == PrivateKeyPkcs8(key)
    ensures e.Apex? ==> FreshBundle(certsDir, e, key)[PublicKeyPath(e.name)] == AvbPublicKey(key)
  {
    var k, c, p := KeyPath(certsDir, e), CertPath(certsDir, e), Pk8Path(certsDir, e);
    match e
    case Platform(cert) =>
      PlatformPathsDistinct(certsDir, cert);
    case Apex(apex) =>
      ApexPathsDistinct(apex);
      var pub := PublicKeyPath(apex);
      assert pub != k && pub != c && pub != p;
  }

  /** Provisioning an entry a second time writes nothing, whatever new key material it is given. */
  lemma ProvisionIdempotent(files: Files, certsDir: string, e: Entry, m1: nat, m2: nat)
    ensures Provision(Provision(files, certsDir, e, m1), certsDir, e, m2) == Provision(files, certsDir, e, m1)
  {
    ProvisionSpec(files, certsDir, e, m1);
  }

  /** Two file maps that agree on the entry's footprint. */
  predicate AgreeOn(f: Files, g: Files, paths: set<string>) {
    forall p :: p in paths ==> (p in f <==> p in g) && (p in f ==> f[p] == g[p])
  }

  /** Completeness and consistency of an entry depend only on the files of its footprint. */
  lemma FootprintDecides(f: Files, g: Files, certsDir: string, e: Entry)
    requires AgreeOn(f, g, Footprint(certsDir, e))
    ensures Complete(f, certsDir, e) == Complete(g, certsDir, e)
    ensures Consistent(f, certsDir, e) == Consistent(g, certsDir, e)
  {
    assert KeyPath(certsDir, e) in Footprint(certsDir, e);
    assert CertPath(certsDir, e) in Footprint(certsDir, e);
    assert Pk8Path(certsDir, e) in Footprint(certsDir, e);
    if e.Apex? {
      assert PublicKeyPath(e.name) in Footprint(certsDir, e);
      assert ApexPaths(e.name).publicKey in Footprint(certsDir, e);
      assert ApexPaths(e.name).avbPublicKey in Footprint(certsDir, e);
    }
  }

  /** Provisioning one entry leaves the files outside its written paths as they were. */
  lemma ProvisionAgreesElsewhere(files: Files, certsDir: string, e: Entry, material: nat, paths: set<string>)
    requires paths !! Written(certsDir, e)
    ensures AgreeOn(files, Provision(files, certsDir, e, material), paths)
  {
    ProvisionSpec(files, certsDir, e, material);
  }

  /**
   Provisioning an entry whose footprint is disjoint from another's does not
   change whether the other is complete, nor whether it is consistent.
   */
  lemma ProvisionKeepsOther(files: Files, certsDir: string, e: Entry, material: nat, other: Entry)
    requires Footprint(certsDir, e) !! Footprint(certsDir, other)
    ensures Complete(Provision(files, certsDir, e, material), certsDir, other) == Complete(files, certsDir, other)
    ensures Consistent(Provision(files, certsDir, e, material), certsDir, other) == Consistent(files, certsDir, other)
  {
    ProvisionAgreesElsewhere(files, certsDir, e, material, Footprint(certsDir, other));
    FootprintDecides(files, Provision(files, certsDir, e, material), certsDir, other);
  }

  /**
   Entries with disjoint footprints can be provisioned in either order with the
   same result: the safety argument for running the generators in parallel.
   */
  lemma ProvisionCommutes(files: Files, certsDir: string, e1: Entry, m1: nat, e2: Entry, m2: nat)
    requires Footprint(certsDir, e1) !! Footprint(certsDir, e2)
    ensures Provision(Provision(files, certsDir, e1, m1), certsDir, e2, m2)
         == Provision(Provision(files, certsDir, e2, m2), certsDir, e1, m1)
  {
    ProvisionInSequence(files, certsDir, e1, m1, e2, m2);
    ProvisionInSequence(files, certsDir, e2, m2, e1, m1);
    UnionCommutes(files, Delta(files, certsDir, e1, m1), Delta(files, certsDir, e2, m2));
  }

  /** Provisioning two entries with disjoint footprints adds what each would add alone. */
  lemma ProvisionInSequence(files: Files, certsDir: string, e1: Entry, m1: nat, e2: Entry, m2: nat)
    requires Footprint(certsDir, e1) !! Footprint(certsDir, e2)
    ensures Provision(Provision(files, certsDir, e1, m1), certsDir, e2, m2)
         == files + Delta(files, certsDir, e1, m1) + Delta(files, certsDir, e2, m2)
  {
    var f1 := Provision(files, certsDir, e1, m1);
    ProvisionKeepsOther(files, certsDir, e1, m1, e2);
    assert Delta(f1, certsDir, e2, m2) == Delta(files, certsDir, e2, m2);
  }

  /** What provisioning adds to the files: nothing, or the whole generated bundle. */
  function Delta(files: Files, certsDir: string, e: Entry, material: nat): (d: map<string, Artifact>)
    ensures d.Keys <= Written(certsDir, e)
    ensures Provision(files, certsDir, e, material) == files + d
  {
    if Complete(files, certsDir, e) then map[] else FreshBundle(certsDir, e, RsaKey(KeySize(e), material))
  }

  lemma UnionCommutes(f: Files, a: map<string, Artifact>, b: map<string, Artifact>)
    requires a.Keys !! b.Keys
    ensures f + a + b == f + b + a
  {
    var x, y := f + a + b, f + b + a;
    assert x.Keys == y.Keys;
    forall p | p in x
      ensures x[p] == y[p]
    {
      if p in a { assert p !in b; } else if p in b { assert p !in a; }
    }
  }

  /** Name uniqueness within each family does not make footprints disjoint. */
  lemma FamilyUniquenessIsNotEnough(certsDir: string)
    ensures !(Footprint(certsDir, Platform("a.certificate.override")) !! Footprint(certsDir, Apex("a")))
  {
    assert CertPath(certsDir, Platform("a.certificate.override")) == CertPath(certsDir, Apex("a"));
  }
}
