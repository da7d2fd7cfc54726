/**
 The key generators and the orchestrator, as methods on the working state they
 change: the files that exist and what they hold. Each method is specified by
 the corresponding function of modules Bundles and Catalog, whose properties
 are proved there.
 */
module Generator {
  import opened Certificates
  import opened Bundles
  import opened Catalog

  class Workspace {
    /** The certificate directory, already expanded from the user's home. */
    const certsDir: string
    /** The files that exist, with what each holds. */
    var files: Files

    constructor (certsDir: string, files: Files)
      ensures this.certsDir == certsDir && this.files == files
    {
      this.certsDir := certsDir;
      this.files := files;
    }

    /**
     The external public-key extraction: reads the private key at `keyPath`
     and writes its public key, in the AVB container form, to `outputPath`.
     */
    method ExtractPublicKey(keyPath: string, outputPath: string)
      requires keyPath in files && files[keyPath].PrivateKeyPem?
      modifies this
      ensures files == old(files)[outputPath := AvbPublicKey(old(files)[keyPath].key)]
    {
      files := files[outputPath := AvbPublicKey(files[keyPath].key)];
    }

    /**
     Generates the platform bundle of `cert` unless all three of its files
     exist; `material` stands for the randomness of the new key.
     */
    method GenerateSinglePlatformKey(cert: string, material: nat) returns (bundle: PlatformBundle)
      modifies this
      ensures bundle == PlatformPaths(certsDir, cert)
      ensures files == Provision(old(files), certsDir, Platform(cert), material)
    {
      bundle := PlatformPaths(certsDir, cert);
      if bundle.privateKeyPem !in files || bundle.x509Pem !in files || bundle.pk8 !in files {
        ghost var before := files;
        var key := RsaKey(RsaPlatformKeySize, material);
        files := files[bundle.privateKeyPem := PrivateKeyPem(key)];
        var certificate := SelfSignedCertificate(PlatformSubject(), key);
        files := files[bundle.x509Pem := CertificatePem(certificate)];
        files := files[bundle.pk8 := PrivateKeyPkcs8(key)];
        PlatformWritesInOrder(before, certsDir, cert, key);
      }
    }

    /**
     Generates the apex bundle of `apex` unless its three files exist and one
     of its two public-key files does. The public key goes to `.pubkey` for the
     legacy apex and to `.avbpubkey` for every other.
     */
    method GenerateSingleApexKey(apex: string, material: nat) returns (bundle: ApexBundle)
      modifies this
      ensures bundle == ApexPaths(apex)
      ensures files == Provision(old(files), certsDir, Apex(apex), material)
    {
      bundle := ApexPaths(apex);
      if || bundle.privateKeyPem !in files || bundle.x509Pem !in files || bundle.pk8 !in files
         || (bundle.publicKey !in files && bundle.avbPublicKey !in files)
      {
        ghost var before := files;
        var key := RsaKey(RsaApexKeySize, material);
        files := files[bundle.privateKeyPem := PrivateKeyPem(key)];
        if apex == LegacyPublicKeyApex {
          ExtractPublicKey(bundle.privateKeyPem, bundle.publicKey);
        } else {
          ExtractPublicKey(bundle.privateKeyPem, bundle.avbPublicKey);
        }
        var certificate := SelfSignedCertificate(ApexSubject(apex), key);
        files := files[bundle.x509Pem := CertificatePem(certificate)];
        files := files[bundle.pk8 := PrivateKeyPkcs8(key)];
        ApexWritesInOrder(before, certsDir, apex, key);
      }
    }

    /** Generates the platform keys one after the other, in list order. */
    method GeneratePlatformKeys(keys: seq<string>, material: seq<nat>) returns (results: seq<PlatformBundle>)
      requires |material| == |keys|
      modifies this
      ensures results == PlatformResults(certsDir, keys)
      ensures files == ProvisionAll(old(files), certsDir, PlatformEntries(keys), material)
    {
      ghost var entries := PlatformEntries(keys);
      results := [];
      var i := 0;
      while i < |keys|
        invariant 0 <= i <= |keys|
        invariant results == PlatformResults(certsDir, keys[..i])
        invariant files == ProvisionAll(old(files), certsDir, entries[..i], material[..i])
      {
        ghost var prev := files;
        var bundle := GenerateSinglePlatformKey(keys[i], material[i]);
        PlatformResultsStep(certsDir, keys, i);
        results := results + [bundle];
        ProvisionAllStep(old(files), certsDir, entries, material, i, prev, files);
        i := i + 1;
      }
      assert keys[..i] == keys && entries[..i] == entries && material[..i] == material;
    }

    /** Generates the apex keys one after the other, in list order. */
    method GenerateApexKeys(keys: seq<string>, material: seq<nat>) returns (results: seq<ApexBundle>)
      requires |material| == |keys|
      modifies this
      ensures results == ApexResults(keys)
      ensures files == ProvisionAll(old(files), certsDir, ApexEntries(keys), material)
    {
      ghost var entries := ApexEntries(keys);
      results := [];
      var i := 0;
      while i < |keys|
        invariant 0 <= i <= |keys|
        invariant results == ApexResults(keys[..i])
        invariant files == ProvisionAll(old(files), certsDir, entries[..i], material[..i])
      {
        ghost var prev := files;
        var bundle := GenerateSingleApexKey(keys[i], material[i]);
        ApexResultsStep(keys, i);
        results := results + [bundle];
        ProvisionAllStep(old(files), certsDir, entries, material, i, prev, files);
        i := i + 1;
      }
      assert keys[..i] == keys && entries[..i] == entries && material[..i] == material;
    }

    /**
     Provisions every platform key, then every apex key, and returns one result
     per entry in list order. `platformMaterial[i]` and `apexMaterial[j]` stand
     for the randomness of the keys of the i-th platform and j-th apex entry.
     */
    method GenerateKeys(
      platformKeys: seq<string>, apexKeys: seq<string>,
      platformMaterial: seq<nat>, apexMaterial: seq<nat>)
      returns (platformResults: seq<PlatformBundle>, apexResults: seq<ApexBundle>)
      requires |platformMaterial| == |platformKeys| && |apexMaterial| == |apexKeys|
      modifies this
      ensures platformResults == PlatformResults(certsDir, platformKeys)
      ensures apexResults == ApexResults(apexKeys)
      ensures files == ProvisionAll(old(files), certsDir, CatalogEntries(platformKeys, apexKeys),
                                    platformMaterial + apexMaterial)
    {
      platformResults := GeneratePlatformKeys(platformKeys, platformMaterial);
      apexResults := GenerateApexKeys(apexKeys, apexMaterial);
      ProvisionAllAppend(old(files), certsDir, PlatformEntries(platformKeys), platformMaterial,
                         ApexEntries(apexKeys), apexMaterial);
    }
  }
}
