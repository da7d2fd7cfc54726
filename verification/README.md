# gen_keys — a verified model of Android key provisioning

`gen_keys.py` provisions the signing keys of an Android build:

- For every platform key it makes an RSA key, a self-signed certificate and a
  PKCS8 copy.
- For every apex key it makes the same three files plus the key's public half
  in the AVB container format.
- It then writes two build files: `Android.bp`, declaring one certificate
  module per apex, and `keys.mk`, telling the build which certificate each apex
  uses.

Each bundle is checked before anything is written:

- A platform bundle is complete when its private key, certificate and PKCS8
  files exist.
- An apex bundle is complete when its private key, certificate and PKCS8 files
  exist and at least one of its two public-key names (`.pubkey`, `.avbpubkey`)
  exists, whichever of them the apex's name routes to.

A complete bundle is left alone. An incomplete one is regenerated with a new
key: its private key, certificate and PKCS8 files are rewritten, and for an apex
the public key is written to the one name its routing picks. So a non-legacy
apex that has `.pubkey` but no `.avbpubkey` counts as complete and keeps lacking
its `.avbpubkey`.

The model is split along the program's own structure:

| Dafny module | file | what it models |
|---|---|---|
| `Certificates` | certificates.dfy | `subject_params`, the two certificate subjects and the self-signed certificate record |
| `Bundles` | bundles.dfy | the paths of a bundle, the completeness check, what provisioning one entry does to the files (`Provision`), and why independent entries can run in any order |
| `Catalog` | catalog.dfy | provisioning a whole key list (`ProvisionAll`): completeness, frame, second-run no-op, per-entry outcome |
| `Generator` | generator.dfy | class `Workspace`, whose field `files` is updated in place by the two generators, the public-key extraction and the orchestrator, each method proved against the functions above |
| `Lines` | lines.dfy | `'\n'.join` and the view of a text as its lines |
| `BuildConfig` | build_config.dfy | the text of `Android.bp` and `keys.mk`, and their line-by-line layout |

How the outside world is represented:

- The file system is a map from path to an abstract artifact.
- A key is its modulus size plus a natural number standing for its random
  material. Each generation takes that number as a parameter.
- The certificate directory (`~/.android-certs` expanded) is a parameter of the
  workspace.
- The key lists, which the program imports from its `keys` module, are
  parameters.

## Model

| member | source | states |
|---|---|---|
| Certificates.SubjectParam | gen_keys.py:34-49 | An override that names the field wins, whatever the field. Otherwise the result exists exactly when the name is one of the seven RDN fields. An empty value can only come from an override. |
| Certificates.DefaultFields | gen_keys.py:36-44 | With no override, C, ST, L, O, OU, CN and emailAddress resolve to US, California, Mountain View, Android, Android, Android and android@android.com. |
| Certificates.OverrideOnlyForNamedField | gen_keys.py:46-47 | An override map that does not name the field, empty or not, gives the same value as no map. |
| Certificates.UnknownFieldIsNone | gen_keys.py:49 | A name outside the seven fields with no override for it resolves to nothing; it is not an error. |
| Certificates.PlatformSubject | gen_keys.py:66-73 | The platform certificate's subject has every field at its default. |
| Certificates.ApexSubject | gen_keys.py:124-131 | The apex certificate's subject has CN equal to the apex name and every other field equal to the platform subject's. |
| Certificates.SelfSignedCertificate | gen_keys.py:75-80 | Serial number 1. Valid from generation time for 10000 days (864000000 s). Issuer equals subject. Public and signing key are the given key. Digest sha256. |
| Bundles.PlatformPaths | gen_keys.py:53-55 | The key in the certificate directory, the certificate and PKCS8 file in the working directory. Its properties are stated by `Bundles.PlatformPathsDistinct` and used by `Bundles.PlatformWritesInOrder`. |
| Bundles.ApexPaths | gen_keys.py:103-107 | The five paths of an apex bundle, in the order the generator returns them. Its properties are stated by `Bundles.ApexPathsDistinct`. |
| Bundles.PublicKeyPath | gen_keys.py:117-121 | Where the extracted public key goes. Its properties are stated by `Bundles.PublicKeyRouting`. |
| Bundles.Complete | gen_keys.py:109-111 | The existence check of both generators. Its properties are stated by `Bundles.ConsistentIsComplete`, `Bundles.FreshBundleWritesItsPaths` and `Bundles.FootprintDecides`. |
| Bundles.Provision | gen_keys.py:109-155 | One generator call on the files. Its properties are stated by `Bundles.ProvisionSpec`, `Bundles.ProvisionRegenerates`, `Bundles.ProvisionIdempotent` and `Bundles.ProvisionCommutes`. |
| Bundles.ProvisionSpec | gen_keys.py:57-97 | After provisioning the bundle is complete. A bundle complete beforehand is left exactly as it was. Otherwise exactly the paths a regeneration writes are added. No file is removed, and every other file keeps its contents. |
| Bundles.FreshBundleWritesItsPaths | gen_keys.py:109-155 | A generated bundle occupies exactly the written paths of its entry, and having those paths makes the entry complete. |
| Bundles.PlatformWritesInOrder | gen_keys.py:59-97 | The three platform writes, in the generator's order, amount to adding the generated bundle. |
| Bundles.ApexWritesInOrder | gen_keys.py:113-155 | The four apex writes (key, public key, certificate, PKCS8), in that order, amount to adding the generated bundle. |
| Bundles.PlatformPathsDistinct | gen_keys.py:53-55 | The key, certificate and PKCS8 paths of a platform bundle are pairwise distinct for every directory and name. |
| Bundles.ApexPathsDistinct | gen_keys.py:103-107 | The five paths of an apex bundle are pairwise distinct for every name. |
| Bundles.PublicKeyRouting | gen_keys.py:118-121 | The public key goes to `<apex>.pubkey` exactly for `com.android.vndk` and to `<apex>.avbpubkey` for every other apex. |
| Bundles.ConsistentIsComplete | gen_keys.py:109-111 | A bundle whose files all belong to one key passes the existence check. |
| Bundles.ProvisionRegenerates | gen_keys.py:112-155 | An incomplete bundle ends up consistent. Every file holds the new key made from the given material, the certificate carries the entry's subject, and an apex's public key sits at its routed path. |
| Bundles.FreshBundleConsistent | gen_keys.py:113-155 | A generated bundle holds the key in PEM form, a certificate for it, the PKCS8 copy and, for an apex, the public key. With the entry's key size it is consistent. |
| Bundles.ProvisionIdempotent | gen_keys.py:57 | Provisioning an entry a second time changes nothing, whatever key material the second run gets. |
| Bundles.FootprintDecides | gen_keys.py:109-111 | Whether an entry is complete, and whether it is consistent, depends only on the files of its footprint. |
| Bundles.ProvisionAgreesElsewhere | gen_keys.py:57-97 | Provisioning leaves every path outside the entry's written paths as it was, present or absent. |
| Bundles.ProvisionKeepsOther | gen_keys.py:170-178 | Provisioning an entry does not change whether an entry with a disjoint footprint is complete or consistent. |
| Bundles.ProvisionCommutes | gen_keys.py:170-181 | Two entries with disjoint footprints give the same files in either order. This is what lets the worker pool run them concurrently. |
| Bundles.ProvisionInSequence | gen_keys.py:170-181 | Provisioning two entries with disjoint footprints adds exactly what each would add alone. |
| Bundles.Delta | gen_keys.py:109-155 | Provisioning adds a map confined to the entry's written paths: nothing, or the whole generated bundle. |
| Bundles.FamilyUniquenessIsNotEnough | gen_keys.py:54-55 | Platform key `a.certificate.override` and apex `a` share certificate and PKCS8 paths. Unique names within each list therefore do not make footprints disjoint. |
| Catalog.PlatformEntries | gen_keys.py:171-174 | One platform entry per platform key, in list order. |
| Catalog.ApexEntries | gen_keys.py:175-178 | One apex entry per apex key, in list order. |
| Catalog.PlatformResults | gen_keys.py:180 | One path triple per platform key, in list order. `Generator.Workspace.GeneratePlatformKeys` is proved to return it. |
| Catalog.ApexResults | gen_keys.py:181 | One path tuple per apex key, in list order. `Generator.Workspace.GenerateApexKeys` is proved to return it. |
| Catalog.ProvisionAll | gen_keys.py:170-181 | The generator calls of a whole list, one after the other. Its properties are stated by `Catalog.ProvisionAllFrame`, `Catalog.ProvisionAllCompletes`, `Catalog.ProvisionAllAppend` and `Catalog.ProvisionAllPerEntry`. |
| Catalog.ProvisionAllFrame | gen_keys.py:166-183 | A run removes no file. It adds only paths some entry writes. Every file no entry writes keeps its contents. |
| Catalog.ProvisionAllCompletes | gen_keys.py:180-183 | After a run, every entry's bundle is complete. |
| Catalog.ProvisionAllAppend | gen_keys.py:171-178 | Running the platform list and then the apex list is one run over their concatenation. |
| Catalog.ProvisionAllNoOp | gen_keys.py:166-183 | When every bundle is already complete, a run writes nothing. |
| Catalog.SecondRunWritesNothing | gen_keys.py:166-183 | A second run over the same lists writes nothing, whatever key material it gets. |
| Catalog.ProvisionAllPerEntry | gen_keys.py:170-181 | With disjoint footprints, each entry ends as if provisioned alone. A bundle complete at the start keeps its files. An incomplete one is regenerated consistently with its own key material. |
| Catalog.ProvisionAllConsistent | gen_keys.py:170-181 | With disjoint footprints, a run that starts with every bundle either incomplete or consistent ends with every bundle consistent. |
| Generator.Workspace.ExtractPublicKey | gen_keys.py:22-31 | Writes the AVB public key of the private key at the key path to the output path, overwriting it, and changes nothing else. |
| Generator.Workspace.GenerateSinglePlatformKey | gen_keys.py:52-99 | Returns the bundle's three paths. The new files equal `Provision` of the old ones. |
| Generator.Workspace.GenerateSingleApexKey | gen_keys.py:102-163 | Returns the bundle's five paths. The new files equal `Provision` of the old ones, with the public key written by the extraction at its routed path. |
| Generator.Workspace.GeneratePlatformKeys | gen_keys.py:171-180 | Returns one path triple per platform key in list order. The files become the run of the platform entries. |
| Generator.Workspace.GenerateApexKeys | gen_keys.py:175-181 | Returns one path tuple per apex key in list order. The files become the run of the apex entries. |
| Generator.Workspace.GenerateKeys | gen_keys.py:166-183 | Returns both result lists. The files become one run over the platform entries followed by the apex entries. |
| Lines.Join | gen_keys.py:228 | The parts with the separator between consecutive ones. `Lines.SplitLines` inverts it, and `Lines.SplitJoin` and `Lines.JoinedLinesRoundTrip` relate the two. |
| Lines.SplitLines | gen_keys.py:228 | The lines of a text contain no newline, and joining them with newlines gives the text back. |
| Lines.SplitJoin | gen_keys.py:228 | The lines of parts joined with newlines are the lines of each part, in order. |
| Lines.JoinedLinesRoundTrip | gen_keys.py:206-209 | Lines without newlines, joined with newlines and split again, come back unchanged. |
| BuildConfig.AndroidBp | gen_keys.py:186-195 | The Android.bp text. Its line layout is stated by `BuildConfig.AndroidBpLines`, `BuildConfig.AndroidBpLayout` and `BuildConfig.AndroidBpEmpty`. |
| BuildConfig.CertificateBlockLines | gen_keys.py:188-191 | The declaration of one apex is the four lines `android_app_certificate {`, its name, its certificate and `}`. |
| BuildConfig.SplitBlocks | gen_keys.py:187-193 | The declarations joined by blank lines split into each declaration's lines, with one empty line between consecutive ones. |
| BuildConfig.AndroidBpLines | gen_keys.py:186-195 | Android.bp is the header line, an empty line, the declarations and an empty last line. |
| BuildConfig.AndroidBpEmpty | gen_keys.py:195 | With no apex, Android.bp is the header followed by three empty lines. |
| BuildConfig.BlockLinesLayout | gen_keys.py:187-193 | Declaration `i` occupies lines `5i` to `5i+3` of the block lines, and every declaration but the last is followed by an empty line. |
| BuildConfig.AndroidBpLayout | gen_keys.py:186-195 | For a non-empty list, Android.bp has `5n+2` lines. The declaration of the i-th apex is lines `2+5i` to `5+5i`, separators are empty, and the first two and the last lines are fixed. |
| BuildConfig.Continued | gen_keys.py:207 | The list lines with the continuation mark. Its properties are stated by `BuildConfig.ContinuationMarks`. |
| BuildConfig.MakefileSections | gen_keys.py:202-226 | The fourteen sections of keys.mk, in order. Their line layout is stated by `BuildConfig.MakefileLines`. |
| BuildConfig.Makefile | gen_keys.py:228 | The keys.mk text: the sections joined by newlines. Its line layout is stated by `BuildConfig.MakefileLines` and `BuildConfig.MakefileLayout`. |
| BuildConfig.ContinuationMarks | gen_keys.py:207 | Every list line but the last ends in ` \`. The last is unchanged. |
| BuildConfig.OverrideSectionLines | gen_keys.py:205-210 | An override section is its opening line, one line per list entry (a single empty line for an empty list) and an empty line. |
| BuildConfig.MakefileLines | gen_keys.py:202-228 | keys.mk consists of the header, an empty line, the three override sections in order, the default dev certificate, the extra recovery keys and an empty last line. |
| BuildConfig.MakefileLayout | gen_keys.py:202-228 | keys.mk has `11 + w(apex) + w(hardware) + w(app)` lines, where `w` is the list length or 1 when the list is empty. The override of the i-th key of each list is the i-th line after that list's assignment line, with a continuation mark exactly when another key of the list follows. |

## Left out

- Cryptography is abstract: RSA key generation, signing, and PEM, DER and PKCS8 encoding. A file holds a record of the key or certificate it encodes. The key size is recorded but not enforced.
- Time: the certificate validity is recorded as offsets from the moment of generation.
- The worker pool and `cpu_count`: the entries run one after the other in submission order. `Bundles.ProvisionCommutes` and `Catalog.ProvisionAllPerEntry` show that, with disjoint footprints, the order does not matter. Interleaving inside one generator is not modelled.
- The disjointness of footprints is a precondition of the catalog lemmas. The program does not check it, and `Bundles.FamilyUniquenessIsNotEnough` shows that unique names within each list do not ensure it.
- Creating the certificate directory, expanding `~`, and path normalisation. A path is the string the program builds, and the directory is a parameter.
- Failures: a write that fails halfway, a missing tool, or an exception raised in a worker. The model has only the successful path.
- Generator.Workspace.ExtractPublicKey: requires the private key file to exist and hold a PEM key. This always holds where the generator calls it, and the external tool's own failure modes are not modelled.
- Generator.Workspace.GenerateSinglePlatformKey: does not itself state that the bundle is complete afterwards. That follows from its `ensures` together with `Bundles.ProvisionSpec`.
- Generator.Workspace.GenerateSingleApexKey: the same as for the platform generator.
- The `keys` module, whose lists are parameters here, and `main`, which only calls the three steps in order.
- Writing `Android.bp` and `keys.mk` to disk: the model computes their text.
- BuildConfig.AndroidBpLayout: requires a non-empty apex list with no newline in any name. The empty list is covered by `BuildConfig.AndroidBpEmpty`. A name containing a newline would add lines and is not described.
- BuildConfig.MakefileLayout: requires that no key name contains a newline, for the same reason.
- BuildConfig.CertificateBlockLines: requires an apex name with no newline; a name containing one would split a declaration line in two, which the lemma does not describe.
- BuildConfig.SplitBlocks: requires apex names with no newline, for the same reason.
- BuildConfig.AndroidBpLines: requires apex names with no newline, for the same reason. The text itself, `BuildConfig.AndroidBp`, is defined for every name.
- BuildConfig.OverrideSectionLines: requires an opening line and list lines with no newline; a list line containing one would add lines to the section.
- BuildConfig.MakefileLines: requires key names with no newline, for the same reason. The text itself, `BuildConfig.Makefile`, is defined for every name.
- `subject_params` returns `None` for a name outside the seven fields (`dict.get`, gen_keys.py:49) rather than raising; the model follows the code (`Certificates.UnknownFieldIsNone`).
