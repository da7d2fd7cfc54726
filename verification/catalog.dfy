/**
 Provisioning a whole catalog: the platform keys in list order, then the apex
 keys in list order, each with its own key material.

 The source hands every entry to a worker pool; the model runs them one after
 the other in submission order. Lemma ProvisionCommutes in module Bundles is
 what makes the order irrelevant when footprints are disjoint.
 */
module Catalog {
  import opened Certificates
  import opened Bundles

  /** The platform keys as catalog entries, in list order. */
  function PlatformEntries(keys: seq<string>): (es: seq<Entry>)
    ensures |es| == |keys| && forall i :: 0 <= i < |keys| ==> es[i] == Platform(keys[i])
  {
    seq(|keys|, i requires 0 <= i < |keys| => Platform(keys[i]))
  }

  /** The apex keys as catalog entries, in list order. */
  function ApexEntries(keys: seq<string>): (es: seq<Entry>)
    ensures |es| == |keys| && forall i :: 0 <= i < |keys| ==> es[i] == Apex(keys[i])
  {
    seq(|keys|, i requires 0 <= i < |keys| => Apex(keys[i]))
  }

  /** The catalog as the orchestrator submits it: platform entries first, then apex entries. */
  function CatalogEntries(platformKeys: seq<string>, apexKeys: seq<string>): seq<Entry> {
    PlatformEntries(platformKeys) + ApexEntries(apexKeys)
  }

  /** The results the orchestrator returns for the platform keys: one path triple per key, in list order. */
  function PlatformResults(certsDir: string, keys: seq<string>): (rs: seq<PlatformBundle>)
    ensures |rs| == |keys|
  {
    seq(|keys|, i requires 0 <= i < |keys| => PlatformPaths(certsDir, keys[i]))
  }

  /** The results the orchestrator returns for the apex keys: one path tuple per key, in list order. */
  function ApexResults(keys: seq<string>): (rs: seq<ApexBundle>)
    ensures |rs| == |keys|
  {
    seq(|keys|, i requires 0 <= i < |keys| => ApexPaths(keys[i]))
  }

  lemma PlatformResultsStep(certsDir: string, keys: seq<string>, i: nat)
    requires i < |keys|
    ensures PlatformResults(certsDir, keys[..i + 1])
         == PlatformResults(certsDir, keys[..i]) + [PlatformPaths(certsDir, keys[i])]
  {
  }

  lemma ApexResultsStep(keys: seq<string>, i: nat)
    requires i < |keys|
    ensures ApexResults(keys[..i + 1]) == ApexResults(keys[..i]) + [ApexPaths(keys[i])]
  {
  }

  /** Every path that provisioning the entries may write. */
  function AllWritten(certsDir: string, es: seq<Entry>): set<string>
    decreases |es|
  {
    if es == [] then {} else AllWritten(certsDir, es[..|es| - 1]) + Written(certsDir, es[|es| - 1])
  }

  /**
   Provisioning the entries one after the other, entry `i` with key material
   `ms[i]`. Lemmas ProvisionAllFrame and ProvisionAllCompletes state what the
   run leaves behind.
   */
  function ProvisionAll(files: Files, certsDir: string, es: seq<Entry>, ms: seq<nat>): (r: Files)
    requires |es| == |ms|
    decreases |es|
  {
    if es == [] then files
    else
      var n := |es| - 1;
      Provision(ProvisionAll(files, certsDir, es[..n], ms[..n]), certsDir, es[n], ms[n])
  }

  predicate AllComplete(files: Files, certsDir: string, es: seq<Entry>) {
    forall i :: 0 <= i < |es| ==> Complete(files, certsDir, es[i])
  }

  /**
   A run removes no file, adds only files some entry writes, and leaves every
   file no entry writes as it was.
   */
  lemma {:induction false} ProvisionAllFrame(files: Files, certsDir: string, es: seq<Entry>, ms: seq<nat>)
    requires |es| == |ms|
    ensures files.Keys <= ProvisionAll(files, certsDir, es, ms).Keys <= files.Keys + AllWritten(certsDir, es)
    ensures forall p :: p in files && p !in AllWritten(certsDir, es) ==> ProvisionAll(files, certsDir, es, ms)[p] == files[p]
    decreases |es|
  {
    if es != [] {
      var n := |es| - 1;
      ProvisionAllFrame(files, certsDir, es[..n], ms[..n]);
      ProvisionSpec(ProvisionAll(files, certsDir, es[..n], ms[..n]), certsDir, es[n], ms[n]);
    }
  }

  /** After a run every entry's bundle is complete. */
  lemma {:induction false} ProvisionAllCompletes(files: Files, certsDir: string, es: seq<Entry>, ms: seq<nat>)
    requires |es| == |ms|
    ensures AllComplete(ProvisionAll(files, certsDir, es, ms), certsDir, es)
    decreases |es|
  {
    if es != [] {
      var n := |es| - 1;
      ProvisionAllCompletes(files, certsDir, es[..n], ms[..n]);
      var g := ProvisionAll(files, certsDir, es[..n], ms[..n]);
      ProvisionSpec(g, certsDir, es[n], ms[n]);
      AllCompleteGrows(g, Provision(g, certsDir, es[n], ms[n]), certsDir, es);
    }
  }

  /** Bundles complete before a step stay complete after it, since files are only added. */
  lemma AllCompleteGrows(g: Files, r: Files, certsDir: string, es: seq<Entry>)
    requires es != []
    requires AllComplete(g, certsDir, es[..|es| - 1])
    requires g.Keys <= r.Keys
    requires Complete(r, certsDir, es[|es| - 1])
    ensures AllComplete(r, certsDir, es)
  {
    var n := |es| - 1;
    forall i | 0 <= i < |es|
      ensures Complete(r, certsDir, es[i])
    {
      if i < n { assert es[..n][i] == es[i]; }
    }
  }

  /** Provisioning the next entry of a list extends the run by one step. */
  lemma ProvisionAllStep(files: Files, certsDir: string, es: seq<Entry>, ms: seq<nat>, i: nat, prev: Files, next: Files)
    requires |es| == |ms| && i < |es|
    requires prev == ProvisionAll(files, certsDir, es[..i], ms[..i])
    requires next == Provision(prev, certsDir, es[i], ms[i])
    ensures next == ProvisionAll(files, certsDir, es[..i + 1], ms[..i + 1])
  {
    assert es[..i + 1][..i] == es[..i] && ms[..i + 1][..i] == ms[..i];
  }

  /** Running two lists one after the other is one run over their concatenation. */
  lemma {:induction false} ProvisionAllAppend(files: Files, certsDir: string, es1: seq<Entry>, ms1: seq<nat>, es2: seq<Entry>, ms2: seq<nat>)
    requires |es1| == |ms1| && |es2| == |ms2|
    ensures ProvisionAll(ProvisionAll(files, certsDir, es1, ms1), certsDir, es2, ms2)
         == ProvisionAll(files, certsDir, es1 + es2, ms1 + ms2)
    decreases |es2|
  {
    if es2 == [] {
      assert es1 + es2 == es1 && ms1 + ms2 == ms1;
    } else {
      var n := |es2| - 1;
      var es, ms := es1 + es2, ms1 + ms2;
      var m := |es| - 1;
      assert ProvisionAll(ProvisionAll(files, certsDir, es1, ms1), certsDir, es2[..n], ms2[..n])
          == ProvisionAll(files, certsDir, es[..m], ms[..m]) by {
        ProvisionAllAppend(files, certsDir, es1, ms1, es2[..n], ms2[..n]);
        assert es[..m] == es1 + es2[..n] && ms[..m] == ms1 + ms2[..n];
      }
      assert es[m] == es2[n] && ms[m] == ms2[n];
      ProvisionAllSameLast(ProvisionAll(files, certsDir, es1, ms1), es2, ms2, files, es, ms, certsDir);
    }
  }

  /** Two runs that agree before their last entries, and on those entries and their material, agree. */
  lemma ProvisionAllSameLast(a: Files, esA: seq<Entry>, msA: seq<nat>, b: Files, esB: seq<Entry>, msB: seq<nat>, certsDir: string)
    requires |esA| == |msA| > 0 && |esB| == |msB| > 0
    requires ProvisionAll(a, certsDir, esA[..|esA| - 1], msA[..|msA| - 1])
          == ProvisionAll(b, certsDir, esB[..|esB| - 1], msB[..|msB| - 1])
    requires esA[|esA| - 1] == esB[|esB| - 1] && msA[|msA| - 1] == msB[|msB| - 1]
    ensures ProvisionAll(a, certsDir, esA, msA) == ProvisionAll(b, certsDir, esB, msB)
  {
  }

  /** No two entries share a path they read or write. */
  predicate PairwiseDisjoint(certsDir: string, es: seq<Entry>) {
    forall i, j :: 0 <= i < j < |es| ==> Footprint(certsDir, es[i]) !! Footprint(certsDir, es[j])
  }

  /** When every bundle is already complete, provisioning the catalog writes nothing. */
  lemma {:induction false} ProvisionAllNoOp(files: Files, certsDir: string, es: seq<Entry>, ms: seq<nat>)
    requires |es| == |ms|
    requires AllComplete(files, certsDir, es)
    ensures ProvisionAll(files, certsDir, es, ms) == files
    decreases |es|
  {
    if es != [] {
      var n := |es| - 1;
      AllCompletePrefix(files, certsDir, es);
      ProvisionAllNoOp(files, certsDir, es[..n], ms[..n]);
      assert Complete(files, certsDir, es[n]);
    }
  }

  lemma AllCompletePrefix(files: Files, certsDir: string, es: seq<Entry>)
    requires es != [] && AllComplete(files, certsDir, es)
    ensures AllComplete(files, certsDir, es[..|es| - 1])
  {
    var n := |es| - 1;
    forall i | 0 <= i < n
      ensures Complete(files, certsDir, es[..n][i])
    {
      assert es[..n][i] == es[i];
    }
  }

  /** A second run over the same catalog writes nothing, whatever key material it is given. */
  lemma SecondRunWritesNothing(files: Files, certsDir: string, es: seq<Entry>, ms1: seq<nat>, ms2: seq<nat>)
    requires |es| == |ms1| == |ms2|
    ensures ProvisionAll(ProvisionAll(files, certsDir, es, ms1), certsDir, es, ms2)
         == ProvisionAll(files, certsDir, es, ms1)
  {
    ProvisionAllCompletes(files, certsDir, es, ms1);
    ProvisionAllNoOp(ProvisionAll(files, certsDir, es, ms1), certsDir, es, ms2);
  }

  /** Paths written by entries that all avoid a set of paths avoid it together. */
  lemma {:induction false} AllWrittenAvoids(certsDir: string, es: seq<Entry>, paths: set<string>)
    requires forall i :: 0 <= i < |es| ==> Written(certsDir, es[i]) !! paths
    ensures AllWritten(certsDir, es) !! paths
    decreases |es|
  {
    if es != [] {
      var n := |es| - 1;
      assert forall i :: 0 <= i < n ==> es[..n][i] == es[i];
      AllWrittenAvoids(certsDir, es[..n], paths);
    }
  }

  /**
   With disjoint footprints, each entry ends up as if provisioned alone: a
   bundle complete at the start keeps exactly the files it had, and an
   incomplete one is regenerated entirely with its own key material.
   */
  lemma {:induction false} ProvisionAllPerEntry(files: Files, certsDir: string, es: seq<Entry>, ms: seq<nat>, i: nat)
    requires |es| == |ms| && i < |es|
    requires PairwiseDisjoint(certsDir, es)
    ensures Complete(files, certsDir, es[i]) ==>
      AgreeOn(files, ProvisionAll(files, certsDir, es, ms), Footprint(certsDir, es[i]))
    ensures !Complete(files, certsDir, es[i]) ==>
      && Consistent(ProvisionAll(files, certsDir, es, ms), certsDir, es[i])
      && ProvisionAll(files, certsDir, es, ms)[KeyPath(certsDir, es[i])]
         == PrivateKeyPem(RsaKey(KeySize(es[i]), ms[i]))
    decreases |es|
  {
    var n := |es| - 1;
    var prefix, pms := es[..n], ms[..n];
    var g := ProvisionAll(files, certsDir, prefix, pms);
    var r := ProvisionAll(files, certsDir, es, ms);
    assert r == Provision(g, certsDir, es[n], ms[n]);
    var e := es[i];
    if i == n {
      forall k | 0 <= k < n
        ensures Written(certsDir, prefix[k]) !! Footprint(certsDir, e)
      {
        assert prefix[k] == es[k];
      }
      AllWrittenAvoids(certsDir, prefix, Footprint(certsDir, e));
      ProvisionAllFrame(files, certsDir, prefix, pms);
      assert AgreeOn(files, g, Footprint(certsDir, e));
      FootprintDecides(files, g, certsDir, e);
      if !Complete(files, certsDir, e) {
        ProvisionRegenerates(g, certsDir, e, ms[n]);
      }
    } else {
      assert prefix[i] == e && pms[i] == ms[i];
      assert PairwiseDisjoint(certsDir, prefix) by {
        forall a, b | 0 <= a < b < n
          ensures Footprint(certsDir, prefix[a]) !! Footprint(certsDir, prefix[b])
        {
          assert prefix[a] == es[a] && prefix[b] == es[b];
        }
      }
      ProvisionAllPerEntry(files, certsDir, prefix, pms, i);
      assert Footprint(certsDir, e) !! Footprint(certsDir, es[n]);
      ProvisionAgreesElsewhere(g, certsDir, es[n], ms[n], Footprint(certsDir, e));
      ProvisionKeepsOther(g, certsDir, es[n], ms[n], e);
      assert KeyPath(certsDir, e) in Footprint(certsDir, e);
    }
  }

  /**
   With disjoint footprints, a run that starts from bundles each either
   incomplete or consistent ends with every bundle consistent.
   */
  lemma ProvisionAllConsistent(files: Files, certsDir: string, es: seq<Entry>, ms: seq<nat>)
    requires |es| == |ms|
    requires PairwiseDisjoint(certsDir, es)
    requires forall i :: 0 <= i < |es| ==> !Complete(files, certsDir, es[i]) || Consistent(files, certsDir, es[i])
    ensures forall i :: 0 <= i < |es| ==> Consistent(ProvisionAll(files, certsDir, es, ms), certsDir, es[i])
  {
    forall i | 0 <= i < |es|
      ensures Consistent(ProvisionAll(files, certsDir, es, ms), certsDir, es[i])
    {
      ProvisionAllPerEntry(files, certsDir, es, ms, i);
      if Complete(files, certsDir, es[i]) {
        FootprintDecides(files, ProvisionAll(files, certsDir, es, ms), certsDir, es[i]);
      }
    }
  }
}
