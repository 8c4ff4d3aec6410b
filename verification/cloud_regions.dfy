/** The cloud region registry of app/lib/cloudRegions.ts, with the facts
    about it that the region layer relies on. */
module CloudRegions {
  import opened Seqs
  import opened Text
  import opened Types

  /** `CLOUD_REGIONS`, in registry order. */
  const CLOUD_REGIONS: seq<CloudRegion> := [
    CloudRegion("aws-us-east-1", AWS, "us-east-1", 38.9072, -77.0369, "N. Virginia", 15),
    CloudRegion("aws-us-west-1", AWS, "us-west-1", 37.3382, -121.8863, "N. California", 12),
    CloudRegion("aws-eu-west-1", AWS, "eu-west-1", 53.3498, -6.2603, "Ireland", 18),
    CloudRegion("aws-ap-southeast-1", AWS, "ap-southeast-1", 1.3521, 103.8198, "Singapore", 20),
    CloudRegion("aws-ap-northeast-1", AWS, "ap-northeast-1", 35.6762, 139.6503, "Tokyo", 16),
    CloudRegion("gcp-us-central1", GCP, "us-central1", 41.2619, -95.8608, "Iowa", 14),
    CloudRegion("gcp-europe-west4", GCP, "europe-west4", 52.3676, 4.9041, "Netherlands", 17),
    CloudRegion("gcp-asia-southeast1", GCP, "asia-southeast1", 1.3521, 103.8198, "Singapore", 15),
    CloudRegion("azure-eastus", Azure, "eastus", 37.3719, -79.8164, "Virginia", 13),
    CloudRegion("azure-westus2", Azure, "westus2", 47.6062, -122.3321, "Washington", 11),
    CloudRegion("azure-westeurope", Azure, "westeurope", 52.3667, 4.8945, "Netherlands", 14),
    CloudRegion("azure-eastasia", Azure, "eastasia", 22.3193, 114.1694, "Hong Kong", 12)]

  /** The regions hosted by `p`. */
  function RegionsOf(p: Provider): seq<CloudRegion> {
    Filter(CLOUD_REGIONS, (r: CloudRegion) => r.provider == p)
  }

  /** The registry lists its regions provider by provider: five AWS, then
      three GCP, then four Azure. */
  lemma ProviderBlocks()
    ensures |CLOUD_REGIONS| == 12
    ensures forall i :: 0 <= i < |CLOUD_REGIONS| ==> (CLOUD_REGIONS[i].provider == AWS <==> i < 5)
    ensures forall i :: 0 <= i < |CLOUD_REGIONS| ==> (CLOUD_REGIONS[i].provider == GCP <==> 5 <= i < 8)
    ensures forall i :: 0 <= i < |CLOUD_REGIONS| ==> (CLOUD_REGIONS[i].provider == Azure <==> 8 <= i)
  {
  }

  /** Twelve regions: five AWS, three GCP, four Azure. */
  lemma RegistryCounts()
    ensures |CLOUD_REGIONS| == 12
    ensures |RegionsOf(AWS)| == 5 && |RegionsOf(GCP)| == 3 && |RegionsOf(Azure)| == 4
  {
    ProviderBlocks();
    BlockCounts(CLOUD_REGIONS);
  }

  /** A list laid out as five AWS, three GCP and four Azure regions filters to
      those counts. */
  lemma BlockCounts(s: seq<CloudRegion>)
    requires |s| == 12
    requires forall i :: 0 <= i < |s| ==> (s[i].provider == AWS <==> i < 5)
    requires forall i :: 0 <= i < |s| ==> (s[i].provider == GCP <==> 5 <= i < 8)
    requires forall i :: 0 <= i < |s| ==> (s[i].provider == Azure <==> 8 <= i)
    ensures |Filter(s, (r: CloudRegion) => r.provider == AWS)| == 5
    ensures |Filter(s, (r: CloudRegion) => r.provider == GCP)| == 3
    ensures |Filter(s, (r: CloudRegion) => r.provider == Azure)| == 4
  {
    CountBlock(s, 0, 5, (r: CloudRegion) => r.provider == AWS);
    CountBlock(s, 5, 8, (r: CloudRegion) => r.provider == GCP);
    CountBlock(s, 8, 12, (r: CloudRegion) => r.provider == Azure);
  }

  /** Filtering keeps exactly the block `s[lo..hi]` when that block is what
      the predicate admits. */
  lemma CountBlock<T>(s: seq<T>, lo: nat, hi: nat, keep: T -> bool)
    requires lo <= hi <= |s|
    requires forall k :: 0 <= k < |s| ==> (keep(s[k]) <==> lo <= k < hi)
    ensures |Filter(s, keep)| == hi - lo
  {
    CountBlockPrefix(s, lo, hi, keep, |s|);
    assert s[..|s|] == s;
  }

  /** The first `m` elements keep as many as they share with the block. */
  lemma {:induction false} CountBlockPrefix<T>(s: seq<T>, lo: nat, hi: nat, keep: T -> bool, m: nat)
    requires lo <= hi <= |s| && m <= |s|
    requires forall k :: 0 <= k < |s| ==> (keep(s[k]) <==> lo <= k < hi)
    ensures |Filter(s[..m], keep)| == if m <= lo then 0 else if m <= hi then m - lo else hi - lo
  {
    if m > 0 {
      CountBlockPrefix(s, lo, hi, keep, m - 1);
      assert s[..m][..m - 1] == s[..m - 1];
      assert s[..m][m - 1] == s[m - 1];
      assert |Filter(s[..m], keep)| == |Filter(s[..m - 1], keep)| + if lo <= m - 1 < hi then 1 else 0;
    }
  }

  /** Every region has a valid latitude and longitude and at least one server. */
  lemma RegistryCoordinates()
    ensures forall i :: 0 <= i < |CLOUD_REGIONS| ==>
      && -90.0 <= CLOUD_REGIONS[i].lat <= 90.0
      && -180.0 <= CLOUD_REGIONS[i].lon <= 180.0
      && CLOUD_REGIONS[i].serverCount > 0
  {
  }

  /** `toLowerCase` of the three provider names. */
  lemma LowerProviderNames()
    ensures Lower(ProviderName(AWS)) == "aws" && Lower(ProviderName(GCP)) == "gcp" && Lower(ProviderName(Azure)) == "azure"
  {
    assert Lower("AWS") == "aws";
    assert Lower("GCP") == "gcp";
    assert Lower("Azure") == "azure";
  }

  /** Every id is the lower-cased provider name, '-', and the region code. */
  lemma IdsFollowRegions()
    ensures forall i :: 0 <= i < |CLOUD_REGIONS| ==>
      CLOUD_REGIONS[i].id == Lower(ProviderName(CLOUD_REGIONS[i].provider)) + "-" + CLOUD_REGIONS[i].region
  {
    RowId0();
    RowId1();
    RowId2();
    RowId3();
    RowId4();
    RowId5();
    RowId6();
    RowId7();
    RowId8();
    RowId9();
    RowId10();
    RowId11();
    forall i | 0 <= i < |CLOUD_REGIONS|
      ensures CLOUD_REGIONS[i].id == Lower(ProviderName(CLOUD_REGIONS[i].provider)) + "-" + CLOUD_REGIONS[i].region
    {
      assert IdFollows(CLOUD_REGIONS[i]);
    }
  }

  /** The id of `r` is its lower-cased provider name, '-', and its region code. */
  predicate IdFollows(r: CloudRegion) {
    r.id == Lower(ProviderName(r.provider)) + "-" + r.region
  }

  // One lemma per row: each is a small proof about one literal row.
  lemma RowId0() ensures IdFollows(CLOUD_REGIONS[0]) {
    var r := CLOUD_REGIONS[0];
    assert r.provider == AWS && r.id == "aws" + "-" + r.region;
    LowerProviderNames();
  }
  lemma RowId1() ensures IdFollows(CLOUD_REGIONS[1]) {
    var r := CLOUD_REGIONS[1];
    assert r.provider == AWS && r.id == "aws" + "-" + r.region;
    LowerProviderNames();
  }
  lemma RowId2() ensures IdFollows(CLOUD_REGIONS[2]) {
    var r := CLOUD_REGIONS[2];
    assert r.provider == AWS && r.id == "aws" + "-" + r.region;
    LowerProviderNames();
  }
  lemma RowId3() ensures IdFollows(CLOUD_REGIONS[3]) {
    var r := CLOUD_REGIONS[3];
    assert r.provider == AWS && r.id == "aws" + "-" + r.region;
    LowerProviderNames();
  }
  lemma RowId4() ensures IdFollows(CLOUD_REGIONS[4]) {
    var r := CLOUD_REGIONS[4];
    assert r.provider == AWS && r.id == "aws" + "-" + r.region;
    LowerProviderNames();
  }
  lemma RowId5() ensures IdFollows(CLOUD_REGIONS[5]) {
    var r := CLOUD_REGIONS[5];
    assert r.provider == GCP && r.id == "gcp" + "-" + r.region;
    LowerProviderNames();
  }
  lemma RowId6() ensures IdFollows(CLOUD_REGIONS[6]) {
    var r := CLOUD_REGIONS[6];
    assert r.provider == GCP && r.id == "gcp" + "-" + r.region;
    LowerProviderNames();
  }
  lemma RowId7() ensures IdFollows(CLOUD_REGIONS[7]) {
    var r := CLOUD_REGIONS[7];
    assert r.provider == GCP && r.id == "gcp" + "-" + r.region;
    LowerProviderNames();
  }
  lemma RowId8() ensures IdFollows(CLOUD_REGIONS[8]) {
    var r := CLOUD_REGIONS[8];
    assert r.provider == Azure && r.id == "azure" + "-" + r.region;
    LowerProviderNames();
  }
  lemma RowId9() ensures IdFollows(CLOUD_REGIONS[9]) {
    var r := CLOUD_REGIONS[9];
    assert r.provider == Azure && r.id == "azure" + "-" + r.region;
    LowerProviderNames();
  }
  lemma RowId10() ensures IdFollows(CLOUD_REGIONS[10]) {
    var r := CLOUD_REGIONS[10];
    assert r.provider == Azure && r.id == "azure" + "-" + r.region;
    LowerProviderNames();
  }
  lemma RowId11() ensures IdFollows(CLOUD_REGIONS[11]) {
    var r := CLOUD_REGIONS[11];
    assert r.provider == Azure && r.id == "azure" + "-" + r.region;
    LowerProviderNames();
  }

  /** Region ids are pairwise distinct. */
  lemma RegistryDistinct()
    ensures forall a, b :: 0 <= a < |CLOUD_REGIONS| && 0 <= b < |CLOUD_REGIONS| && a != b ==> CLOUD_REGIONS[a].id != CLOUD_REGIONS[b].id
  {
    var sigs := [('u', 'e', 13), ('u', 'w', 13), ('e', 'w', 13), ('a', 's', 18), ('a', 'n', 18), ('u', 'c', 15),
                 ('e', 'o', 16), ('a', 'a', 19), ('e', 'a', 12), ('e', 'e', 13), ('e', 'e', 16), ('e', 'a', 14)];
    forall i | 0 <= i < |CLOUD_REGIONS| ensures |CLOUD_REGIONS[i].id| >= 8 && Signature(CLOUD_REGIONS[i].id) == sigs[i] {
    }
    forall a, b | 0 <= a < |CLOUD_REGIONS| && 0 <= b < |CLOUD_REGIONS| && a != b ensures CLOUD_REGIONS[a].id != CLOUD_REGIONS[b].id {
      assert sigs[a] != sigs[b];
    }
  }

  /** The fifth and eighth letters and the length of an id. */
  function Signature(id: string): (char, char, int)
    requires |id| >= 8
  {
    (id[4], id[7], |id|)
  }
}
