/** `partitionData`: split records into the two severity tiers by the prefix of their
    advice title, then deduplicate each tier by site title. */
module Partition {
  import opened Sites
  import opened Dedupe

  const TierOnePrefix: string := "Tier 1"
  const TierTwoPrefix: string := "Tier 2"

  /** `String.prototype.startsWith`. */
  predicate StartsWith(s: string, prefix: string)
  {
    |prefix| <= |s| && s[..|prefix|] == prefix
  }

  /** `data.filter(record => record.Advice_title.startsWith(prefix))`. */
  function FilterByAdvicePrefix(data: seq<SiteData>, prefix: string): seq<SiteData>
  {
    if data == [] then []
    else
      var last := data[|data| - 1];
      FilterByAdvicePrefix(data[..|data| - 1], prefix) + (if StartsWith(last.adviceTitle, prefix) then [last] else [])
  }

  function PartitionData(data: seq<SiteData>): PartitionedSiteData
  {
    PartitionedSiteData(
      DedupeByTitle(FilterByAdvicePrefix(data, TierOnePrefix)),
      DedupeByTitle(FilterByAdvicePrefix(data, TierTwoPrefix)))
  }

  /** Position `j` holds the first record of `data` with advice prefix `prefix` and its title. */
  ghost predicate IsFirstWithPrefix(data: seq<SiteData>, prefix: string, j: nat)
    requires j < |data|
  {
    && StartsWith(data[j].adviceTitle, prefix)
    && forall k :: 0 <= k < j && StartsWith(data[k].adviceTitle, prefix) ==> data[k].siteTitle != data[j].siteTitle
  }

  /** `r` is `data` restricted, in order, to the first record with prefix `prefix` of each title. */
  ghost predicate FirstPerTitleAt(r: seq<SiteData>, data: seq<SiteData>, prefix: string, idx: seq<nat>)
  {
    && SubsequenceAt(r, data, idx)
    && (forall k :: 0 <= k < |idx| ==> idx[k] < |data| && IsFirstWithPrefix(data, prefix, idx[k]))
    && (forall j :: 0 <= j < |data| && IsFirstWithPrefix(data, prefix, j) ==> j in idx)
  }

  /** Reference definition of one tier: the first record with the tier's prefix of each title, in input order. */
  ghost predicate FirstPerTitle(r: seq<SiteData>, data: seq<SiteData>, prefix: string)
  {
    exists idx :: FirstPerTitleAt(r, data, prefix, idx)
  }

  /** `f` is `data` restricted, in order, to the positions `idx` of the records whose advice title has the prefix. */
  ghost predicate FilteredAt(f: seq<SiteData>, data: seq<SiteData>, prefix: string, idx: seq<nat>)
  {
    && SubsequenceAt(f, data, idx)
    && (forall k :: 0 <= k < |idx| ==> idx[k] < |data| && StartsWith(data[idx[k]].adviceTitle, prefix))
    && (forall i :: 0 <= i < |data| && StartsWith(data[i].adviceTitle, prefix) ==> i in idx)
  }

  /** The filter keeps exactly the positions whose advice title has the prefix, in order. */
  lemma {:induction false} FilterAt(data: seq<SiteData>, prefix: string) returns (idx: seq<nat>)
    ensures SubsequenceAt(FilterByAdvicePrefix(data, prefix), data, idx)
    ensures forall k :: 0 <= k < |idx| ==> idx[k] < |data| && StartsWith(data[idx[k]].adviceTitle, prefix)
    ensures forall i :: 0 <= i < |data| && StartsWith(data[i].adviceTitle, prefix) ==> i in idx
  {
    if data == [] {
      idx := [];
    } else {
      var n := |data| - 1;
      var init := data[..n];
      var prev := FilterAt(init, prefix);
      var before := FilterByAdvicePrefix(init, prefix);
      if StartsWith(data[n].adviceTitle, prefix) {
        idx := prev + [n];
        forall k | 0 <= k < |prev|
          ensures prev[k] < |init| && init[prev[k]] == data[prev[k]]
        {
        }
        SubsequenceExtend(before, data, prev, n);
      } else {
        idx := prev;
      }
      forall k | 0 <= k < |idx|
        ensures idx[k] < |data| && StartsWith(data[idx[k]].adviceTitle, prefix)
      {
        if k < |prev| { assert idx[k] == prev[k] && init[prev[k]] == data[prev[k]]; }
      }
      forall i | 0 <= i < |data| && StartsWith(data[i].adviceTitle, prefix)
        ensures i in idx
      {
        if i < n {
          assert init[i] == data[i];
          var k :| 0 <= k < |prev| && prev[k] == i;
          assert idx[k] == i;
        } else {
          assert idx[|prev|] == i;
        }
      }
    }
  }

  /** A record survives the filter exactly when it is in the input and its advice title has the prefix. */
  lemma FilterMembership(data: seq<SiteData>, prefix: string)
    ensures forall x :: x in FilterByAdvicePrefix(data, prefix) <==> x in data && StartsWith(x.adviceTitle, prefix)
  {
  }

  /** A subsequence of a subsequence of `s` is a subsequence of `s`, at the composed positions. */
  lemma ComposeSubsequences(r: seq<SiteData>, f: seq<SiteData>, s: seq<SiteData>, ridx: seq<nat>, fidx: seq<nat>)
    returns (idx: seq<nat>)
    requires SubsequenceAt(r, f, ridx) && SubsequenceAt(f, s, fidx)
    ensures SubsequenceAt(r, s, idx)
    ensures forall k :: 0 <= k < |idx| ==> ridx[k] < |fidx| && idx[k] == fidx[ridx[k]]
  {
    idx := seq(|ridx|, k requires 0 <= k < |ridx| => fidx[ridx[k]]);
    forall a, b | 0 <= a < b < |idx|
      ensures idx[a] < idx[b]
    {
      assert ridx[a] < ridx[b];
    }
  }

  /** Within the filtered list, a record is the first of its title exactly when, in the
      whole input, it is the first record with the prefix and that title. */
  lemma FirstInFilter(data: seq<SiteData>, prefix: string, f: seq<SiteData>, fidx: seq<nat>, m: nat)
    requires FilteredAt(f, data, prefix, fidx)
    requires m < |f|
    ensures fidx[m] < |data| && (IsFirstIndex(f, m) <==> IsFirstWithPrefix(data, prefix, fidx[m]))
  {
  }

  /** One tier of `partitionData` is the reference definition: deduplicating the filtered
      records keeps, in input order, exactly the first record with the prefix of each title. */
  lemma TierIsFirstPerTitle(data: seq<SiteData>, prefix: string) returns (idx: seq<nat>)
    ensures FirstPerTitleAt(DedupeByTitle(FilterByAdvicePrefix(data, prefix)), data, prefix, idx)
  {
    var f := FilterByAdvicePrefix(data, prefix);
    var r := DedupeByTitle(f);
    var fidx := FilterAt(data, prefix);
    assert FilteredAt(f, data, prefix, fidx);
    var didx := DedupeFirstOccurrences(f);
    idx := ComposeSubsequences(r, f, data, didx, fidx);
    forall k | 0 <= k < |idx|
      ensures idx[k] < |data| && IsFirstWithPrefix(data, prefix, idx[k])
    {
      FirstInFilter(data, prefix, f, fidx, didx[k]);
    }
    forall j | 0 <= j < |data| && IsFirstWithPrefix(data, prefix, j)
      ensures j in idx
    {
      var m :| 0 <= m < |fidx| && fidx[m] == j;
      FirstInFilter(data, prefix, f, fidx, m);
      var k :| 0 <= k < |didx| && didx[k] == m;
      assert idx[k] == j;
    }
  }

  /** Both tiers of `partitionData` agree with the reference definition. */
  lemma PartitionIsFirstPerTitle(data: seq<SiteData>)
    ensures FirstPerTitle(PartitionData(data).tierOne, data, TierOnePrefix)
    ensures FirstPerTitle(PartitionData(data).tierTwo, data, TierTwoPrefix)
  {
    var one := TierIsFirstPerTitle(data, TierOnePrefix);
    var two := TierIsFirstPerTitle(data, TierTwoPrefix);
  }

  /** Every record of a tier carries that tier's prefix, each tier has distinct titles,
      and a tier covers the titles of all records with its prefix. */
  lemma PartitionTiers(data: seq<SiteData>)
    ensures forall x :: x in PartitionData(data).tierOne ==> x in data && StartsWith(x.adviceTitle, TierOnePrefix)
    ensures forall x :: x in PartitionData(data).tierTwo ==> x in data && StartsWith(x.adviceTitle, TierTwoPrefix)
    ensures DistinctTitles(PartitionData(data).tierOne) && DistinctTitles(PartitionData(data).tierTwo)
    ensures Titles(PartitionData(data).tierOne) == Titles(FilterByAdvicePrefix(data, TierOnePrefix))
    ensures Titles(PartitionData(data).tierTwo) == Titles(FilterByAdvicePrefix(data, TierTwoPrefix))
  {
    var one := FilterByAdvicePrefix(data, TierOnePrefix);
    var two := FilterByAdvicePrefix(data, TierTwoPrefix);
    FilterMembership(data, TierOnePrefix);
    FilterMembership(data, TierTwoPrefix);
    DedupeKeepsOnlyFirsts(one);
    DedupeKeepsOnlyFirsts(two);
    DedupeDistinctTitles(one);
    DedupeDistinctTitles(two);
    DedupeTitles(one);
    DedupeTitles(two);
  }

  /** An empty list of records gives two empty tiers. */
  lemma PartitionEmpty()
    ensures PartitionData([]) == PartitionedSiteData([], [])
  {
  }

  /** No advice title starts with both tier prefixes. */
  lemma PrefixesExclusive(s: string)
    ensures !(StartsWith(s, TierOnePrefix) && StartsWith(s, TierTwoPrefix))
  {
  }

  /** No record is in both tiers. */
  lemma TiersDisjoint(data: seq<SiteData>)
    ensures forall x :: !(x in PartitionData(data).tierOne && x in PartitionData(data).tierTwo)
  {
    PartitionTiers(data);
    forall x | x in PartitionData(data).tierOne
      ensures x !in PartitionData(data).tierTwo
    {
      PrefixesExclusive(x.adviceTitle);
    }
  }

  lemma {:induction false} FilterAppend(a: seq<SiteData>, b: seq<SiteData>, prefix: string)
    ensures FilterByAdvicePrefix(a + b, prefix) == FilterByAdvicePrefix(a, prefix) + FilterByAdvicePrefix(b, prefix)
  {
    if b == [] {
      assert a + b == a;
    } else {
      var n := |b| - 1;
      FilterAppend(a, b[..n], prefix);
      assert (a + b)[..|a + b| - 1] == a + b[..n];
      assert (a + b)[|a + b| - 1] == b[n];
    }
  }

  lemma {:induction false} FilterAllMatch(s: seq<SiteData>, prefix: string)
    requires forall x :: x in s ==> StartsWith(x.adviceTitle, prefix)
    ensures FilterByAdvicePrefix(s, prefix) == s
  {
    if s != [] {
      FilterAllMatch(s[..|s| - 1], prefix);
      assert s[..|s| - 1] + [s[|s| - 1]] == s;
    }
  }

  lemma FilterNoneMatch(s: seq<SiteData>, prefix: string)
    requires forall x :: x in s ==> !StartsWith(x.adviceTitle, prefix)
    ensures FilterByAdvicePrefix(s, prefix) == []
  {
  }

  /** Partitioning the concatenation of the two tiers gives the same tiers back. */
  lemma PartitionIdempotent(data: seq<SiteData>)
    ensures PartitionData(PartitionData(data).tierOne + PartitionData(data).tierTwo) == PartitionData(data)
  {
    var p := PartitionData(data);
    PartitionTiers(data);
    forall x | x in p.tierTwo
      ensures !StartsWith(x.adviceTitle, TierOnePrefix)
    {
      PrefixesExclusive(x.adviceTitle);
    }
    forall x | x in p.tierOne
      ensures !StartsWith(x.adviceTitle, TierTwoPrefix)
    {
      PrefixesExclusive(x.adviceTitle);
    }
    FilterAppend(p.tierOne, p.tierTwo, TierOnePrefix);
    FilterAllMatch(p.tierOne, TierOnePrefix);
    FilterNoneMatch(p.tierTwo, TierOnePrefix);
    FilterAppend(p.tierOne, p.tierTwo, TierTwoPrefix);
    FilterNoneMatch(p.tierOne, TierTwoPrefix);
    FilterAllMatch(p.tierTwo, TierTwoPrefix);
    assert p.tierOne + [] == p.tierOne;
    assert [] + p.tierTwo == p.tierTwo;
    DedupeOfDistinct(p.tierOne);
    DedupeOfDistinct(p.tierTwo);
  }

  /** The tier filters on the three records of the example below. */
  lemma ExampleFilters(a1: SiteData, a2: SiteData, b: SiteData)
    requires a1.adviceTitle == "Tier 1 xyz" && a2.adviceTitle == "Tier 1 abc" && b.adviceTitle == "Tier 2"
    ensures FilterByAdvicePrefix([a1, a2, b], TierOnePrefix) == [a1, a2]
    ensures FilterByAdvicePrefix([a1, a2, b], TierTwoPrefix) == [b]
  {
    var data := [a1, a2, b];
    assert data[..2] == [a1, a2] && data[..2][..1] == [a1] && data[..2][..1][..0] == [];
    assert StartsWith(a1.adviceTitle, TierOnePrefix) && StartsWith(a2.adviceTitle, TierOnePrefix);
    assert !StartsWith(b.adviceTitle, TierOnePrefix) && StartsWith(b.adviceTitle, TierTwoPrefix);
    PrefixesExclusive(a1.adviceTitle);
    PrefixesExclusive(a2.adviceTitle);
    assert FilterByAdvicePrefix([a1], TierOnePrefix) == [a1];
    assert FilterByAdvicePrefix([a1, a2], TierOnePrefix) == [a1, a2];
    assert FilterByAdvicePrefix([a1], TierTwoPrefix) == [];
    assert FilterByAdvicePrefix([a1, a2], TierTwoPrefix) == [];
  }

  /** Two records titled "A" with a tier-1 advice and one titled "B" with a tier-2
      advice: tier one keeps the first "A", tier two keeps "B". */
  lemma PartitionExample()
    ensures
      var a1 := SiteData("A", "", "", "", "Tier 1 xyz");
      var a2 := SiteData("A", "", "", "", "Tier 1 abc");
      var b := SiteData("B", "", "", "", "Tier 2");
      PartitionData([a1, a2, b]) == PartitionedSiteData([a1], [b])
  {
    var a1 := SiteData("A", "", "", "", "Tier 1 xyz");
    var a2 := SiteData("A", "", "", "", "Tier 1 abc");
    var b := SiteData("B", "", "", "", "Tier 2");
    ExampleFilters(a1, a2, b);
    DedupeDropsLaterSameTitle(a1, a2);
    DedupeOfDistinct([b]);
  }
}
