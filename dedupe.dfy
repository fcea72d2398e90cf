/** `dedupeByTitle`: keep a record only if it is the first one in the list with its title. */
module Dedupe {
  import opened Sites

  /** `Array.prototype.findIndex` with the callback `t => t.Site_title === title`:
      the position of the first record titled `title`, or -1 when there is none. */
  function FindIndex(s: seq<SiteData>, title: string): (r: int)
    ensures -1 <= r < |s|
    ensures r == -1 ==> forall k :: 0 <= k < |s| ==> s[k].siteTitle != title
    ensures 0 <= r ==> s[r].siteTitle == title && forall k :: 0 <= k < r ==> s[k].siteTitle != title
  {
    if s == [] then -1
    else if s[0].siteTitle == title then 0
    else
      var j := FindIndex(s[1..], title);
      if j == -1 then -1 else j + 1
  }

  /** The filter callback: position `i` is the first position of its record's title. */
  predicate IsFirstIndex(self: seq<SiteData>, i: nat)
    requires i < |self|
  {
    FindIndex(self, self[i].siteTitle) == i
  }

  /** `Array.prototype.filter` over the positions below `n` of `self`, with a callback
      that looks at the position: keep `self[i]` exactly when `keep(i)`. */
  function FilterByPosition(self: seq<SiteData>, keep: nat -> bool, n: nat): seq<SiteData>
    requires n <= |self|
  {
    if n == 0 then []
    else FilterByPosition(self, keep, n - 1) + (if keep(n - 1) then [self[n - 1]] else [])
  }

  function DedupeByTitle(data: seq<SiteData>): seq<SiteData>
  {
    FilterByPosition(data, (i: nat) => i < |data| && IsFirstIndex(data, i), |data|)
  }

  /** The positional filter keeps, in order, exactly the positions its callback accepts. */
  lemma {:induction false} FilterByPositionAt(self: seq<SiteData>, keep: nat -> bool, n: nat) returns (idx: seq<nat>)
    requires n <= |self|
    ensures SubsequenceAt(FilterByPosition(self, keep, n), self, idx)
    ensures forall k :: 0 <= k < |idx| ==> idx[k] < n && keep(idx[k])
    ensures forall i :: 0 <= i < n && keep(i) ==> i in idx
  {
    if n == 0 {
      idx := [];
    } else {
      var prev := FilterByPositionAt(self, keep, n - 1);
      if keep(n - 1) {
        idx := prev + [n - 1];
        SubsequenceExtend(FilterByPosition(self, keep, n - 1), self, prev, n - 1);
      } else {
        idx := prev;
      }
      forall k | 0 <= k < |idx|
        ensures idx[k] < n && keep(idx[k])
      {
        if k < |prev| { assert idx[k] == prev[k]; }
      }
      forall i | 0 <= i < n && keep(i)
        ensures i in idx
      {
        if i < n - 1 {
          var k :| 0 <= k < |prev| && prev[k] == i;
          assert idx[k] == i;
        } else {
          assert idx[|prev|] == i;
        }
      }
    }
  }

  /** The output of `dedupeByTitle` is the subsequence of its input at exactly the
      positions that are the first of their title, in input order. */
  lemma DedupeFirstOccurrences(s: seq<SiteData>) returns (idx: seq<nat>)
    ensures SubsequenceAt(DedupeByTitle(s), s, idx)
    ensures forall k :: 0 <= k < |idx| ==> idx[k] < |s| && IsFirstIndex(s, idx[k])
    ensures forall i :: 0 <= i < |s| && IsFirstIndex(s, i) ==> i in idx
  {
    idx := FilterByPositionAt(s, (i: nat) => i < |s| && IsFirstIndex(s, i), |s|);
  }

  /** No two records of the output share a title. */
  lemma DedupeDistinctTitles(s: seq<SiteData>)
    ensures DistinctTitles(DedupeByTitle(s))
  {
    var r := DedupeByTitle(s);
    var idx := DedupeFirstOccurrences(s);
    forall a, b | 0 <= a < b < |r|
      ensures r[a].siteTitle != r[b].siteTitle
    {
      assert idx[a] < idx[b];
      assert FindIndex(s, r[a].siteTitle) == idx[a];
      assert FindIndex(s, r[b].siteTitle) == idx[b];
    }
  }

  /** For every title of the input, the output holds the first input record with that title. */
  lemma DedupeKeepsFirstOfEachTitle(s: seq<SiteData>)
    ensures forall i :: 0 <= i < |s| ==> s[FindIndex(s, s[i].siteTitle)] in DedupeByTitle(s)
  {
    var r := DedupeByTitle(s);
    var idx := DedupeFirstOccurrences(s);
    forall i | 0 <= i < |s|
      ensures s[FindIndex(s, s[i].siteTitle)] in r
    {
      var j := FindIndex(s, s[i].siteTitle);
      assert IsFirstIndex(s, j);
      var k :| 0 <= k < |idx| && idx[k] == j;
      assert r[k] == s[j];
    }
  }

  /** Every output record is the first input record with its title. */
  lemma DedupeKeepsOnlyFirsts(s: seq<SiteData>)
    ensures forall x :: x in DedupeByTitle(s) ==> 0 <= FindIndex(s, x.siteTitle) && s[FindIndex(s, x.siteTitle)] == x
  {
    var r := DedupeByTitle(s);
    var idx := DedupeFirstOccurrences(s);
    forall x | x in r
      ensures 0 <= FindIndex(s, x.siteTitle) && s[FindIndex(s, x.siteTitle)] == x
    {
      var k :| 0 <= k < |r| && r[k] == x;
      assert IsFirstIndex(s, idx[k]);
    }
  }

  /** Deduplication neither loses nor invents a title. */
  lemma DedupeTitles(s: seq<SiteData>)
    ensures Titles(DedupeByTitle(s)) == Titles(s)
  {
    var r := DedupeByTitle(s);
    DedupeKeepsFirstOfEachTitle(s);
    DedupeKeepsOnlyFirsts(s);
    forall t | t in Titles(s)
      ensures t in Titles(r)
    {
      var i :| 0 <= i < |s| && s[i].siteTitle == t;
      assert s[FindIndex(s, t)] in r;
    }
  }

  lemma {:induction false} FilterByPositionAll(self: seq<SiteData>, keep: nat -> bool, n: nat)
    requires n <= |self|
    requires forall i :: 0 <= i < n ==> keep(i)
    ensures FilterByPosition(self, keep, n) == self[..n]
  {
    if n > 0 {
      FilterByPositionAll(self, keep, n - 1);
      assert self[..n] == self[..n - 1] + [self[n - 1]];
    }
  }

  /** A list whose titles are already distinct comes out unchanged. */
  lemma DedupeOfDistinct(s: seq<SiteData>)
    requires DistinctTitles(s)
    ensures DedupeByTitle(s) == s
  {
    forall i | 0 <= i < |s|
      ensures IsFirstIndex(s, i)
    {
      var j := FindIndex(s, s[i].siteTitle);
      assert s[j].siteTitle == s[i].siteTitle;
    }
    FilterByPositionAll(s, (i: nat) => i < |s| && IsFirstIndex(s, i), |s|);
    assert s[..|s|] == s;
  }

  /** Deduplicating twice is the same as deduplicating once. */
  lemma DedupeIdempotent(s: seq<SiteData>)
    ensures DedupeByTitle(DedupeByTitle(s)) == DedupeByTitle(s)
  {
    DedupeDistinctTitles(s);
    DedupeOfDistinct(DedupeByTitle(s));
  }

  /** Of two records with the same title only the first is kept. */
  lemma DedupeDropsLaterSameTitle(x: SiteData, y: SiteData)
    requires x.siteTitle == y.siteTitle
    ensures DedupeByTitle([x, y]) == [x]
  {
    var s := [x, y];
    var keep := (i: nat) => i < |s| && IsFirstIndex(s, i);
    assert FindIndex(s, x.siteTitle) == 0;
    assert keep(0) && !keep(1);
    assert FilterByPosition(s, keep, 1) == [x];
    assert DedupeByTitle(s) == FilterByPosition(s, keep, 2);
  }
}
