/** The CiviCRM groups mapped to Mailchimp (the rows `getGroupsToSync`
 *  returns, CRM/Mailchimp/Utils.php) and `splitGroupTitles`, which recovers
 *  the groups a contact belongs to from the comma-joined titles CiviCRM's
 *  contact API reports.  Titles may themselves contain commas, so the titles
 *  are looked for as whole comma-delimited segments, longest first, and each
 *  one found is cut out of the string. */
module MailchimpGroups {
  import opened Base
  import opened Strings
  import opened PhpArray

  /** The mapping details of one CiviCRM group.  Everything read from the
   *  database may be null except the group's title. */
  datatype GroupDetails = GroupDetails(
    listId: Option<string>,
    listName: Option<string>,
    categoryId: Option<string>,
    interestId: Option<string>,
    isMcUpdateGrouping: Option<string>,
    title: string,
    groupingId: Option<string>,
    groupId: Option<string>,
    groupName: Option<string>)

  /** Group details indexed by CiviCRM group id, in the order of the query. */
  type GroupTable = seq<(int, GroupDetails)>

  /** `empty($details['category_id'])`: the group decides membership of the
   *  list rather than an interest. */
  predicate IsMembershipGroup(d: GroupDetails) {
    EmptyText(d.categoryId)
  }

  /** A group's title as it appears between commas. */
  function Needle(title: string): string {
    "," + title + ","
  }

  predicate LongestFirst(s: GroupTable) {
    forall i, j :: 0 <= i < j < |s| ==> |s[i].1.title| >= |s[j].1.title|
  }

  /** Inserting before the first entry whose title is not longer keeps
   *  entries with titles of equal length in their original order. */
  function InsertByLength(x: (int, GroupDetails), s: GroupTable): GroupTable
    decreases |s|
  {
    if s == [] || |x.1.title| >= |s[0].1.title| then [x] + s
    else [s[0]] + InsertByLength(x, s[1..])
  }

  /** `uasort` by descending title length (stable, as in PHP 8). */
  function SortByLength(m: GroupTable): GroupTable
    decreases |m|
  {
    if m == [] then [] else InsertByLength(m[0], SortByLength(m[1..]))
  }

  /** Insertion adds exactly the entry. */
  lemma {:induction false} InsertByLengthSame(x: (int, GroupDetails), s: GroupTable)
    ensures |InsertByLength(x, s)| == |s| + 1
    ensures forall p :: p in InsertByLength(x, s) <==> p == x || p in s
    decreases |s|
  {
    if !(s == [] || |x.1.title| >= |s[0].1.title|) {
      assert s == [s[0]] + s[1..];
      InsertByLengthSame(x, s[1..]);
    }
  }

  lemma {:induction false} InsertByLengthSorted(x: (int, GroupDetails), s: GroupTable)
    requires LongestFirst(s)
    ensures LongestFirst(InsertByLength(x, s))
    ensures |InsertByLength(x, s)| == |s| + 1
    ensures forall p :: p in InsertByLength(x, s) <==> p == x || p in s
    decreases |s|
  {
    InsertByLengthSame(x, s);
    if s == [] || |x.1.title| >= |s[0].1.title| {
      var r := [x] + s;
      assert forall i :: 0 < i < |r| ==> r[i] == s[i - 1];
    } else {
      var rest := InsertByLength(x, s[1..]);
      InsertByLengthSorted(x, s[1..]);
      var r := [s[0]] + rest;
      assert r == InsertByLength(x, s);
      forall j | 0 < j < |r| ensures |r[0].1.title| >= |r[j].1.title| {
        assert r[j] == rest[j - 1] && r[j] in rest;
        if r[j] != x {
          var m :| 0 <= m < |s[1..]| && s[1..][m] == r[j];
          assert s[m + 1] == r[j];
        }
      }
      forall i, j | 0 < i < j < |r| ensures |r[i].1.title| >= |r[j].1.title| {
        assert r[i] == rest[i - 1] && r[j] == rest[j - 1];
      }
    }
  }

  lemma {:induction false} InsertByLengthUnique(x: (int, GroupDetails), s: GroupTable)
    requires UniqueKeys(s) && x.0 !in KeySet(s)
    ensures UniqueKeys(InsertByLength(x, s))
    ensures forall p :: p in InsertByLength(x, s) <==> p == x || p in s
    decreases |s|
  {
    if s == [] || |x.1.title| >= |s[0].1.title| {
      var r := [x] + s;
      forall i, j | 0 <= i < j < |r| ensures r[i].0 != r[j].0 {
        if i == 0 {
          assert r[j] == s[j - 1];
          assert r[j] in s;
        } else {
          assert r[i] == s[i - 1] && r[j] == s[j - 1];
        }
      }
    } else {
      var rest := InsertByLength(x, s[1..]);
      assert s == [s[0]] + s[1..];
      assert KeySet(s[1..]) <= KeySet(s) by {
        forall p | p in s[1..] ensures p in s { }
      }
      assert UniqueKeys(s[1..]) by {
        forall i, j | 0 <= i < j < |s[1..]| ensures s[1..][i].0 != s[1..][j].0 {
          assert s[1..][i] == s[i + 1] && s[1..][j] == s[j + 1];
        }
      }
      InsertByLengthUnique(x, s[1..]);
      var r := [s[0]] + rest;
      forall i, j | 0 <= i < j < |r| ensures r[i].0 != r[j].0 {
        if i == 0 {
          assert r[j] in rest;
          if r[j] != x {
            var t :| 0 <= t < |s[1..]| && s[1..][t] == r[j];
            assert s[t + 1] == r[j];
          } else {
            assert s[0] in s;
          }
        } else {
          assert r[i] == rest[i - 1] && r[j] == rest[j - 1];
        }
      }
    }
  }

  /** Sorting puts the longest titles first and keeps exactly the same
   *  entries, with their keys still unique. */
  lemma {:induction false} SortByLengthSorted(m: GroupTable)
    ensures LongestFirst(SortByLength(m))
    ensures |SortByLength(m)| == |m|
    ensures forall p :: p in SortByLength(m) <==> p in m
    ensures UniqueKeys(m) ==> UniqueKeys(SortByLength(m))
    decreases |m|
  {
    if m != [] {
      assert m == [m[0]] + m[1..];
      var rest := SortByLength(m[1..]);
      SortByLengthSorted(m[1..]);
      if UniqueKeys(m) {
        assert forall j :: 0 <= j < |m[1..]| ==> m[1..][j].0 != m[0].0 by {
          forall j | 0 <= j < |m[1..]| ensures m[1..][j].0 != m[0].0 {
            assert m[1..][j] == m[j + 1];
          }
        }
        assert UniqueKeys(m[1..]) by {
          forall i, j | 0 <= i < j < |m[1..]| ensures m[1..][i].0 != m[1..][j].0 {
            assert m[1..][i] == m[i + 1] && m[1..][j] == m[j + 1];
          }
        }
        assert m[0].0 !in KeySet(rest) by {
          forall p | p in rest ensures p.0 != m[0].0 {
            var t :| 0 <= t < |m[1..]| && m[1..][t] == p;
          }
        }
      }
      InsertByLengthSorted(m[0], rest);
      if UniqueKeys(m) {
        InsertByLengthUnique(m[0], rest);
      }
    }
  }

  predicate Framed(w: string) {
    |w| >= 1 && w[0] == ',' && w[|w| - 1] == ','
  }

  /** The working string once the segment of `title` found at `i` is cut
   *  out: the comma before it stays, so the string stays framed by commas
   *  and is shorter by the title and one comma. */
  function Cut(work: string, i: nat, title: string): (r: string)
    requires OccursAt(work, Needle(title), i)
    ensures |r| == |work| - |title| - 1
    ensures Framed(work) ==> Framed(r)
    ensures r[..i + 1] == work[..i + 1] && r[i + 1..] == work[i + |title| + 2..]
  {
    assert work[i] == Needle(title)[0];
    work[..i + 1] + work[i + |title| + 2..]
  }

  /** The loop of `splitGroupTitles` from some point on: the ids of the
   *  groups, among those still to look at, whose segment is found. */
  function Scan(work: string, sorted: GroupTable): seq<int>
    decreases |sorted|
  {
    if sorted == [] then []
    else match IndexOf(work, Needle(sorted[0].1.title))
      case None => Scan(work, sorted[1..])
      case Some(i) => [sorted[0].0] + Scan(Cut(work, i, sorted[0].1.title), sorted[1..])
  }

  /** What `splitGroupTitles($titles, $details)` returns. */
  function SplitSpec(titles: string, details: GroupTable): seq<int> {
    Scan("," + titles + ",", SortByLength(details))
  }

  lemma {:induction false} ScanFromEntries(work: string, sorted: GroupTable)
    ensures forall x :: x in Scan(work, sorted) ==> x in KeySet(sorted)
    ensures UniqueKeys(sorted) ==>
      forall i, j :: 0 <= i < j < |Scan(work, sorted)| ==> Scan(work, sorted)[i] != Scan(work, sorted)[j]
    decreases |sorted|
  {
    if sorted != [] {
      var tail := sorted[1..];
      assert KeySet(tail) <= KeySet(sorted) by {
        forall p | p in tail ensures p in sorted { }
      }
      assert sorted[0] in sorted;
      var r := Scan(work, sorted);
      match IndexOf(work, Needle(sorted[0].1.title))
      case None =>
        ScanFromEntries(work, tail);
        if UniqueKeys(sorted) {
          assert UniqueKeys(tail) by {
            forall i, j | 0 <= i < j < |tail| ensures tail[i].0 != tail[j].0 {
              assert tail[i] == sorted[i + 1] && tail[j] == sorted[j + 1];
            }
          }
        }
      case Some(k) =>
        var w := Cut(work, k, sorted[0].1.title);
        ScanFromEntries(w, tail);
        assert r == [sorted[0].0] + Scan(w, tail);
        if UniqueKeys(sorted) {
          assert UniqueKeys(tail) by {
            forall i, j | 0 <= i < j < |tail| ensures tail[i].0 != tail[j].0 {
              assert tail[i] == sorted[i + 1] && tail[j] == sorted[j + 1];
            }
          }
          assert sorted[0].0 !in KeySet(tail) by {
            forall p | p in tail ensures p.0 != sorted[0].0 {
              var t :| 0 <= t < |tail| && tail[t] == p;
              assert sorted[t + 1] == p;
            }
          }
          forall i, j | 0 <= i < j < |r| ensures r[i] != r[j] {
            if i == 0 {
              assert r[j] == Scan(w, tail)[j - 1];
              assert r[j] in Scan(w, tail);
            } else {
              assert r[i] == Scan(w, tail)[i - 1] && r[j] == Scan(w, tail)[j - 1];
            }
          }
        }
    }
  }

  /** `splitGroupTitles` returns only ids of the given groups, and none of
   *  them twice. */
  lemma SplitGivesGroupIds(titles: string, details: GroupTable)
    requires UniqueKeys(details)
    ensures forall x :: x in SplitSpec(titles, details) ==> x in KeySet(details)
    ensures forall i, j :: 0 <= i < j < |SplitSpec(titles, details)| ==>
      SplitSpec(titles, details)[i] != SplitSpec(titles, details)[j]
  {
    var sorted := SortByLength(details);
    SortByLengthSorted(details);
    ScanFromEntries("," + titles + ",", sorted);
    forall x | x in KeySet(sorted) ensures x in KeySet(details) {
      var p :| p in sorted && p.0 == x;
    }
  }

  /** No segment can be found in a working string shorter than every
   *  needle. */
  lemma {:induction false} ScanShort(work: string, sorted: GroupTable)
    requires forall p :: p in sorted ==> |Needle(p.1.title)| > |work|
    ensures Scan(work, sorted) == []
    decreases |sorted|
  {
    if sorted != [] {
      assert sorted[0] in sorted;
      assert IndexOf(work, Needle(sorted[0].1.title)).None?;
      ScanShort(work, sorted[1..]);
    }
  }

  /** A contact in no group ('' from the API) is found in none, as long as
   *  no mapped group has an empty title. */
  lemma NoTitlesNoGroups(details: GroupTable)
    requires forall p :: p in details ==> p.1.title != ""
    ensures SplitSpec("", details) == []
  {
    SortByLengthSorted(details);
    assert "," + "" + "," == ",,";
    ScanShort(",,", SortByLength(details));
  }

  /** Longest titles are matched first: when the titles string is exactly
   *  the title of a group whose title is longer than every other, only that
   *  group is found, even when its title contains the titles of others
   *  joined by commas (a contact in "dee,eee" is not taken to be in "dee"
   *  and "eee"). */
  lemma WholeTitleFoundAlone(details: GroupTable, g: int, d: GroupDetails)
    requires UniqueKeys(details) && (g, d) in details
    requires forall p :: p in details && p.0 != g ==> |p.1.title| < |d.title|
    ensures SplitSpec(d.title, details) == [g]
  {
    var sorted := SortByLength(details);
    SortByLengthSorted(details);
    assert (g, d) in sorted;
    var k :| 0 <= k < |sorted| && sorted[k] == (g, d);
    assert |sorted[0].1.title| >= |d.title| by {
      if k > 0 {
        assert |sorted[0].1.title| >= |sorted[k].1.title|;
      }
    }
    assert sorted[0] in details;
    assert sorted[0].0 == g;
    KeyedEntryUnique(details, g, sorted[0].1, d);
    var work := "," + d.title + ",";
    assert OccursAt(work, Needle(d.title), 0);
    var i := IndexOf(work, Needle(d.title));
    assert i == Some(0);
    var rest := Cut(work, 0, d.title);
    assert rest == ",";
    forall p | p in sorted[1..] ensures |Needle(p.1.title)| > |rest| {
    }
    ScanShort(rest, sorted[1..]);
  }

  /** `splitGroupTitles($titles, $details)`. */
  method SplitGroupTitles(titles: string, details: GroupTable) returns (groups: seq<int>)
    ensures groups == SplitSpec(titles, details)
    ensures UniqueKeys(details) ==> forall x :: x in groups ==> x in KeySet(details)
    ensures UniqueKeys(details) ==> forall i, j :: 0 <= i < j < |groups| ==> groups[i] != groups[j]
    ensures (forall p :: p in details ==> CommaFree(p.1.title)) && TitlesTellApart(details) ==>
      forall g :: g in groups <==> exists d :: (g, d) in details && d.title in Explode(titles, ",")
  {
    var sorted := SortByLength(details);
    var work := "," + titles + ",";
    groups := [];
    var k := 0;
    while k < |sorted|
      invariant 0 <= k <= |sorted|
      invariant groups + Scan(work, sorted[k..]) == SplitSpec(titles, details)
    {
      assert sorted[k..][0] == sorted[k] && sorted[k..][1..] == sorted[k + 1..];
      var entry := sorted[k];
      var found := IndexOf(work, Needle(entry.1.title));
      if found.Some? {
        groups := groups + [entry.0];
        work := Cut(work, found.value, entry.1.title);
      }
      k := k + 1;
    }
    assert sorted[k..] == [];
    if UniqueKeys(details) {
      SplitGivesGroupIds(titles, details);
    }
    if (forall p :: p in details ==> CommaFree(p.1.title)) && TitlesTellApart(details) {
      forall g ensures g in groups <==> exists d :: (g, d) in details && d.title in Explode(titles, ",") {
        SplitFindsExplodedTitles(titles, details, g);
      }
    }
  }

  // ----- What `splitGroupTitles` finds, as a set -----

  predicate CommaFree(s: string) {
    forall i :: 0 <= i < |s| ==> s[i] != ','
  }

  /** No two entries share a title. */
  predicate TitlesTellApart(s: GroupTable) {
    forall p, q :: p in s && q in s && p.1.title == q.1.title ==> p == q
  }

  /** Segments each framed by commas: what the working string looks like
   *  for a comma-joined list of segments. */
  function Framing(segs: seq<string>): (w: string)
    ensures |w| >= 1 && w[0] == ','
    decreases |segs|
  {
    if segs == [] then "," else "," + segs[0] + Framing(segs[1..])
  }

  lemma {:induction false} FramingOfImplode(segs: seq<string>)
    requires segs != []
    ensures "," + Implode(segs, ",") + "," == Framing(segs)
    decreases |segs|
  {
    var rest := segs[1..];
    if |segs| == 1 {
      assert rest == [];
    } else {
      FramingOfImplode(rest);
      calc {
        "," + Implode(segs, ",") + ",";
        "," + (segs[0] + "," + Implode(rest, ",")) + ",";
        { assert "," + (segs[0] + "," + Implode(rest, ",")) + "," ==
            "," + segs[0] + ("," + Implode(rest, ",") + ","); }
        "," + segs[0] + Framing(rest);
      }
    }
  }

  /** A piece of `explode(',', …)` has no comma in it. */
  lemma ExplodedCommaFree(s: string)
    requires !Contains(s, ",")
    ensures CommaFree(s)
  {
    forall i | 0 <= i < |s| ensures s[i] != ',' {
      assert !OccursAt(s, ",", i);
      assert s[i..i + 1] == [s[i]];
    }
  }

  /** A slice of the tail of a concatenation, taken from the whole. */
  lemma SliceAfter(head: string, rest: string, a: nat, b: nat)
    requires a <= b <= |rest|
    ensures (head + rest)[|head| + a..|head| + b] == rest[a..b]
  {
    assert forall x :: 0 <= x < b - a ==> (head + rest)[|head| + a..|head| + b][x] == rest[a..b][x];
  }

  /** An occurrence in the tail of a concatenation is one in the whole, and
   *  cutting it there cuts it in the tail. */
  lemma CutAfter(head: string, rest: string, j: nat, t: string)
    requires OccursAt(rest, Needle(t), j)
    ensures OccursAt(head + rest, Needle(t), |head| + j)
    ensures Cut(head + rest, |head| + j, t) == head + Cut(rest, j, t)
  {
    SliceAfter(head, rest, j, j + |Needle(t)|);
    var w := head + rest;
    assert w[..|head| + j + 1] == head + rest[..j + 1];
    assert w[|head| + j + |t| + 2..] == rest[j + |t| + 2..];
  }

  /** Every segment stands between two commas of the framing. */
  lemma {:induction false} SegmentOccurs(segs: seq<string>, k: nat)
    requires k < |segs|
    ensures exists i: nat :: OccursAt(Framing(segs), Needle(segs[k]), i)
    decreases k
  {
    var rest := Framing(segs[1..]);
    var head := "," + segs[0];
    assert Framing(segs) == head + rest;
    if k == 0 {
      assert Framing(segs)[0..|segs[0]| + 2] == Needle(segs[0]);
      assert OccursAt(Framing(segs), Needle(segs[0]), 0);
    } else {
      SegmentOccurs(segs[1..], k - 1);
      assert segs[1..][k - 1] == segs[k];
      var i: nat :| OccursAt(rest, Needle(segs[k]), i);
      CutAfter(head, rest, i, segs[k]);
    }
  }

  /** A comma-free title found at the start of the framing is the first
   *  segment. */
  lemma FoundFirst(s0: string, r: string, t: string)
    requires CommaFree(s0) && CommaFree(t) && |r| >= 1 && r[0] == ','
    requires OccursAt("," + s0 + r, Needle(t), 0)
    ensures t == s0
  {
    var w := "," + s0 + r;
    var nd := Needle(t);
    assert forall x :: 0 <= x < |nd| ==> w[x] == nd[x] by {
      forall x | 0 <= x < |nd| ensures w[x] == nd[x] {
        assert w[0..|nd|][x] == w[x];
      }
    }
    assert w[|t| + 1] == nd[|t| + 1] == ',';
    assert |s0| + 1 < |w| && w[|s0| + 1] == r[0] == ',';
    if |t| < |s0| {
      assert false;
    } else if |t| > |s0| {
      assert false;
    }
    forall x | 0 <= x < |t| ensures t[x] == s0[x] {
      assert nd[x + 1] == t[x] && w[x + 1] == s0[x];
    }
  }

  /** No occurrence of a needle starts inside the first segment. */
  lemma NotInsideFirst(s0: string, r: string, t: string, i: nat)
    requires CommaFree(s0) && 0 < i <= |s0|
    ensures !OccursAt("," + s0 + r, Needle(t), i)
  {
    var w := "," + s0 + r;
    assert w[i] == s0[i - 1] != ',';
    if i + |Needle(t)| <= |w| {
      assert w[i..i + |Needle(t)|][0] == w[i];
    }
  }

  lemma FramingCons(s0: string, others: seq<string>)
    ensures Framing([s0] + others) == "," + s0 + Framing(others)
  {
    assert ([s0] + others)[1..] == others;
  }

  lemma DropShift(segs: seq<string>, k: nat)
    requires k + 1 < |segs|
    ensures [segs[0]] + (segs[1..][..k] + segs[1..][k + 1..]) == segs[..k + 1] + segs[k + 2..]
  {
  }

  /** A comma-free title is found only as a whole segment, and cutting it
   *  out leaves the framing of the other segments. */
  lemma {:induction false} OccursOnlyAsSegment(segs: seq<string>, t: string, i: nat)
    requires forall s :: s in segs ==> CommaFree(s)
    requires CommaFree(t)
    requires OccursAt(Framing(segs), Needle(t), i)
    ensures exists k ::
      0 <= k < |segs| && segs[k] == t && Cut(Framing(segs), i, t) == Framing(segs[..k] + segs[k + 1..])
    decreases |segs|
  {
    assert segs != [];
    var s0 := segs[0];
    var rest := segs[1..];
    var r := Framing(rest);
    var head := "," + s0;
    assert Framing(segs) == head + r;
    assert s0 in segs;
    if i == 0 {
      FoundFirst(s0, r, t);
      assert Cut(head + r, 0, t) == r;
      assert segs[..0] + segs[1..] == rest;
    } else {
      if i <= |s0| {
        NotInsideFirst(s0, r, t, i);
      }
      var j := i - |head|;
      SliceAfter(head, r, j, j + |Needle(t)|);
      assert forall s :: s in rest ==> s in segs;
      OccursOnlyAsSegment(rest, t, j);
      var k :| 0 <= k < |rest| && rest[k] == t && Cut(r, j, t) == Framing(rest[..k] + rest[k + 1..]);
      CutAfter(head, r, j, t);
      FramingCons(s0, rest[..k] + rest[k + 1..]);
      DropShift(segs, k);
      assert segs[k + 1] == t;
    }
  }

  /** Cutting out one segment keeps every other segment. */
  lemma OthersKept(segs: seq<string>, k: nat, x: string)
    requires k < |segs| && x in segs && x != segs[k]
    ensures x in segs[..k] + segs[k + 1..]
  {
    var m :| 0 <= m < |segs| && segs[m] == x;
    if m < k {
      assert (segs[..k] + segs[k + 1..])[m] == x;
    } else {
      assert (segs[..k] + segs[k + 1..])[m - 1] == x;
    }
  }

  ghost predicate Listed(g: int, sorted: GroupTable, segs: seq<string>) {
    exists d :: (g, d) in sorted && d.title in segs
  }

  /** The scan finds a group iff its comma-free title is one of the
   *  segments still in the working string. */
  lemma {:induction false} ScanSegments(segs: seq<string>, sorted: GroupTable, g: int)
    requires forall s :: s in segs ==> CommaFree(s)
    requires forall p :: p in sorted ==> CommaFree(p.1.title)
    requires TitlesTellApart(sorted)
    ensures g in Scan(Framing(segs), sorted) <==> Listed(g, sorted, segs)
    decreases |sorted|
  {
    if sorted != [] {
      var head := sorted[0];
      var tail := sorted[1..];
      var w := Framing(segs);
      assert sorted == [head] + tail;
      assert head in sorted;
      assert forall p :: p in tail ==> p in sorted;
      match IndexOf(w, Needle(head.1.title))
      case None =>
        if head.1.title in segs {
          var k :| 0 <= k < |segs| && segs[k] == head.1.title;
          SegmentOccurs(segs, k);
          assert false;
        }
        ScanSegments(segs, tail, g);
        assert Listed(g, sorted, segs) ==> Listed(g, tail, segs);
      case Some(i) =>
        OccursOnlyAsSegment(segs, head.1.title, i);
        var k :| 0 <= k < |segs| && segs[k] == head.1.title &&
          Cut(w, i, head.1.title) == Framing(segs[..k] + segs[k + 1..]);
        var others := segs[..k] + segs[k + 1..];
        assert forall s :: s in others ==> s in segs;
        ScanSegments(others, tail, g);
        assert Scan(w, sorted) == [head.0] + Scan(Framing(others), tail);
        if g != head.0 && Listed(g, sorted, segs) {
          var d :| (g, d) in sorted && d.title in segs;
          assert (g, d) in tail;
          OthersKept(segs, k, d.title);
          assert Listed(g, tail, others);
        }
        assert g == head.0 ==> Listed(g, sorted, segs);
        assert Listed(g, tail, others) ==> Listed(g, sorted, segs);
    }
  }

  /** `splitGroupTitles` is right as a set when no group title holds a comma
   *  and no two groups share a title: for titles joined by commas, a group
   *  is returned iff its title is one of them. */
  lemma SplitFindsListedTitles(segs: seq<string>, details: GroupTable, g: int)
    requires segs != [] && forall s :: s in segs ==> CommaFree(s)
    requires forall p :: p in details ==> CommaFree(p.1.title)
    requires TitlesTellApart(details)
    ensures g in SplitSpec(Implode(segs, ","), details) <==> exists d :: (g, d) in details && d.title in segs
  {
    assert forall p :: p in SortByLength(details) <==> p in details by {
      SortByLengthSorted(details);
    }
    FramingOfImplode(segs);
    SortByLengthSorted(details);
    ScanSegments(segs, SortByLength(details), g);
  }

  /** The same for the string as the Contact API reports it: a group is
   *  returned iff its title is one of the pieces between the commas. */
  lemma SplitFindsExplodedTitles(titles: string, details: GroupTable, g: int)
    requires forall p :: p in details ==> CommaFree(p.1.title)
    requires TitlesTellApart(details)
    ensures g in SplitSpec(titles, details) <==> exists d :: (g, d) in details && d.title in Explode(titles, ",")
  {
    var segs := Explode(titles, ",");
    ExplodeImplode(titles, ",");
    forall s | s in segs ensures CommaFree(s) {
      var k :| 0 <= k < |segs| && segs[k] == s;
      ExplodedCommaFree(s);
    }
    SplitFindsListedTitles(segs, details, g);
  }

  // ----- The example of the doc comment -----

  /** A mapped group known by its title only. */
  function Titled(title: string): GroupDetails {
    GroupDetails(None, None, None, None, None, title, None, None, None)
  }

  /** The groups "Sponsored walk" (id 1) and "Sponsored walk, 2015" (id 2). */
  function WalkGroups(): GroupTable {
    [(1, Titled("Sponsored walk")), (2, Titled("Sponsored walk, 2015"))]
  }

  lemma FirstOccurrence(s: string, p: string, k: nat)
    requires OccursAt(s, p, k)
    requires forall j :: 0 <= j < k ==> !OccursAt(s, p, j)
    ensures IndexOf(s, p) == Some(k)
  {
  }

  const Walk := "Sponsored walk"
  const Walk2015 := "Sponsored walk, 2015"

  lemma WalkSorted()
    ensures SortByLength(WalkGroups()) == [(2, Titled(Walk2015)), (1, Titled(Walk))]
  {
    assert WalkGroups()[1..] == [(2, Titled(Walk2015))];
    assert SortByLength([(2, Titled(Walk2015))]) == [(2, Titled(Walk2015))];
    assert InsertByLength((1, Titled(Walk)), []) == [(1, Titled(Walk))];
  }

  /** "Sponsored walk, 2015" is first found where it stands, after
   *  "Sponsored walk". */
  lemma LongerWalkFound()
    ensures IndexOf("," + Walk + "," + Walk2015 + ",", Needle(Walk2015)) == Some(15)
  {
    var both := "," + Walk + "," + Walk2015 + ",";
    assert both == ("," + Walk) + Needle(Walk2015) && |"," + Walk| == 15;
    assert both[15..15 + |Needle(Walk2015)|] == Needle(Walk2015);
    assert OccursAt(both, Needle(Walk2015), 15);
    forall j | 0 <= j < 15 ensures !OccursAt(both, Needle(Walk2015), j) {
      if j == 0 {
        assert both[16] != Needle(Walk2015)[16];
      } else {
        assert both[j] == Walk[j - 1] != ',';
      }
    }
    FirstOccurrence(both, Needle(Walk2015), 15);
  }

  /** Once the longer title is cut out, the shorter one is all that is
   *  left. */
  lemma ShorterWalkLeft()
    ensures Cut("," + Walk + "," + Walk2015 + ",", 15, Walk2015) == Needle(Walk)
    ensures IndexOf(Needle(Walk), Needle(Walk)) == Some(0)
    ensures Cut(Needle(Walk), 0, Walk) == ","
  {
    assert OccursAt(Needle(Walk), Needle(Walk), 0);
    FirstOccurrence(Needle(Walk), Needle(Walk), 0);
  }

  /** The search for the longer title finds it and cuts it out. */
  lemma WalkScanLonger()
    ensures Scan("," + Walk + "," + Walk2015 + ",", [(2, Titled(Walk2015)), (1, Titled(Walk))]) ==
      [2] + Scan(Needle(Walk), [(1, Titled(Walk))])
  {
    var sorted: GroupTable := [(2, Titled(Walk2015)), (1, Titled(Walk))];
    assert sorted[0].1.title == Walk2015 && sorted[1..] == [(1, Titled(Walk))];
    LongerWalkFound();
    ShorterWalkLeft();
  }

  /** The search for the shorter title in what is left finds it. */
  lemma WalkScanShorter()
    ensures Scan(Needle(Walk), [(1, Titled(Walk))]) == [1]
  {
    var sorted: GroupTable := [(1, Titled(Walk))];
    assert sorted[0].1.title == Walk && sorted[1..] == [];
    ShorterWalkLeft();
    assert Scan(",", []) == [];
  }

  /** A contact in both groups is found in both, the longer title first,
   *  although that title holds a comma. */
  lemma BothWalksFound()
    ensures SplitSpec("Sponsored walk,Sponsored walk, 2015", WalkGroups()) == [2, 1]
  {
    WalkSorted();
    assert "," + "Sponsored walk,Sponsored walk, 2015" + "," == "," + Walk + "," + Walk2015 + ",";
    WalkScanLonger();
    WalkScanShorter();
  }

  /** A contact in "Sponsored walk" only is found in that group only. */
  lemma OneWalkFound()
    ensures SplitSpec("Sponsored walk", WalkGroups()) == [1]
  {
    WalkSorted();
    var sorted: GroupTable := [(2, Titled(Walk2015)), (1, Titled(Walk))];
    assert sorted[0].1.title == Walk2015 && sorted[1..] == [(1, Titled(Walk))];
    assert "," + "Sponsored walk" + "," == Needle(Walk);
    assert IndexOf(Needle(Walk), Needle(Walk2015)) == None;
    WalkScanShorter();
  }
}
