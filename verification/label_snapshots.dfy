/** The sorted label arrays that go into broadcasts (route_table.cpp, label_io_types.h): a fixed
    number of entries, padded with invalid labels, independent of hash-map order. */
module LabelSnapshots {
  import opened Bytes

  const MAX_LABELS := 200
  const NO_LABEL: int32 := -1

  datatype LabelInfo = LabelInfo(labelId: int32, size: uint32)

  const UNUSED := LabelInfo(NO_LABEL, 0)

  /** The labels of a table with their sizes. */
  type Sizes = map<int32, nat>

  /** static_cast<uint32_t> of a size */
  function Entry(m: Sizes, l: int32): LabelInfo
    requires l in m
  {
    LabelInfo(l, m[l] % TWO_TO_THE_32)
  }

  function Entries(m: Sizes): set<LabelInfo> {
    set l | l in m :: Entry(m, l)
  }

  /** The entries of m and padding up to the array size. */
  function Padded(m: Sizes): multiset<LabelInfo> {
    multiset(Entries(m)) + Padding(if |m| <= MAX_LABELS then MAX_LABELS - |m| else 0)
  }

  function Padding(n: nat): multiset<LabelInfo> {
    multiset{}[UNUSED := n]
  }

  /** As many of the labels of m as an array can hold. */
  predicate Excerpt(part: Sizes, m: Sizes) {
    && part.Keys <= m.Keys && (forall l :: l in part ==> part[l] == m[l])
    && |part| == if |m| <= MAX_LABELS then |m| else MAX_LABELS
  }

  /** The array holds as many labels of the table as it can, each once, and is padded. */
  ghost predicate Listed(labels: seq<LabelInfo>, m: Sizes) {
    exists part: Sizes :: Excerpt(part, m) && multiset(labels) == Padded(part)
  }

  /** A small table is listed completely. */
  lemma ListedCompletely(labels: seq<LabelInfo>, m: Sizes)
    requires Listed(labels, m) && |m| <= MAX_LABELS
    ensures multiset(labels) == Padded(m)
  {
    var part: Sizes :| Excerpt(part, m) && multiset(labels) == Padded(part);
    SubsetOfSize(part.Keys, m.Keys);
    assert part == m;
  }

  /** Every entry in use is a label of the table with its size; of a small table every label is there. */
  lemma ListedEntries(labels: seq<LabelInfo>, m: Sizes)
    requires Listed(labels, m)
    ensures forall e :: e in labels && e != UNUSED ==> e.labelId in m && e == Entry(m, e.labelId)
    ensures |m| <= MAX_LABELS ==> forall l :: l in m ==> Entry(m, l) in labels
  {
    var part: Sizes :| Excerpt(part, m) && multiset(labels) == Padded(part);
    forall e | e in labels && e != UNUSED
      ensures e.labelId in m && e == Entry(m, e.labelId)
    {
      assert e in multiset(labels);
    }
    if |m| <= MAX_LABELS {
      ListedCompletely(labels, m);
      forall l | l in m
        ensures Entry(m, l) in labels
      {
        PaddedCovers(m, labels, l);
      }
    }
  }

  /** The labels in use in an array. */
  function InUse(labels: seq<LabelInfo>): set<int32> {
    set k | 0 <= k < |labels| && labels[k].labelId > NO_LABEL :: labels[k].labelId
  }

  lemma InUseNext(labels: seq<LabelInfo>, i: nat)
    requires i < |labels|
    ensures var l := labels[i].labelId;
            InUse(labels[..i + 1]) == InUse(labels[..i]) + if l > NO_LABEL then {l} else {}
  {
    forall l | l in InUse(labels[..i])
      ensures l in InUse(labels[..i + 1])
    {
      var k :| 0 <= k < i && labels[..i][k].labelId > NO_LABEL && labels[..i][k].labelId == l;
      assert labels[..i + 1][k] == labels[..i][k];
    }
    assert labels[..i + 1][i] == labels[i];
  }

  /** An array names as many labels of the table as it can hold. */
  lemma ListedLabels(labels: seq<LabelInfo>, m: Sizes)
    requires Listed(labels, m) && forall l :: l in m ==> l > NO_LABEL
    ensures InUse(labels) <= m.Keys && |InUse(labels)| == if |m| <= MAX_LABELS then |m| else MAX_LABELS
  {
    var part: Sizes :| Excerpt(part, m) && multiset(labels) == Padded(part);
    forall l | l in part
      ensures l in InUse(labels)
    {
      PaddedCovers(part, labels, l);
      var k :| 0 <= k < |labels| && labels[k] == Entry(part, l);
    }
    forall l | l in InUse(labels)
      ensures l in part
    {
      var k :| 0 <= k < |labels| && labels[k].labelId > NO_LABEL && labels[k].labelId == l;
      assert labels[k] in multiset(labels);
    }
    assert InUse(labels) == part.Keys && |part| == |part.Keys|;
  }

  lemma SubsetOfSize(a: set<int32>, b: set<int32>)
    requires a <= b && |a| == |b|
    ensures a == b
  {
    assert |b - a| == |b| - |a|;
  }

  predicate Ascending(s: seq<LabelInfo>) {
    forall i, j :: 0 <= i < j < |s| ==> s[i].labelId <= s[j].labelId
  }

  /** Equal labels mean equal entries: the sort leaves no choice. */
  predicate Determined(s: seq<LabelInfo>) {
    forall i, j :: 0 <= i < |s| && 0 <= j < |s| && s[i].labelId == s[j].labelId ==> s[i] == s[j]
  }

  function Insert(x: LabelInfo, s: seq<LabelInfo>): (r: seq<LabelInfo>)
    ensures |r| == |s| + 1
    ensures r[0] == x || (s != [] && r[0] == s[0])
  {
    if s == [] then [x]
    else if x.labelId <= s[0].labelId then [x] + s
    else [s[0]] + Insert(x, s[1..])
  }

  lemma AscendingCons(y: LabelInfo, t: seq<LabelInfo>)
    requires Ascending(t) && (t != [] ==> y.labelId <= t[0].labelId)
    ensures Ascending([y] + t)
  {
  }

  lemma {:induction false} InsertKeeps(x: LabelInfo, s: seq<LabelInfo>)
    requires Ascending(s)
    ensures Ascending(Insert(x, s)) && multiset(Insert(x, s)) == multiset(s) + multiset{x}
  {
    if s == [] {
    } else if x.labelId <= s[0].labelId {
      AscendingCons(x, s);
    } else {
      InsertKeeps(x, s[1..]);
      AscendingCons(s[0], Insert(x, s[1..]));
      assert s == [s[0]] + s[1..];
    }
  }

  /** std::sort by label */
  function Sort(s: seq<LabelInfo>): (r: seq<LabelInfo>)
    ensures |r| == |s|
  {
    if s == [] then [] else Insert(s[0], Sort(s[1..]))
  }

  lemma {:induction false} SortSorts(s: seq<LabelInfo>)
    ensures Ascending(Sort(s)) && multiset(Sort(s)) == multiset(s)
  {
    if s != [] {
      SortSorts(s[1..]);
      InsertKeeps(s[0], Sort(s[1..]));
      assert s == [s[0]] + s[1..];
    }
  }

  lemma SameFirst(a: seq<LabelInfo>, b: seq<LabelInfo>)
    requires Ascending(a) && Ascending(b) && Determined(a) && multiset(a) == multiset(b) && a != [] && b != []
    ensures a[0] == b[0]
  {
    assert a[0] in multiset(a) && b[0] in multiset(b);
    var i :| 0 <= i < |b| && b[i] == a[0];
    var j :| 0 <= j < |a| && a[j] == b[0];
  }

  lemma TailOf(a: seq<LabelInfo>)
    requires a != []
    ensures Ascending(a) ==> Ascending(a[1..])
    ensures Determined(a) ==> Determined(a[1..])
    ensures multiset(a[1..]) == multiset(a) - multiset{a[0]}
  {
    assert a == [a[0]] + a[1..];
  }

  /** Two ascending arrangements of the same entries are the same array. */
  lemma {:induction false} AscendingUnique(a: seq<LabelInfo>, b: seq<LabelInfo>)
    requires Ascending(a) && Ascending(b) && Determined(a) && multiset(a) == multiset(b)
    ensures a == b
  {
    hide Ascending, Determined;
    assert |multiset(a)| == |a| && |multiset(b)| == |b|;
    if a != [] {
      SameFirst(a, b);
      TailOf(a);
      TailOf(b);
      AscendingUnique(a[1..], b[1..]);
      assert a == [a[0]] + a[1..] && b == [b[0]] + b[1..];
    }
  }

  lemma PaddedDetermined(m: Sizes, a: seq<LabelInfo>)
    requires multiset(a) == Padded(m) && NO_LABEL !in m
    ensures Determined(a)
  {
    forall i, j | 0 <= i < |a| && 0 <= j < |a| && a[i].labelId == a[j].labelId
      ensures a[i] == a[j]
    {
      assert a[i] in multiset(a) && a[j] in multiset(a);
    }
  }

  /** The array for m is the same whatever order the table is walked in. */
  lemma SnapshotsAgree(m: Sizes, a: seq<LabelInfo>, b: seq<LabelInfo>)
    requires NO_LABEL !in m && Ascending(a) && Ascending(b)
    requires multiset(a) == Padded(m) && multiset(b) == Padded(m)
    ensures a == b
  {
    PaddedDetermined(m, a);
    AscendingUnique(a, b);
  }

  /** With valid labels only, the padding comes first and then exactly the labels of the table. */
  lemma PaddingFirst(m: Sizes, a: seq<LabelInfo>, i: nat)
    requires (forall l :: l in m ==> l > NO_LABEL) && |m| <= MAX_LABELS
    requires Ascending(a) && multiset(a) == Padded(m) && i < |a|
    ensures |a| == MAX_LABELS
    ensures a[i] == UNUSED <==> i < MAX_LABELS - |m|
    ensures i >= MAX_LABELS - |m| ==> a[i].labelId in m && a[i] == Entry(m, a[i].labelId)
    ensures forall l :: l in m ==> Entry(m, l) in a
  {
    EntriesCount(m);
    assert |multiset(a)| == |a|;
    assert a[i] in multiset(a);
    forall l | l in m
      ensures Entry(m, l) in a
    {
      PaddedCovers(m, a, l);
    }
    forall k | 0 <= k < |a|
      ensures a[k] == UNUSED || a[k].labelId > NO_LABEL
    {
      assert a[k] in multiset(a);
    }
    CountRun(a, MAX_LABELS - |m|);
  }

  lemma {:induction false} EntriesCount(m: Sizes)
    ensures |Entries(m)| == |m|
    decreases |m|
  {
    if m != map[] {
      var l :| l in m;
      var rest := map k | k in m && k != l :: m[k];
      assert rest.Keys == m.Keys - {l};
      EntriesCount(rest);
      assert forall k :: k in rest ==> Entry(rest, k) == Entry(m, k);
      assert Entries(m) == Entries(rest) + {Entry(m, l)};
      assert Entry(m, l) !in Entries(rest);
    } else {
      assert Entries(m) == {};
    }
  }

  /** In an ascending array the padding comes first. */
  lemma {:induction false} CountRun(a: seq<LabelInfo>, n: nat)
    requires Ascending(a) && multiset(a)[UNUSED] == n
    requires forall k :: 0 <= k < |a| ==> a[k] == UNUSED || a[k].labelId > NO_LABEL
    ensures n <= |a| && forall k :: 0 <= k < |a| ==> (a[k] == UNUSED <==> k < n)
  {
    if a != [] {
      var m := |a| - 1;
      assert a == a[..m] + [a[m]];
      CountRun(a[..m], multiset(a[..m])[UNUSED]);
      if a[m] == UNUSED && m > 0 {
        assert a[m - 1].labelId <= NO_LABEL;
      }
    }
  }

  lemma PaddedCovers(m: Sizes, a: seq<LabelInfo>, l: int32)
    requires multiset(a) == Padded(m) && l in m
    ensures Entry(m, l) in a
  {
    assert Entry(m, l) in multiset(a);
  }
}
