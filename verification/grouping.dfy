/** The grouping roll-up shared by the sales and supplier analyses: a pass
    over fetched records that opens a bucket the first time a key is seen
    (Python dict insertion order) and accumulates into it afterwards. */
module Grouping {
  import opened Wrappers
  import opened Seqs

  /** A many-to-one field as the backend returns it: `[id, display_name]`,
      or `False` when the field is unset. */
  type Relation = Option<(int, string)>

  /** The name given to the group of records whose relation is unset. */
  const UnknownName: string := "Desconocido"

  /** `rel[0] if rel else 0` */
  function RelationId(rel: Relation): int {
    if rel.Some? then rel.value.0 else 0
  }

  /** `rel[1] if rel else "Desconocido"` */
  function RelationName(rel: Relation): string {
    if rel.Some? then rel.value.1 else UnknownName
  }

  /** One record seen by a roll-up: its group key and display name, the
      quantity and amount it adds, and (for purchases) its delivery delay
      when both delivery dates were known. */
  datatype Entry = Entry(key: int, name: string, quantity: real, amount: real, delay: Option<int>)

  /** The accumulator of one group. */
  datatype Bucket = Bucket(id: int, name: string, count: nat, quantity: real, amount: real, delays: seq<int>)

  function EntryQuantity(e: Entry): real { e.quantity }
  function EntryAmount(e: Entry): real { e.amount }
  function BucketQuantity(b: Bucket): real { b.quantity }
  function BucketAmount(b: Bucket): real { b.amount }
  function BucketCount(b: Bucket): real { b.count as real }
  function BucketDelayCount(b: Bucket): real { |b.delays| as real }
  function EntryDelayCount(e: Entry): real { |DelayOf(e)| as real }

  function DelayOf(e: Entry): seq<int> {
    if e.delay.Some? then [e.delay.value] else []
  }

  /** The delays of `es`, in order. */
  function Delays(es: seq<Entry>): seq<int> {
    if |es| == 0 then [] else Delays(es[..|es| - 1]) + DelayOf(es[|es| - 1])
  }

  /** The entries of `es` whose key is `k`, in order. */
  function EntriesOf(es: seq<Entry>, k: int): seq<Entry> {
    if |es| == 0 then []
    else EntriesOf(es[..|es| - 1], k) + (if es[|es| - 1].key == k then [es[|es| - 1]] else [])
  }

  function Keys(es: seq<Entry>): set<int> {
    set i | 0 <= i < |es| :: es[i].key
  }

  /** The position of the first entry with key `k`, `|es|` when there is none. */
  function FirstIndex(es: seq<Entry>, k: int): (n: nat)
    ensures n <= |es|
    ensures n < |es| ==> es[n].key == k
    ensures forall j :: 0 <= j < n ==> es[j].key != k
  {
    if |es| == 0 then 0
    else if es[0].key == k then 0
    else
      var n := FirstIndex(es[1..], k);
      assert forall j :: 1 <= j < n + 1 ==> es[j] == es[1..][j - 1];
      n + 1
  }

  function Ids(bs: seq<Bucket>): set<int> {
    set i | 0 <= i < |bs| :: bs[i].id
  }

  predicate DistinctIds(bs: seq<Bucket>) {
    forall i, j :: 0 <= i < j < |bs| ==> bs[i].id != bs[j].id
  }

  /** Bucket `b` is what the entries of its group add up to: named after the
      first of them, counting them, and summing their quantities, amounts and
      delays. */
  predicate Summarises(b: Bucket, group: seq<Entry>) {
    && |group| > 0
    && b.name == group[0].name
    && b.count == |group|
    && b.quantity == Sum(group, EntryQuantity)
    && b.amount == Sum(group, EntryAmount)
    && b.delays == Delays(group)
  }

  /** What a roll-up promises about its buckets for the entries `es`. */
  predicate GroupsOf(bs: seq<Bucket>, es: seq<Entry>) {
    && DistinctIds(bs)
    && Ids(bs) == Keys(es)
    && forall i :: 0 <= i < |bs| ==> Summarises(bs[i], EntriesOf(es, bs[i].id))
  }

  /** The buckets are in the order in which their keys first appear in `es`:
      Python's dictionary insertion order. */
  predicate FirstAppearanceOrder(bs: seq<Bucket>, es: seq<Entry>) {
    forall i, j :: 0 <= i < j < |bs| ==> FirstIndex(es, bs[i].id) < FirstIndex(es, bs[j].id)
  }

  function Open(e: Entry): Bucket {
    Bucket(e.key, e.name, 1, e.quantity, e.amount, DelayOf(e))
  }

  function Merge(b: Bucket, e: Entry): Bucket {
    b.(count := b.count + 1, quantity := b.quantity + e.quantity,
       amount := b.amount + e.amount, delays := b.delays + DelayOf(e))
  }

  /** The position of the bucket with id `k`, or -1. */
  function IndexOf(bs: seq<Bucket>, k: int): (i: int)
    ensures -1 <= i < |bs|
    ensures i >= 0 ==> bs[i].id == k
    ensures i < 0 ==> k !in Ids(bs)
  {
    if |bs| == 0 then -1
    else if bs[|bs| - 1].id == k then |bs| - 1
    else
      var i := IndexOf(bs[..|bs| - 1], k);
      assert Ids(bs) == Ids(bs[..|bs| - 1]) + {bs[|bs| - 1].id};
      i
  }

  /** One step of the loop: `if key not in data: data[key] = {...}` then accumulate. */
  function Add(bs: seq<Bucket>, e: Entry): seq<Bucket> {
    var i := IndexOf(bs, e.key);
    if i >= 0 then bs[i := Merge(bs[i], e)] else bs + [Open(e)]
  }

  lemma {:induction false} EntriesOfAbsent(es: seq<Entry>, k: int)
    ensures k !in Keys(es) <==> EntriesOf(es, k) == []
    decreases |es|
  {
    if |es| > 0 {
      var init := es[..|es| - 1];
      assert Keys(es) == Keys(init) + {es[|es| - 1].key};
      EntriesOfAbsent(init, k);
    }
  }

  lemma SumSnoc<T>(s: seq<T>, x: T, f: T -> real)
    ensures Sum(s + [x], f) == Sum(s, f) + f(x)
  {
    assert (s + [x])[..|s|] == s;
  }

  lemma EntriesOfSnoc(es: seq<Entry>, e: Entry, k: int)
    ensures EntriesOf(es + [e], k) == EntriesOf(es, k) + (if e.key == k then [e] else [])
  {
    assert (es + [e])[..|es|] == es;
  }

  lemma DelaysSnoc(es: seq<Entry>, e: Entry)
    ensures Delays(es + [e]) == Delays(es) + DelayOf(e)
  {
    assert (es + [e])[..|es|] == es;
  }

  lemma KeysSnoc(es: seq<Entry>, e: Entry)
    ensures Keys(es + [e]) == Keys(es) + {e.key}
  {
    var es' := es + [e];
    assert forall j :: 0 <= j < |es| ==> es'[j] == es[j];
    assert es'[|es|] == e;
  }

  /** The bucket of the new entry's key, accumulated, summarises its group
      grown by that entry. */
  lemma MergedBucket(b: Bucket, es: seq<Entry>, e: Entry)
    requires Summarises(b, EntriesOf(es, b.id))
    requires b.id == e.key
    ensures Summarises(Merge(b, e), EntriesOf(es + [e], b.id))
  {
    var g := EntriesOf(es, e.key);
    EntriesOfSnoc(es, e, e.key);
    assert (g + [e])[0] == g[0];
    SumSnoc(g, e, EntryQuantity);
    SumSnoc(g, e, EntryAmount);
    DelaysSnoc(g, e);
  }

  /** Accumulating into the bucket an earlier entry opened. */
  lemma MergeKeepsGroups(bs: seq<Bucket>, es: seq<Entry>, e: Entry, i: int)
    requires GroupsOf(bs, es)
    requires 0 <= i < |bs| && bs[i].id == e.key
    ensures GroupsOf(bs[i := Merge(bs[i], e)], es + [e])
  {
    var es' := es + [e];
    var bs' := bs[i := Merge(bs[i], e)];
    KeysSnoc(es, e);
    assert e.key in Keys(es);
    assert Ids(bs') == Ids(bs) by {
      assert forall j :: 0 <= j < |bs| ==> bs'[j].id == bs[j].id;
    }
    forall j | 0 <= j < |bs'|
      ensures Summarises(bs'[j], EntriesOf(es', bs'[j].id))
    {
      if j == i {
        MergedBucket(bs[i], es, e);
      } else {
        OtherBucketKept(bs[j], es, e);
      }
    }
  }

  lemma OpenSummarises(e: Entry)
    ensures Summarises(Open(e), [e])
  {
    assert [e][..0] == [];
  }

  lemma OpenIds(bs: seq<Bucket>, b: Bucket)
    requires DistinctIds(bs) && b.id !in Ids(bs)
    ensures DistinctIds(bs + [b])
    ensures Ids(bs + [b]) == Ids(bs) + {b.id}
  {
    var bs' := bs + [b];
    assert forall j :: 0 <= j < |bs| ==> bs'[j] == bs[j];
    assert forall j :: 0 <= j < |bs| ==> bs[j].id in Ids(bs);
    assert bs'[|bs|] == b;
  }

  /** A bucket whose key differs from the new entry's is unaffected. */
  lemma OtherBucketKept(b: Bucket, es: seq<Entry>, e: Entry)
    requires Summarises(b, EntriesOf(es, b.id))
    requires b.id != e.key
    ensures Summarises(b, EntriesOf(es + [e], b.id))
  {
    EntriesOfSnoc(es, e, b.id);
    assert EntriesOf(es + [e], b.id) == EntriesOf(es, b.id) + [];
    assert EntriesOf(es, b.id) + [] == EntriesOf(es, b.id);
  }

  lemma FreshBucket(es: seq<Entry>, e: Entry)
    requires e.key !in Keys(es)
    ensures Summarises(Open(e), EntriesOf(es + [e], e.key))
  {
    EntriesOfSnoc(es, e, e.key);
    EntriesOfAbsent(es, e.key);
    assert EntriesOf(es + [e], e.key) == [e];
    OpenSummarises(e);
  }

  /** Opening a bucket for a key not seen before. */
  lemma OpenKeepsGroups(bs: seq<Bucket>, es: seq<Entry>, e: Entry)
    requires GroupsOf(bs, es)
    requires e.key !in Ids(bs)
    ensures GroupsOf(bs + [Open(e)], es + [e])
  {
    var es' := es + [e];
    var bs' := bs + [Open(e)];
    KeysSnoc(es, e);
    OpenIds(bs, Open(e));
    forall j | 0 <= j < |bs'|
      ensures Summarises(bs'[j], EntriesOf(es', bs'[j].id))
    {
      if j < |bs| {
        assert bs'[j] == bs[j];
        assert bs[j].id in Ids(bs);
        OtherBucketKept(bs[j], es, e);
      } else {
        FreshBucket(es, e);
      }
    }
  }

  /** Adding an entry keeps the roll-up's promise for the longer input. */
  lemma AddKeepsGroups(bs: seq<Bucket>, es: seq<Entry>, e: Entry)
    requires GroupsOf(bs, es)
    ensures GroupsOf(Add(bs, e), es + [e])
  {
    var i := IndexOf(bs, e.key);
    if i >= 0 {
      MergeKeepsGroups(bs, es, e, i);
    } else {
      OpenKeepsGroups(bs, es, e);
    }
  }

  /** A key already present keeps its first position when an entry is
      appended; a new key first appears at the end. */
  lemma FirstIndexSnoc(es: seq<Entry>, e: Entry, k: int)
    ensures k in Keys(es) ==> FirstIndex(es + [e], k) == FirstIndex(es, k) < |es|
    ensures k !in Keys(es) && k == e.key ==> FirstIndex(es + [e], k) == |es|
  {
    var es' := es + [e];
    var n, m := FirstIndex(es, k), FirstIndex(es', k);
    assert forall j :: 0 <= j < |es| ==> es'[j] == es[j];
    if k in Keys(es) {
      var j :| 0 <= j < |es| && es[j].key == k;
      assert n <= j;
    } else if k == e.key {
      assert es'[|es|].key == k;
    }
  }

  /** Adding an entry keeps the buckets in first-appearance order. */
  lemma AddKeepsOrder(bs: seq<Bucket>, es: seq<Entry>, e: Entry)
    requires GroupsOf(bs, es) && FirstAppearanceOrder(bs, es)
    ensures FirstAppearanceOrder(Add(bs, e), es + [e])
  {
    var bs' := Add(bs, e);
    assert forall j :: 0 <= j < |bs| ==> bs[j].id in Ids(bs);
    forall j | 0 <= j < |bs|
      ensures FirstIndex(es + [e], bs[j].id) == FirstIndex(es, bs[j].id) < |es|
    {
      FirstIndexSnoc(es, e, bs[j].id);
    }
    var i := IndexOf(bs, e.key);
    if i >= 0 {
      assert forall j :: 0 <= j < |bs| ==> bs'[j].id == bs[j].id;
    } else {
      FirstIndexSnoc(es, e, e.key);
      assert forall j :: 0 <= j < |bs| ==> bs'[j] == bs[j];
      assert bs'[|bs|].id == e.key;
    }
  }

  /** The roll-up of `es`: one bucket per distinct key, in order of first
      appearance, each the summary of exactly the entries with its key. */
  function Accumulate(es: seq<Entry>): (bs: seq<Bucket>)
    ensures GroupsOf(bs, es)
    ensures FirstAppearanceOrder(bs, es)
  {
    if |es| == 0 then []
    else
      var init := es[..|es| - 1];
      assert es == init + [es[|es| - 1]];
      AddKeepsGroups(Accumulate(init), init, es[|es| - 1]);
      AddKeepsOrder(Accumulate(init), init, es[|es| - 1]);
      Add(Accumulate(init), es[|es| - 1])
  }

  lemma AccumulateStep(es: seq<Entry>)
    requires |es| > 0
    ensures Accumulate(es) == Add(Accumulate(es[..|es| - 1]), es[|es| - 1])
  {
  }

  /** One step of the roll-up adds the entry's count, quantity, amount and
      delay to the buckets' totals. */
  lemma AddTotals(bs: seq<Bucket>, e: Entry)
    ensures Sum(Add(bs, e), BucketCount) == Sum(bs, BucketCount) + 1.0
    ensures Sum(Add(bs, e), BucketQuantity) == Sum(bs, BucketQuantity) + e.quantity
    ensures Sum(Add(bs, e), BucketAmount) == Sum(bs, BucketAmount) + e.amount
    ensures Sum(Add(bs, e), BucketDelayCount) == Sum(bs, BucketDelayCount) + EntryDelayCount(e)
  {
    var i := IndexOf(bs, e.key);
    if i >= 0 {
      SumUpdate(bs, i, Merge(bs[i], e), BucketCount);
      SumUpdate(bs, i, Merge(bs[i], e), BucketQuantity);
      SumUpdate(bs, i, Merge(bs[i], e), BucketAmount);
      SumUpdate(bs, i, Merge(bs[i], e), BucketDelayCount);
    } else {
      SumSnoc(bs, Open(e), BucketCount);
      SumSnoc(bs, Open(e), BucketQuantity);
      SumSnoc(bs, Open(e), BucketAmount);
      SumSnoc(bs, Open(e), BucketDelayCount);
    }
  }

  /** The roll-up conserves the number of entries, the total quantity, the
      total amount and the number of delays. */
  lemma {:induction false} AccumulateTotals(es: seq<Entry>)
    ensures Sum(Accumulate(es), BucketCount) == |es| as real
    ensures Sum(Accumulate(es), BucketQuantity) == Sum(es, EntryQuantity)
    ensures Sum(Accumulate(es), BucketAmount) == Sum(es, EntryAmount)
    ensures Sum(Accumulate(es), BucketDelayCount) == Sum(es, EntryDelayCount)
    decreases |es|
  {
    if |es| > 0 {
      var init, e := es[..|es| - 1], es[|es| - 1];
      AccumulateTotals(init);
      var bs := Accumulate(init);
      AccumulateStep(es);
      AddTotals(bs, e);
      assert Sum(es, EntryQuantity) == Sum(init, EntryQuantity) + e.quantity;
      assert Sum(es, EntryAmount) == Sum(init, EntryAmount) + e.amount;
      assert Sum(es, EntryDelayCount) == Sum(init, EntryDelayCount) + EntryDelayCount(e);
    }
  }

  /** Two positions holding equal elements make that element occur twice. */
  lemma {:induction false} RepeatCount<T>(s: seq<T>, i: int, j: int)
    requires 0 <= i < j < |s| && s[i] == s[j]
    ensures multiset(s)[s[i]] >= 2
  {
    assert s == s[..j] + [s[j]] + s[j + 1..];
    assert s[i] in s[..j];
    assert multiset(s) == multiset(s[..j]) + multiset{s[j]} + multiset(s[j + 1..]);
  }

  /** In buckets with distinct ids every bucket occurs once. */
  lemma {:induction false} DistinctOnce(bs: seq<Bucket>, b: Bucket)
    requires DistinctIds(bs)
    ensures multiset(bs)[b] <= 1
    decreases |bs|
  {
    if |bs| > 0 {
      var init := bs[..|bs| - 1];
      assert bs == init + [bs[|bs| - 1]];
      DistinctOnce(init, b);
      if b == bs[|bs| - 1] {
        forall k | 0 <= k < |init|
          ensures init[k] != b
        {
          assert init[k] == bs[k];
        }
        assert b !in init;
      }
    }
  }

  /** Any reordering of a roll-up is still a roll-up of the same entries. */
  lemma PermutedGroups(bs': seq<Bucket>, bs: seq<Bucket>, es: seq<Entry>)
    requires GroupsOf(bs, es)
    requires multiset(bs') == multiset(bs)
    ensures GroupsOf(bs', es)
  {
    forall i | 0 <= i < |bs'|
      ensures bs'[i] in bs
    {
      assert bs'[i] in multiset(bs');
    }
    forall i, j | 0 <= i < j < |bs'|
      ensures bs'[i].id != bs'[j].id
    {
      if bs'[i].id == bs'[j].id {
        var a :| 0 <= a < |bs| && bs[a] == bs'[i];
        var b :| 0 <= b < |bs| && bs[b] == bs'[j];
        assert a == b;
        RepeatCount(bs', i, j);
        DistinctOnce(bs, bs'[i]);
      }
    }
    forall k | k in Ids(bs)
      ensures k in Ids(bs')
    {
      var a :| 0 <= a < |bs| && bs[a].id == k;
      assert bs[a] in multiset(bs');
    }
  }

  /** Distinct ids are as many as the buckets. */
  lemma {:induction false} IdsCount(bs: seq<Bucket>)
    requires DistinctIds(bs)
    ensures |Ids(bs)| == |bs|
    decreases |bs|
  {
    if |bs| > 0 {
      var init := bs[..|bs| - 1];
      IdsCount(init);
      assert Ids(bs) == Ids(init) + {bs[|bs| - 1].id};
      assert bs[|bs| - 1].id !in Ids(init);
    }
  }

  /** The first `n` elements of a sorted sequence are no smaller than the rest. */
  lemma TakeKeepsLargest(sorted: seq<Bucket>, bs: seq<Bucket>)
    requires SortedDesc(sorted, BucketAmount) && bs <= sorted
    ensures forall b, c :: b in sorted && b !in bs && c in bs ==> b.amount <= c.amount
  {
    forall b, c | b in sorted && b !in bs && c in bs
      ensures b.amount <= c.amount
    {
      var i :| 0 <= i < |sorted| && sorted[i] == b;
      var j :| 0 <= j < |bs| && bs[j] == c;
      assert sorted[j] == c;
      assert forall k :: 0 <= k < |bs| ==> bs[k] == sorted[k];
      assert BucketAmount(sorted[j]) >= BucketAmount(sorted[i]);
    }
  }

  lemma PrefixGroups(bs: seq<Bucket>, sorted: seq<Bucket>, es: seq<Entry>)
    requires GroupsOf(sorted, es) && bs <= sorted
    ensures DistinctIds(bs)
    ensures forall b :: b in bs ==> Summarises(b, EntriesOf(es, b.id))
  {
    assert forall i :: 0 <= i < |bs| ==> bs[i] == sorted[i];
  }

  /** A sorted roll-up of `es` is a roll-up with one bucket per key. */
  lemma SortedGroups(all: seq<Bucket>, sorted: seq<Bucket>, es: seq<Entry>)
    requires GroupsOf(all, es)
    requires multiset(sorted) == multiset(all)
    ensures GroupsOf(sorted, es)
    ensures |sorted| == |Keys(es)|
  {
    PermutedGroups(sorted, all, es);
    IdsCount(sorted);
  }

  /** A prefix of a sorted sequence is sorted. */
  lemma PrefixSorted(bs: seq<Bucket>, sorted: seq<Bucket>)
    requires SortedDesc(sorted, BucketAmount) && bs <= sorted
    ensures SortedDesc(bs, BucketAmount)
  {
    assert forall k :: 0 <= k < |bs| ==> bs[k] == sorted[k];
  }

  /** Buckets of a roll-up left out of a prefix of its sorted order are no
      larger than those kept. */
  lemma CutKeepsLargest(all: seq<Bucket>, sorted: seq<Bucket>, bs: seq<Bucket>)
    requires SortedDesc(sorted, BucketAmount) && multiset(sorted) == multiset(all) && bs <= sorted
    ensures forall b, c :: b in all && b !in bs && c in bs ==> b.amount <= c.amount
  {
    TakeKeepsLargest(sorted, bs);
    forall b | b in all
      ensures b in sorted
    {
      assert b in multiset(all);
    }
  }

  /** A group left out of a cut adds up to no more than any group kept. */
  lemma OmittedKeys(all: seq<Bucket>, bs: seq<Bucket>, es: seq<Entry>)
    requires GroupsOf(all, es)
    requires forall b, c :: b in all && b !in bs && c in bs ==> b.amount <= c.amount
    ensures forall k, c :: k in Keys(es) && k !in Ids(bs) && c in bs ==> Sum(EntriesOf(es, k), EntryAmount) <= c.amount
  {
    forall k, c | k in Keys(es) && k !in Ids(bs) && c in bs
      ensures Sum(EntriesOf(es, k), EntryAmount) <= c.amount
    {
      assert k in Ids(all);
      var i :| 0 <= i < |all| && all[i].id == k;
      forall j | 0 <= j < |bs|
        ensures bs[j] != all[i]
      {
        assert bs[j].id in Ids(bs);
      }
      assert Summarises(all[i], EntriesOf(es, k));
    }
  }

  /** Buckets of equal amount are in the order in which their keys first
      appear in `es`. */
  predicate TiesInFirstAppearanceOrder(bs: seq<Bucket>, es: seq<Entry>) {
    forall i, j :: 0 <= i < j < |bs| && bs[i].amount == bs[j].amount ==>
      FirstIndex(es, bs[i].id) < FirstIndex(es, bs[j].id)
  }

  /** Sorting the roll-up by amount leaves tied buckets in first-appearance
      order, and so does any prefix of the sorted buckets. */
  lemma SortedTies(es: seq<Entry>, bs: seq<Bucket>)
    requires bs <= SortDesc(Accumulate(es), BucketAmount)
    ensures TiesInFirstAppearanceOrder(bs, es)
  {
    var all := Accumulate(es);
    var rank := (b: Bucket) => FirstIndex(es, b.id);
    assert Chain(all, rank);
    SortDescTies(all, BucketAmount, rank);
    var sorted := SortDesc(all, BucketAmount);
    assert forall i :: 0 <= i < |bs| ==> bs[i] == sorted[i];
  }

  /** The buckets of `es` by non-increasing amount (ties in order of first
      appearance), cut to the first `limit` when a limit is given: the
      `sorted(data.items(), key=amount, reverse=True)[:limit]` of the tools. */
  function TopBuckets(es: seq<Entry>, limit: Option<nat>): (bs: seq<Bucket>)
    ensures SortedDesc(bs, BucketAmount)
    ensures DistinctIds(bs)
    ensures forall b :: b in bs ==> Summarises(b, EntriesOf(es, b.id))
    ensures |bs| == if limit.Some? && limit.value < |Keys(es)| then limit.value else |Keys(es)|
    ensures limit.None? ==> Ids(bs) == Keys(es)
    ensures forall k, c :: k in Keys(es) && k !in Ids(bs) && c in bs ==> Sum(EntriesOf(es, k), EntryAmount) <= c.amount
    ensures TiesInFirstAppearanceOrder(bs, es)
  {
    var all := Accumulate(es);
    var sorted := SortDesc(all, BucketAmount);
    var bs := if limit.Some? then Take(sorted, limit.value) else sorted;
    SortedTies(es, bs);
    SortedGroups(all, sorted, es);
    PrefixGroups(bs, sorted, es);
    PrefixSorted(bs, sorted);
    CutKeepsLargest(all, sorted, bs);
    OmittedKeys(all, bs, es);
    bs
  }

  /** Listing every group, sorted, conserves the entry count, the amount
      and the number of delays. */
  lemma AllBucketsTotals(es: seq<Entry>)
    ensures Sum(TopBuckets(es, None), BucketCount) == |es| as real
    ensures Sum(TopBuckets(es, None), BucketAmount) == Sum(es, EntryAmount)
    ensures Sum(TopBuckets(es, None), BucketDelayCount) == Sum(es, EntryDelayCount)
  {
    var all := Accumulate(es);
    AccumulateTotals(es);
    SortDescSum(all, BucketAmount, BucketCount);
    SortDescSum(all, BucketAmount, BucketAmount);
    SortDescSum(all, BucketAmount, BucketDelayCount);
  }

  /** What the rows of a cut roll-up of `es` say about the entries. */
  predicate RowsOf(bs: seq<Bucket>, es: seq<Entry>) {
    && SortedDesc(bs, BucketAmount)
    && DistinctIds(bs)
    && (forall b :: b in bs ==> Summarises(b, EntriesOf(es, b.id)))
    && (forall k, c :: k in Keys(es) && k !in Ids(bs) && c in bs ==> Sum(EntriesOf(es, k), EntryAmount) <= c.amount)
    && TiesInFirstAppearanceOrder(bs, es)
  }

  lemma TopRows(es: seq<Entry>, limit: Option<nat>)
    ensures RowsOf(TopBuckets(es, limit), es)
  {
  }
}
