/** The accumulator dictionaries of the dashboard reducers (`acc[key]`
    created on first sight, then its `moneySpent` and `orderCount` increased)
    and the `sort(…).slice(0, 10)` of their values.

    A dictionary is an association list in insertion order, which is the
    order `Object.values` gives for non-numeric keys. `A` is what a group
    records from the entry that creates it (the dish's restaurant; nothing
    for months and restaurants). */
module Groups {
  import opened Wrappers

  /** One contribution to a dictionary: its key, money, count and, for a new
      group, the extra field. */
  datatype Entry<K, A> = Entry(key: K, money: int, count: int, extra: A)

  /** A dictionary value `{ label, moneySpent, orderCount, … }`, whose `label` is its key. */
  datatype Group<K, A> = Group(key: K, moneySpent: int, orderCount: int, extra: A)

  predicate DistinctLabels<K(==, !new), A(==)>(gs: seq<Group<K, A>>) {
    forall i, j :: 0 <= i < j < |gs| ==> gs[i].key != gs[j].key
  }

  function Labels<K(==, !new), A(==)>(gs: seq<Group<K, A>>): set<K> {
    set i | 0 <= i < |gs| :: gs[i].key
  }

  function SumCounts<K(==, !new), A(==)>(gs: seq<Group<K, A>>): int {
    if gs == [] then 0 else gs[0].orderCount + SumCounts(gs[1..])
  }

  function SumMoney<K(==, !new), A(==)>(gs: seq<Group<K, A>>): int {
    if gs == [] then 0 else gs[0].moneySpent + SumMoney(gs[1..])
  }

  /** `acc[key]`: the group stored under `k`, if any. */
  function Find<K(==, !new), A(==)>(gs: seq<Group<K, A>>, k: K): (r: Option<Group<K, A>>)
    ensures r.Some? <==> k in Labels(gs)
    ensures r.Some? ==> r.value in gs && r.value.key == k
  {
    if gs == [] then None
    else if gs[0].key == k then Some(gs[0])
    else
      var r := Find(gs[1..], k);
      assert Labels(gs) == {gs[0].key} + Labels(gs[1..]) by {
        forall x | x in Labels(gs) ensures x in {gs[0].key} + Labels(gs[1..]) {
          var i :| 0 <= i < |gs| && gs[i].key == x;
          if i > 0 { assert gs[1..][i - 1] == gs[i]; }
        }
        forall x | x in Labels(gs[1..]) ensures x in Labels(gs) {
          var i :| 0 <= i < |gs[1..]| && gs[1..][i].key == x;
          assert gs[i + 1] == gs[1..][i];
        }
      }
      r
  }

  /** What the group under `e.key` becomes once `e` is added to it. */
  function Added<K(==, !new), A(==)>(old_: Option<Group<K, A>>, e: Entry<K, A>): Group<K, A> {
    match old_
    case None => Group(e.key, e.money, e.count, e.extra)
    case Some(g) => g.(moneySpent := g.moneySpent + e.money, orderCount := g.orderCount + e.count)
  }

  /** One step of a reducer: create `acc[e.key]` when missing, then add the
      entry's money and count to it. Only that group changes; the totals
      grow by exactly the entry's money and count. */
  function Add<K(==, !new), A(==)>(gs: seq<Group<K, A>>, e: Entry<K, A>): (r: seq<Group<K, A>>)
    ensures Labels(r) == Labels(gs) + {e.key}
    ensures DistinctLabels(gs) ==> DistinctLabels(r)
    ensures |r| == if e.key in Labels(gs) then |gs| else |gs| + 1
    ensures SumCounts(r) == SumCounts(gs) + e.count
    ensures SumMoney(r) == SumMoney(gs) + e.money
    ensures Find(r, e.key) == Some(Added(Find(gs, e.key), e))
    ensures forall k :: k != e.key ==> Find(r, k) == Find(gs, k)
  {
    if gs == [] then
      var r := [Group(e.key, e.money, e.count, e.extra)];
      LabelsCons(r);
      assert r[1..] == [];
      r
    else if gs[0].key == e.key then
      var r := [Added(Some(gs[0]), e)] + gs[1..];
      LabelsCons(gs);
      LabelsCons(r);
      assert r[1..] == gs[1..];
      r
    else
      var rest := Add(gs[1..], e);
      AddBehind(gs, e, rest);
      [gs[0]] + rest
  }

  /** The step of `Add` past a head with another key: what holds of the tail
      and its update holds of the whole list and its update. */
  lemma AddBehind<K(!new), A>(gs: seq<Group<K, A>>, e: Entry<K, A>, rest: seq<Group<K, A>>)
    requires gs != [] && gs[0].key != e.key
    requires Labels(rest) == Labels(gs[1..]) + {e.key}
    requires DistinctLabels(gs[1..]) ==> DistinctLabels(rest)
    requires |rest| == if e.key in Labels(gs[1..]) then |gs| - 1 else |gs|
    requires SumCounts(rest) == SumCounts(gs[1..]) + e.count
    requires SumMoney(rest) == SumMoney(gs[1..]) + e.money
    requires Find(rest, e.key) == Some(Added(Find(gs[1..], e.key), e))
    requires forall k :: k != e.key ==> Find(rest, k) == Find(gs[1..], k)
    ensures var r := [gs[0]] + rest;
      Labels(r) == Labels(gs) + {e.key} &&
      (DistinctLabels(gs) ==> DistinctLabels(r)) &&
      |r| == (if e.key in Labels(gs) then |gs| else |gs| + 1) &&
      SumCounts(r) == SumCounts(gs) + e.count &&
      SumMoney(r) == SumMoney(gs) + e.money &&
      Find(r, e.key) == Some(Added(Find(gs, e.key), e)) &&
      forall k :: k != e.key ==> Find(r, k) == Find(gs, k)
  {
    var r := [gs[0]] + rest;
    assert r[1..] == rest;
    LabelsCons(gs);
    LabelsCons(r);
    if DistinctLabels(gs) {
      DistinctBehind(gs, rest);
    }
  }

  /** A head whose key the tail lacks stays distinct in front of the
      updated tail. */
  lemma DistinctBehind<K(!new), A>(gs: seq<Group<K, A>>, rest: seq<Group<K, A>>)
    requires gs != [] && DistinctLabels(gs)
    requires DistinctLabels(gs[1..]) ==> DistinctLabels(rest)
    requires gs[0].key !in Labels(rest)
    ensures DistinctLabels([gs[0]] + rest)
  {
    var r := [gs[0]] + rest;
    assert DistinctLabels(gs[1..]);
    forall i, j | 0 <= i < j < |r| ensures r[i].key != r[j].key {
      if i == 0 {
        assert r[j] == rest[j - 1];
      } else {
        assert r[i] == rest[i - 1] && r[j] == rest[j - 1];
      }
    }
  }

  /** The labels of a list are its head's and its tail's. */
  lemma LabelsCons<K(!new), A>(gs: seq<Group<K, A>>)
    requires gs != []
    ensures Labels(gs) == {gs[0].key} + Labels(gs[1..])
  {
    forall x | x in Labels(gs) ensures x in {gs[0].key} + Labels(gs[1..]) {
      var i :| 0 <= i < |gs| && gs[i].key == x;
      if i > 0 { assert gs[1..][i - 1] == gs[i]; }
    }
    forall x | x in Labels(gs[1..]) ensures x in Labels(gs) {
      var i :| 0 <= i < |gs[1..]| && gs[1..][i].key == x;
      assert gs[i + 1] == gs[1..][i];
    }
  }

  // ---------------------------------------------------------------------
  // A whole reduction
  // ---------------------------------------------------------------------

  function Keys<K(==, !new), A(==)>(es: seq<Entry<K, A>>): set<K> {
    if es == [] then {} else Keys(es[..|es| - 1]) + {es[|es| - 1].key}
  }

  function EntryCounts<K(==, !new), A(==)>(es: seq<Entry<K, A>>): int {
    if es == [] then 0 else EntryCounts(es[..|es| - 1]) + es[|es| - 1].count
  }

  function EntryMoney<K(==, !new), A(==)>(es: seq<Entry<K, A>>): int {
    if es == [] then 0 else EntryMoney(es[..|es| - 1]) + es[|es| - 1].money
  }

  /** The dictionary a reducer builds from `{}`: one group per distinct key,
      holding all the money and all the counts of the entries. */
  function GroupsOf<K(==, !new), A(==)>(es: seq<Entry<K, A>>): (gs: seq<Group<K, A>>)
    ensures DistinctLabels(gs)
    ensures Labels(gs) == Keys(es)
    ensures SumCounts(gs) == EntryCounts(es)
    ensures SumMoney(gs) == EntryMoney(es)
  {
    if es == [] then [] else Add(GroupsOf(es[..|es| - 1]), es[|es| - 1])
  }

  /** Reducing one more entry is one more `Add`. */
  lemma GroupsOfSnoc<K(!new), A>(es: seq<Entry<K, A>>, e: Entry<K, A>)
    ensures GroupsOf(es + [e]) == Add(GroupsOf(es), e)
  {
    assert (es + [e])[..|es|] == es;
  }

  /** The count of the entries with key `k`. */
  function CountFor<K(==, !new), A(==)>(es: seq<Entry<K, A>>, k: K): int {
    if es == [] then 0
    else CountFor(es[..|es| - 1], k) + (if es[|es| - 1].key == k then es[|es| - 1].count else 0)
  }

  /** The money of the entries with key `k`. */
  function MoneyFor<K(==, !new), A(==)>(es: seq<Entry<K, A>>, k: K): int {
    if es == [] then 0
    else MoneyFor(es[..|es| - 1], k) + (if es[|es| - 1].key == k then es[|es| - 1].money else 0)
  }

  /** The extra field of the first entry with key `k`. */
  function FirstExtra<K(==, !new), A(==)>(es: seq<Entry<K, A>>, k: K): (a: A)
    requires k in Keys(es)
    ensures exists j :: 0 <= j < |es| && es[j].key == k && es[j].extra == a &&
                        forall i :: 0 <= i < j ==> es[i].key != k
  {
    var n := |es| - 1;
    if k in Keys(es[..n]) then
      var a := FirstExtra(es[..n], k);
      var j :| 0 <= j < n && es[..n][j].key == k && es[..n][j].extra == a &&
               forall i :: 0 <= i < j ==> es[..n][i].key != k;
      assert es[j] == es[..n][j];
      assert forall i :: 0 <= i < j ==> es[i] == es[..n][i];
      a
    else
      assert forall i :: 0 <= i < n ==> es[i].key != k by {
        forall i | 0 <= i < n ensures es[i].key != k {
          KeysInclude(es[..n], i);
          assert es[..n][i] == es[i];
        }
      }
      es[n].extra
  }

  lemma {:induction false} KeysInclude<K(!new), A>(es: seq<Entry<K, A>>, i: nat)
    requires i < |es|
    ensures es[i].key in Keys(es)
    decreases |es|
  {
    var n := |es| - 1;
    if i < n {
      KeysInclude(es[..n], i);
      assert es[..n][i] == es[i];
    }
  }

  /** The group under each key holds the sum of that key's money and counts,
      and the extra field of the first entry with that key; a key no entry
      has has no group. */
  lemma {:induction false} GroupOfKey<K(!new), A>(es: seq<Entry<K, A>>, k: K)
    ensures k !in Keys(es) ==> Find(GroupsOf(es), k).None?
    ensures k in Keys(es) ==> Find(GroupsOf(es), k) == Some(Group(k, MoneyFor(es, k), CountFor(es, k), FirstExtra(es, k)))
    decreases |es|
  {
    if es != [] {
      var n := |es| - 1;
      var prefix, last := es[..n], es[n];
      GroupOfKey(prefix, k);
      var before := GroupsOf(prefix);
      assert GroupsOf(es) == Add(before, last);
      if k == last.key {
        var g := Added(Find(before, k), last);
        assert Find(GroupsOf(es), k) == Some(g);
        var count, money, extra := CountFor(es, k), MoneyFor(es, k), FirstExtra(es, k);
        assert count == CountFor(prefix, k) + last.count;
        assert money == MoneyFor(prefix, k) + last.money;
        if k in Keys(prefix) {
          assert Find(before, k) == Some(Group(k, MoneyFor(prefix, k), CountFor(prefix, k), FirstExtra(prefix, k)));
          assert extra == FirstExtra(prefix, k);
        } else {
          assert Find(before, k).None?;
          NoKeyNoSum(prefix, k);
          assert extra == last.extra;
        }
        assert g.key == k && g.moneySpent == money && g.orderCount == count && g.extra == extra;
        assert g == Group(k, money, count, extra);
      } else {
        assert Find(GroupsOf(es), k) == Find(before, k);
        assert CountFor(es, k) == CountFor(prefix, k);
        assert MoneyFor(es, k) == MoneyFor(prefix, k);
        assert Keys(es) == Keys(prefix) + {last.key};
        if k in Keys(prefix) {
          assert FirstExtra(es, k) == FirstExtra(prefix, k);
        }
      }
    }
  }

  /** A key no entry has adds nothing. */
  lemma {:induction false} NoKeyNoSum<K(!new), A>(es: seq<Entry<K, A>>, k: K)
    requires k !in Keys(es)
    ensures CountFor(es, k) == 0 && MoneyFor(es, k) == 0
    decreases |es|
  {
    if es != [] {
      NoKeyNoSum(es[..|es| - 1], k);
    }
  }

  lemma {:induction false} KeysConcat<K(!new), A>(a: seq<Entry<K, A>>, b: seq<Entry<K, A>>)
    ensures Keys(a + b) == Keys(a) + Keys(b)
    decreases |b|
  {
    if b == [] {
      assert a + b == a;
    } else {
      var n := |b| - 1;
      KeysConcat(a, b[..n]);
      assert (a + b)[..|a + b| - 1] == a + b[..n];
    }
  }

  lemma {:induction false} EntryCountsConcat<K(!new), A>(a: seq<Entry<K, A>>, b: seq<Entry<K, A>>)
    ensures EntryCounts(a + b) == EntryCounts(a) + EntryCounts(b)
    decreases |b|
  {
    if b == [] {
      assert a + b == a;
    } else {
      var n := |b| - 1;
      EntryCountsConcat(a, b[..n]);
      assert (a + b)[..|a + b| - 1] == a + b[..n];
    }
  }

  lemma {:induction false} CountForConcat<K(!new), A>(a: seq<Entry<K, A>>, b: seq<Entry<K, A>>, k: K)
    ensures CountFor(a + b, k) == CountFor(a, k) + CountFor(b, k)
    decreases |b|
  {
    if b == [] {
      assert a + b == a;
    } else {
      var n := |b| - 1;
      CountForConcat(a, b[..n], k);
      assert (a + b)[..|a + b| - 1] == a + b[..n];
    }
  }

  /** The first entry with a key lies in the first part when that part has
      the key, and in the second part otherwise. */
  lemma {:induction false} FirstExtraConcat<K(!new), A>(a: seq<Entry<K, A>>, b: seq<Entry<K, A>>, k: K)
    requires k in Keys(a) || k in Keys(b)
    ensures k in Keys(a + b)
    ensures k in Keys(a) ==> FirstExtra(a + b, k) == FirstExtra(a, k)
    ensures k !in Keys(a) ==> FirstExtra(a + b, k) == FirstExtra(b, k)
    decreases |b|
  {
    KeysConcat(a, b);
    if b == [] {
      assert a + b == a;
    } else {
      var n := |b| - 1;
      assert (a + b)[..|a + b| - 1] == a + b[..n];
      KeysConcat(a, b[..n]);
      if k in Keys(a) || k in Keys(b[..n]) {
        FirstExtraConcat(a, b[..n], k);
      }
    }
  }

  /** Distinct labels: as many groups as labels. */
  lemma {:induction false} DistinctLabelsCount<K(!new), A>(gs: seq<Group<K, A>>)
    requires DistinctLabels(gs)
    ensures |Labels(gs)| == |gs|
  {
    if gs != [] {
      LabelsCons(gs);
      assert DistinctLabels(gs[1..]);
      DistinctLabelsCount(gs[1..]);
      assert gs[0].key !in Labels(gs[1..]);
    }
  }

  // ---------------------------------------------------------------------
  // The top-ten lists
  // ---------------------------------------------------------------------

  /** What the comparator subtracts: `orderCount` when the toggle is on,
      `moneySpent` otherwise. */
  function Measure<K(==, !new), A(==)>(g: Group<K, A>, byCount: bool): int {
    if byCount then g.orderCount else g.moneySpent
  }

  predicate SortedDesc<K(==, !new), A(==)>(gs: seq<Group<K, A>>, byCount: bool) {
    forall i, j :: 0 <= i < j < |gs| ==> Measure(gs[i], byCount) >= Measure(gs[j], byCount)
  }

  /** Places `g` after the groups that measure more and before the rest,
      which keeps equal groups in their original order, as the stable
      `Array.prototype.sort` does. */
  function Insert<K(==, !new), A(==)>(g: Group<K, A>, sorted: seq<Group<K, A>>, byCount: bool): (r: seq<Group<K, A>>)
    requires SortedDesc(sorted, byCount)
    ensures SortedDesc(r, byCount)
    ensures multiset(r) == multiset(sorted) + multiset{g}
    ensures |r| == |sorted| + 1
    ensures r[0] == g || (sorted != [] && r[0] == sorted[0])
  {
    if sorted == [] || Measure(sorted[0], byCount) <= Measure(g, byCount) then
      ConsSorted(g, sorted, byCount);
      [g] + sorted
    else
      var rest := Insert(g, sorted[1..], byCount);
      InsertBehind(g, sorted, rest, byCount);
      [sorted[0]] + rest
  }

  /** The step of `Insert` past a head that measures more than `g`. */
  lemma InsertBehind<K(!new), A>(g: Group<K, A>, sorted: seq<Group<K, A>>, rest: seq<Group<K, A>>, byCount: bool)
    requires SortedDesc(sorted, byCount) && sorted != []
    requires SortedDesc(rest, byCount)
    requires multiset(rest) == multiset(sorted[1..]) + multiset{g}
    requires rest[0] == g || (sorted[1..] != [] && rest[0] == sorted[1..][0])
    requires Measure(sorted[0], byCount) > Measure(g, byCount)
    ensures SortedDesc([sorted[0]] + rest, byCount)
    ensures multiset([sorted[0]] + rest) == multiset(sorted) + multiset{g}
  {
    assert sorted == [sorted[0]] + sorted[1..];
    ConsSorted(sorted[0], rest, byCount);
  }

  /** A group measuring at least the head of a sorted list can go in front. */
  lemma ConsSorted<K(!new), A>(x: Group<K, A>, s: seq<Group<K, A>>, byCount: bool)
    requires SortedDesc(s, byCount)
    requires s == [] || Measure(x, byCount) >= Measure(s[0], byCount)
    ensures SortedDesc([x] + s, byCount)
  {
    forall i, j | 0 <= i < j < |[x] + s| ensures Measure(([x] + s)[i], byCount) >= Measure(([x] + s)[j], byCount) {
      if i == 0 {
        assert ([x] + s)[j] == s[j - 1];
      } else {
        assert ([x] + s)[i] == s[i - 1] && ([x] + s)[j] == s[j - 1];
      }
    }
  }

  /** `sort((a, b) => measure(b) - measure(a))`: non-increasing, and the same
      groups. */
  function SortDesc<K(==, !new), A(==)>(gs: seq<Group<K, A>>, byCount: bool): (r: seq<Group<K, A>>)
    ensures SortedDesc(r, byCount)
    ensures multiset(r) == multiset(gs)
  {
    if gs == [] then []
    else
      assert gs == [gs[0]] + gs[1..];
      Insert(gs[0], SortDesc(gs[1..], byCount), byCount)
  }

  /** `.slice(0, 10)` of the sorted values. */
  function TopTen<K(==, !new), A(==)>(gs: seq<Group<K, A>>, byCount: bool): (r: seq<Group<K, A>>)
    ensures |r| == if |gs| < 10 then |gs| else 10
    ensures SortedDesc(r, byCount)
    ensures multiset(r) <= multiset(gs)
  {
    var sorted := SortDesc(gs, byCount);
    var m := if |sorted| < 10 then |sorted| else 10;
    assert sorted == sorted[..m] + sorted[m..];
    assert multiset(sorted) == multiset(sorted[..m]) + multiset(sorted[m..]);
    sorted[..m]
  }

  /** No group left out of the top ten measures more than any group in it. */
  lemma TopTenKeepsLargest<K(!new), A>(gs: seq<Group<K, A>>, byCount: bool, g: Group<K, A>, i: nat)
    requires g in multiset(gs) - multiset(TopTen(gs, byCount))
    requires i < |TopTen(gs, byCount)|
    ensures Measure(g, byCount) <= Measure(TopTen(gs, byCount)[i], byCount)
  {
    var sorted := SortDesc(gs, byCount);
    var m := if |sorted| < 10 then |sorted| else 10;
    assert TopTen(gs, byCount) == sorted[..m];
    PrefixKeepsLargest(sorted, byCount, m, g, i);
  }

  /** In a sequence sorted by decreasing measure, whatever lies past the
      first `m` groups measures no more than any of them. */
  lemma PrefixKeepsLargest<K(!new), A>(sorted: seq<Group<K, A>>, byCount: bool, m: nat, g: Group<K, A>, i: nat)
    requires SortedDesc(sorted, byCount) && i < m <= |sorted|
    requires g in multiset(sorted) - multiset(sorted[..m])
    ensures Measure(g, byCount) <= Measure(sorted[i], byCount)
  {
    assert sorted == sorted[..m] + sorted[m..];
    assert multiset(sorted) == multiset(sorted[..m]) + multiset(sorted[m..]);
    assert g in multiset(sorted[m..]);
    var j :| 0 <= j < |sorted[m..]| && sorted[m..][j] == g;
    assert sorted[m + j] == g;
  }
}
