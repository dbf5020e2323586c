/**
 * Demo accounts on the Go back end: the clone limit read from the
 * environment, the rewrite of a source user's bets into a new demo user,
 * and the batch recomputation of per-(model, sport, bet type) aggregates
 * from a user's bet list.
 */
module Demo {
  import opened Wrappers
  import opened Text
  import opened Numbers
  import opened PastBets

  const DefaultCloneLimit: int := 250

  /** `demoCloneLimit` on the value of DEMO_CLONE_LIMIT ("" when unset): a positive
      integer is taken as is, anything else gives 250. */
  function DemoCloneLimit(env: string): (n: int)
    ensures n > 0
    ensures Atoi(Trim(env)).Some? && Atoi(Trim(env)).value > 0 ==> n == Atoi(Trim(env)).value
    ensures !(Atoi(Trim(env)).Some? && Atoi(Trim(env)).value > 0) ==> n == DefaultCloneLimit
  {
    var v := Trim(env);
    if v != "" then
      match Atoi(v)
      case Some(k) => if k > 0 then k else DefaultCloneLimit
      case None => DefaultCloneLimit
    else DefaultCloneLimit
  }

  /** The decimal text of every positive 64-bit limit is read back. */
  lemma CloneLimitOfDecimal(n: int)
    requires 0 < n <= MaxInt64
    ensures DemoCloneLimit(IntToDecimal(n)) == n
  {
    DecimalNoSpace(n);
    TrimNoSpace(IntToDecimal(n));
    AtoiOfDecimal(n);
  }

  /** The clone loop of `cloneRealDataToDemo`: each source bet copied under the
      destination user with a new id (`freshId(k)` for the k-th clone). */
  method CloneBets(src: seq<PastBetRecord>, dstUserID: string, freshId: nat -> string)
    returns (clones: seq<PastBetRecord>)
    ensures |clones| == |src|
    ensures forall k :: 0 <= k < |src| ==>
      clones[k] == src[k].(id := freshId(k), userKey := dstUserID)
  {
    clones := [];
    for i := 0 to |src|
      invariant |clones| == i
      invariant forall k :: 0 <= k < i ==> clones[k] == src[k].(id := freshId(k), userKey := dstUserID)
    {
      var nb := src[i];
      nb := nb.(id := freshId(i));
      nb := nb.(userKey := dstUserID);
      clones := clones + [nb];
    }
  }

  /* ---------------- Aggregation ---------------- */

  /** The grouping key: model, sport and bet type (the stored row's mode). */
  datatype Key = Key(model: string, sport: string, mode: string)

  /** The running totals of a group. */
  datatype Agg = Agg(wins: int, losses: int, pushes: int, bets: int, units: real)

  const Zero := Agg(0, 0, 0, 0, 0.0)

  function KeyOf(b: PastBetRecord): Key {
    Key(b.model, b.sport, b.betType)
  }

  /** How a stored result is counted: "win" and "loss" in any letter case, any other
      present result as a push, an absent one not at all. */
  datatype Class = Win | Loss | Push | Ungraded

  function ClassOf(b: PastBetRecord): (c: Class)
    ensures c == Ungraded <==> b.result.None?
    ensures c == Win <==> b.result.Some? && Lower(b.result.value) == "win"
    ensures c == Loss <==> b.result.Some? && Lower(b.result.value) == "loss"
  {
    match b.result
    case None => Ungraded
    case Some(r) =>
      var l := Lower(r);
      if l == "win" then Win else if l == "loss" then Loss else Push
  }

  function UnitsOf(b: PastBetRecord): real {
    if b.resultUnits.Some? then b.resultUnits.value else 0.0
  }

  function IfClass(b: PastBetRecord, c: Class): int {
    if ClassOf(b) == c then 1 else 0
  }

  /** One loop step on a group's totals. */
  function Step(a: Agg, b: PastBetRecord): Agg {
    Agg(a.wins + IfClass(b, Win), a.losses + IfClass(b, Loss), a.pushes + IfClass(b, Push),
        a.bets + 1, a.units + UnitsOf(b))
  }

  function Get(m: map<Key, Agg>, k: Key): Agg {
    if k in m then m[k] else Zero
  }

  /** The map after the loop has seen the given bets, in order. */
  function Aggregate(bets: seq<PastBetRecord>): map<Key, Agg> {
    if bets == [] then map[]
    else
      var m := Aggregate(bets[..|bets| - 1]);
      var b := bets[|bets| - 1];
      m[KeyOf(b) := Step(Get(m, KeyOf(b)), b)]
  }

  /* An independent description of one group: its bets, counted directly. */

  /** The bets of one group, in input order. */
  function GroupOf(bets: seq<PastBetRecord>, k: Key): seq<PastBetRecord> {
    if bets == [] then []
    else GroupOf(bets[..|bets| - 1], k) + (if KeyOf(bets[|bets| - 1]) == k then [bets[|bets| - 1]] else [])
  }

  /** The number of bets counted in class c. */
  function Count(g: seq<PastBetRecord>, c: Class): nat {
    if g == [] then 0 else Count(g[..|g| - 1], c) + IfClass(g[|g| - 1], c)
  }

  /** The sum of the present result units. */
  function SumUnits(g: seq<PastBetRecord>): real {
    if g == [] then 0.0 else SumUnits(g[..|g| - 1]) + UnitsOf(g[|g| - 1])
  }

  /** The totals of a group by direct counting. */
  function Tallied(g: seq<PastBetRecord>): Agg {
    Agg(Count(g, Win), Count(g, Loss), Count(g, Push), |g|, SumUnits(g))
  }

  /** Every bet is in exactly one class, so wins, losses and pushes never exceed the bets. */
  lemma {:induction false} ClassesPartition(g: seq<PastBetRecord>)
    ensures Count(g, Win) + Count(g, Loss) + Count(g, Push) + Count(g, Ungraded) == |g|
  {
    if g != [] {
      ClassesPartition(g[..|g| - 1]);
    }
  }

  lemma TalliedStep(g: seq<PastBetRecord>, b: PastBetRecord)
    ensures Tallied(g + [b]) == Step(Tallied(g), b)
  {
    assert (g + [b])[..|g|] == g;
  }

  /** The loop's map holds a group exactly for the keys of the input, and each group
      holds the directly counted totals of its bets. */
  lemma {:induction false} AggregateIsTallied(bets: seq<PastBetRecord>, k: Key)
    ensures k in Aggregate(bets) <==> |GroupOf(bets, k)| > 0
    ensures Get(Aggregate(bets), k) == Tallied(GroupOf(bets, k))
  {
    if bets != [] {
      var front := bets[..|bets| - 1];
      var b := bets[|bets| - 1];
      AggregateIsTallied(front, k);
      var m0 := Aggregate(front);
      assert Aggregate(bets) == m0[KeyOf(b) := Step(Get(m0, KeyOf(b)), b)];
      if KeyOf(b) == k {
        assert GroupOf(bets, k) == GroupOf(front, k) + [b];
        TalliedStep(GroupOf(front, k), b);
      } else {
        assert GroupOf(bets, k) == GroupOf(front, k) + [];
        assert GroupOf(front, k) + [] == GroupOf(front, k);
        assert Get(Aggregate(bets), k) == Get(m0, k);
      }
    }
  }

  /** Every group of the loop's map is consistent: at least one bet, and no more
      wins, losses and pushes than bets. */
  predicate WellFormed(a: Agg) {
    a.bets >= 1 && a.wins >= 0 && a.losses >= 0 && a.pushes >= 0
    && a.wins + a.losses + a.pushes <= a.bets
  }

  lemma AggregateWellFormed(bets: seq<PastBetRecord>, k: Key)
    requires k in Aggregate(bets)
    ensures WellFormed(Aggregate(bets)[k])
  {
    AggregateIsTallied(bets, k);
    ClassesPartition(GroupOf(bets, k));
  }

  /** The accumulation loop of `recomputeStatsForUser`. */
  method AggregateBets(bets: seq<PastBetRecord>) returns (m: map<Key, Agg>)
    ensures m == Aggregate(bets)
  {
    m := map[];
    for i := 0 to |bets|
      invariant m == Aggregate(bets[..i])
    {
      var b := bets[i];
      var k := KeyOf(b);
      var a := Zero;
      if k in m {
        a := m[k];
      }
      a := a.(bets := a.bets + 1);
      if b.result.Some? {
        var r := Lower(b.result.value);
        if r == "win" {
          a := a.(wins := a.wins + 1);
        } else if r == "loss" {
          a := a.(losses := a.losses + 1);
        } else {
          a := a.(pushes := a.pushes + 1);
        }
      }
      if b.resultUnits.Some? {
        a := a.(units := a.units + b.resultUnits.value);
      }
      assert a == Step(Get(m, k), b);
      assert bets[..i + 1][..i] == bets[..i];
      m := m[k := a];
    }
    assert bets[..|bets|] == bets;
  }

  /* ---------------- Rows ---------------- */

  /** The stored row of one group. */
  function RowOf(userID: string, k: Key, a: Agg): UserModelStat {
    UserModelStat(0, userID, k.model, k.sport, k.mode, a.wins, a.losses, a.pushes, a.bets, a.units,
                  RoiPct(a.units, a.bets))
  }

  function RowKey(r: UserModelStat): Key {
    Key(r.model, r.sport, r.mode)
  }

  function SumRowBets(rows: seq<UserModelStat>): int {
    if rows == [] then 0 else SumRowBets(rows[..|rows| - 1]) + rows[|rows| - 1].bets
  }

  /** The keys of the rows, in row order. */
  function RowKeys(rows: seq<UserModelStat>): (ks: seq<Key>)
    ensures |ks| == |rows| && forall i :: 0 <= i < |rows| ==> ks[i] == RowKey(rows[i])
  {
    seq(|rows|, i requires 0 <= i < |rows| => RowKey(rows[i]))
  }

  /** The row loop over the map (in the map's unspecified order): one row per group
      and no group twice. */
  method BuildRows(userID: string, m: map<Key, Agg>) returns (rows: seq<UserModelStat>)
    ensures |rows| == |m|
    ensures forall i :: 0 <= i < |rows| ==>
      RowKey(rows[i]) in m && rows[i] == RowOf(userID, RowKey(rows[i]), m[RowKey(rows[i])])
    ensures forall i, j :: 0 <= i < j < |rows| ==> RowKey(rows[i]) != RowKey(rows[j])
    ensures forall k :: k in m ==> k in RowKeys(rows)
  {
    rows := [];
    ghost var keys: seq<Key> := [];
    var rest := m.Keys;
    while rest != {}
      invariant rest <= m.Keys
      invariant forall i :: 0 <= i < |keys| ==> keys[i] in m && keys[i] !in rest
      invariant forall i, j :: 0 <= i < j < |keys| ==> keys[i] != keys[j]
      invariant forall k :: k in m ==> k in rest || k in keys
      invariant |keys| + |rest| == |m|
      invariant |rows| == |keys|
      invariant forall i :: 0 <= i < |keys| ==> rows[i] == RowOf(userID, keys[i], m[keys[i]])
      decreases |rest|
    {
      var k :| k in rest;
      var row := RowOf(userID, k, m[k]);
      rows := rows + [row];
      keys := keys + [k];
      rest := rest - {k};
    }
    assert RowKeys(rows) == keys;
  }

  /** `recomputeStatsForUser` on the user's bets: the rows to write, none for no bets. */
  method RecomputeStatsForUser(userID: string, bets: seq<PastBetRecord>) returns (rows: seq<UserModelStat>)
    ensures rows == [] <==> bets == []
    ensures SumRowBets(rows) == |bets|
    ensures forall i, j :: 0 <= i < j < |rows| ==> RowKey(rows[i]) != RowKey(rows[j])
    ensures forall j :: 0 <= j < |bets| ==> KeyOf(bets[j]) in RowKeys(rows)
    ensures forall i :: 0 <= i < |rows| ==>
      var g := GroupOf(bets, RowKey(rows[i]));
      && |g| > 0
      && rows[i] == RowOf(userID, RowKey(rows[i]), Tallied(g))
      && rows[i].wins + rows[i].losses + rows[i].pushes <= rows[i].bets
  {
    var m := AggregateBets(bets);
    rows := BuildRows(userID, m);
    forall i | 0 <= i < |rows|
      ensures var g := GroupOf(bets, RowKey(rows[i]));
        && |g| > 0
        && rows[i] == RowOf(userID, RowKey(rows[i]), Tallied(g))
        && rows[i].wins + rows[i].losses + rows[i].pushes <= rows[i].bets
    {
      AggregateIsTallied(bets, RowKey(rows[i]));
      AggregateWellFormed(bets, RowKey(rows[i]));
    }
    forall j | 0 <= j < |bets|
      ensures KeyOf(bets[j]) in m
    {
      GroupHasBet(bets, j);
      AggregateIsTallied(bets, KeyOf(bets[j]));
    }
    if bets != [] {
      assert KeyOf(bets[0]) in m;
    } else {
      assert |m| == 0;
    }
    RowBetsAreGroupSizes(bets, rows);
    GroupsPartitionBets(bets, RowKeys(rows));
  }

  lemma {:induction false} GroupHasBet(bets: seq<PastBetRecord>, j: nat)
    requires j < |bets|
    ensures |GroupOf(bets, KeyOf(bets[j]))| > 0
  {
    var front := bets[..|bets| - 1];
    if j < |bets| - 1 {
      GroupHasBet(front, j);
    }
  }

  /* Each bet is in exactly one group, so the group sizes add up to the bets. */

  /** The sizes of the groups of the given keys, added up. */
  function GroupSizes(bets: seq<PastBetRecord>, keys: seq<Key>): nat {
    if keys == [] then 0 else GroupSizes(bets, keys[..|keys| - 1]) + |GroupOf(bets, keys[|keys| - 1])|
  }

  /** How often x occurs in keys. */
  function Occurrences(keys: seq<Key>, x: Key): nat {
    if keys == [] then 0 else Occurrences(keys[..|keys| - 1], x) + (if keys[|keys| - 1] == x then 1 else 0)
  }

  predicate Distinct(keys: seq<Key>) {
    forall i, j :: 0 <= i < j < |keys| ==> keys[i] != keys[j]
  }

  lemma {:induction false} OccursOnce(keys: seq<Key>, x: Key)
    requires Distinct(keys) && x in keys
    ensures Occurrences(keys, x) == 1
  {
    var front := keys[..|keys| - 1];
    if keys[|keys| - 1] == x {
      OccursNot(front, x);
    } else {
      assert x in front by {
        var i :| 0 <= i < |keys| && keys[i] == x;
        assert front[i] == x;
      }
      OccursOnce(front, x);
    }
  }

  lemma {:induction false} OccursNot(keys: seq<Key>, x: Key)
    requires x !in keys
    ensures Occurrences(keys, x) == 0
  {
    if keys != [] {
      assert keys[..|keys| - 1] <= keys;
      OccursNot(keys[..|keys| - 1], x);
    }
  }

  lemma {:induction false} GroupSizesStep(front: seq<PastBetRecord>, b: PastBetRecord, keys: seq<Key>)
    ensures GroupSizes(front + [b], keys) == GroupSizes(front, keys) + Occurrences(keys, KeyOf(b))
  {
    var bets := front + [b];
    assert bets[..|bets| - 1] == front;
    if keys != [] {
      GroupSizesStep(front, b, keys[..|keys| - 1]);
    }
  }

  /** For distinct keys covering every bet, the group sizes add up to the number of bets. */
  lemma {:induction false} GroupsPartitionBets(bets: seq<PastBetRecord>, keys: seq<Key>)
    requires Distinct(keys)
    requires forall j :: 0 <= j < |bets| ==> KeyOf(bets[j]) in keys
    ensures GroupSizes(bets, keys) == |bets|
  {
    if bets == [] {
      EmptyGroups(keys);
    } else {
      var front := bets[..|bets| - 1];
      var b := bets[|bets| - 1];
      assert forall j :: 0 <= j < |front| ==> front[j] == bets[j];
      GroupsPartitionBets(front, keys);
      assert front + [b] == bets;
      GroupSizesStep(front, b, keys);
      OccursOnce(keys, KeyOf(b));
    }
  }

  lemma {:induction false} EmptyGroups(keys: seq<Key>)
    ensures GroupSizes([], keys) == 0
  {
    if keys != [] {
      EmptyGroups(keys[..|keys| - 1]);
    }
  }

  /** The bets of the rows add up to the sizes of their groups. */
  lemma {:induction false} RowBetsAreGroupSizes(bets: seq<PastBetRecord>, rows: seq<UserModelStat>)
    requires forall i :: 0 <= i < |rows| ==> rows[i].bets == |GroupOf(bets, RowKey(rows[i]))|
    ensures SumRowBets(rows) == GroupSizes(bets, RowKeys(rows))
  {
    if rows != [] {
      var front := rows[..|rows| - 1];
      RowBetsAreGroupSizes(bets, front);
      assert RowKeys(rows)[..|rows| - 1] == RowKeys(front);
    }
  }
}
