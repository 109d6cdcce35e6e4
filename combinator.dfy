/** The parameter combinator: `ApiParser.create_params` and `ApiParser.same_removal`.

    A parameter spec maps each parameter name to its value pools, one under `'true'` (valid values)
    and one under `'false'` (invalid values). For one polarity the combinator emits one row per
    (parameter, value) pair of that polarity's pools: the row sets that parameter to that value and
    fills every other parameter with a randomly chosen member of its own pool (`""` for an empty
    pool). Rows equal as dicts are then collapsed, keeping the first. */
module Combinator {
  import opened Wrappers
  import opened Dicts
  import opened Requests

  /** A parameter's pool dict: the lists under its `'true'` and `'false'` keys, `None` when absent. */
  datatype Pools = Pools(valid: Option<seq<Value>>, invalid: Option<seq<Value>>)

  type ParamSpec = Dict<Pools>

  /** One synthesized parameter dict. */
  type Row = Dict<Value>

  /** The random source, injected. `pick(flag, varied, j, other)` is the number `random.choice`
      draws when it fills parameter `other` in the row that sets `varied` to its `j`-th value;
      each `random.choice` call of one `create_params(spec, flag)` run has its own such tuple. */
  type Picker = (bool, string, nat, string) -> nat

  /** The key a polarity stands under in a pool dict. */
  function FlagName(flag: bool): string {
    if flag then "true" else "false"
  }

  function PoolOf(p: Pools, flag: bool): Option<seq<Value>> {
    if flag then p.valid else p.invalid
  }

  /** `{pk: pv[flag] for pk, pv in params.items()}`. */
  function FlagPools(spec: ParamSpec, flag: bool): Result<Dict<seq<Value>>>
    decreases |spec|
  {
    if |spec| == 0 then Ok([])
    else
      match PoolOf(spec[0].1, flag)
      case None => Err(KeyError(FlagName(flag)))
      case Some(pool) =>
        var rest :- FlagPools(spec[1..], flag);
        Ok([(spec[0].0, pool)] + rest)
  }

  /** The lookup raises `KeyError(flag)` exactly when some parameter's pool dict lacks the
      polarity; otherwise it keeps the spec's keys, in order, each with that polarity's pool. */
  lemma {:induction false} FlagPoolsShape(spec: ParamSpec, flag: bool)
    ensures FlagPools(spec, flag).Err? <==> exists i :: 0 <= i < |spec| && PoolOf(spec[i].1, flag).None?
    ensures FlagPools(spec, flag).Err? ==> FlagPools(spec, flag).error == KeyError(FlagName(flag))
    ensures FlagPools(spec, flag).Ok? ==> Keys(FlagPools(spec, flag).value) == Keys(spec)
    ensures FlagPools(spec, flag).Ok? ==>
      forall i :: 0 <= i < |spec| ==> PoolOf(spec[i].1, flag) == Some(FlagPools(spec, flag).value[i].1)
    decreases |spec|
  {
    if |spec| > 0 {
      FlagPoolsShape(spec[1..], flag);
      assert forall i :: 1 <= i < |spec| ==> spec[1..][i - 1] == spec[i];
      if PoolOf(spec[0].1, flag).Some? && FlagPools(spec[1..], flag).Ok? {
        var r := FlagPools(spec, flag).value;
        var rest := FlagPools(spec[1..], flag).value;
        assert r == [(spec[0].0, PoolOf(spec[0].1, flag).value)] + rest;
        assert Keys(spec) == [spec[0].0] + Keys(spec[1..]);
        assert Keys(r) == [spec[0].0] + Keys(rest);
      }
    }
  }

  /** `random.choice(pool)` driven by the draw `n`, or `''` when the pool is empty. */
  function Draw(pool: seq<Value>, n: nat): (v: Value)
    ensures InPool(pool, v)
  {
    if |pool| == 0 then "" else pool[n % |pool|]
  }

  /** What a row may hold for a parameter with pool `pool`: one of its members, or `""` when empty. */
  predicate InPool(pool: seq<Value>, v: Value) {
    if |pool| == 0 then v == "" else v in pool
  }

  /** The entry `e` holds, for its key, a value its pool allows. */
  predicate FromPool(fp: Dict<seq<Value>>, e: (string, Value)) {
    exists t :: 0 <= t < |fp| && fp[t].0 == e.0 && InPool(fp[t].1, e.1)
  }

  /** Every row: a dict over exactly the spec's keys, each holding a value its pool allows. */
  ghost predicate WellFormedRow(fp: Dict<seq<Value>>, row: Row) {
    && DistinctKeys(row)
    && (forall x :: x in Keys(row) <==> x in Keys(fp))
    && (forall t :: 0 <= t < |row| ==> FromPool(fp, row[t]))
  }

  /** The fill-in entries of the row that sets `varied` to its `j`-th value: every other key of
      `fp`, in spec order, with a drawn value. */
  function Fill(fp: Dict<seq<Value>>, flag: bool, varied: string, j: nat, pick: Picker): Row
    decreases |fp|
  {
    if |fp| == 0 then []
    else
      var init := Fill(fp[..|fp| - 1], flag, varied, j, pick);
      var (kk, vv) := fp[|fp| - 1];
      if kk == varied then init
      else init + [(kk, Draw(vv, pick(flag, varied, j, kk)))]
  }

  /** The fill-in holds exactly the keys other than `varied`, once each, with values their
      pools allow. */
  lemma {:induction false} FillShape(fp: Dict<seq<Value>>, flag: bool, varied: string, j: nat, pick: Picker)
    ensures forall x :: x in Keys(Fill(fp, flag, varied, j, pick)) <==> x in Keys(fp) && x != varied
    ensures forall t :: 0 <= t < |Fill(fp, flag, varied, j, pick)| ==> FromPool(fp, Fill(fp, flag, varied, j, pick)[t])
    ensures DistinctKeys(fp) ==> DistinctKeys(Fill(fp, flag, varied, j, pick))
    decreases |fp|
  {
    if |fp| > 0 {
      var p := fp[..|fp| - 1];
      var init := Fill(p, flag, varied, j, pick);
      FillShape(p, flag, varied, j, pick);
      var (kk, vv) := fp[|fp| - 1];
      assert Keys(fp) == Keys(p) + [kk];
      assert forall t :: 0 <= t < |fp| - 1 ==> p[t] == fp[t];
      forall t | 0 <= t < |init| ensures FromPool(fp, init[t]) {
        assert FromPool(p, init[t]);
        var u :| 0 <= u < |p| && p[u].0 == init[t].0 && InPool(p[u].1, init[t].1);
        assert fp[u] == p[u];
      }
      if kk != varied {
        var r := init + [(kk, Draw(vv, pick(flag, varied, j, kk)))];
        assert Keys(r) == Keys(init) + [kk];
        assert FromPool(fp, r[|r| - 1]);
        assert forall t :: 0 <= t < |init| ==> r[t] == init[t];
      }
    }
  }

  /** The row for the `j`-th value of the `i`-th parameter. */
  function RowAt(fp: Dict<seq<Value>>, flag: bool, i: nat, j: nat, pick: Picker): Row
    requires i < |fp| && j < |fp[i].1|
  {
    [(fp[i].0, fp[i].1[j])] + Fill(fp, flag, fp[i].0, j, pick)
  }

  /** The rows that vary the `i`-th parameter, one per value of its pool, in pool order. */
  function VaryRows(fp: Dict<seq<Value>>, flag: bool, i: nat, pick: Picker): seq<Row>
    requires i < |fp|
  {
    seq(|fp[i].1|, j requires 0 <= j < |fp[i].1| => RowAt(fp, flag, i, j, pick))
  }

  /** The rows for the first `n` parameters, before deduplication. */
  function RowsUpTo(fp: Dict<seq<Value>>, flag: bool, n: nat, pick: Picker): seq<Row>
    requires n <= |fp|
  {
    if n == 0 then [] else RowsUpTo(fp, flag, n - 1, pick) + VaryRows(fp, flag, n - 1, pick)
  }

  /** `items_flag`: all rows, before deduplication. */
  function Rows(fp: Dict<seq<Value>>, flag: bool, pick: Picker): seq<Row> {
    RowsUpTo(fp, flag, |fp|, pick)
  }

  /** The total size of the first `n` pools. */
  function SumLens(fp: Dict<seq<Value>>, n: nat): nat
    requires n <= |fp|
  {
    if n == 0 then 0 else SumLens(fp, n - 1) + |fp[n - 1].1|
  }

  /** `create_params(spec, flag)`. */
  function Combine(spec: ParamSpec, flag: bool, pick: Picker): Result<seq<Row>> {
    var fp :- FlagPools(spec, flag);
    Ok(Dedup(Rows(fp, flag, pick)))
  }

  /** The row varies one parameter: it starts with that parameter set to a member of its pool. */
  ghost predicate VariesOne(fp: Dict<seq<Value>>, row: Row) {
    |row| > 0 && exists i, j :: 0 <= i < |fp| && 0 <= j < |fp[i].1| && row[0] == (fp[i].0, fp[i].1[j])
  }

  /** Before deduplication there are exactly as many rows as pool values. */
  lemma {:induction false} RowsUpToCount(fp: Dict<seq<Value>>, flag: bool, n: nat, pick: Picker)
    requires n <= |fp|
    ensures |RowsUpTo(fp, flag, n, pick)| == SumLens(fp, n)
  {
    if n > 0 {
      RowsUpToCount(fp, flag, n - 1, pick);
    }
  }

  lemma {:induction false} RowsUpToPrefix(fp: Dict<seq<Value>>, flag: bool, m: nat, n: nat, pick: Picker)
    requires m <= n <= |fp|
    ensures RowsUpTo(fp, flag, m, pick) <= RowsUpTo(fp, flag, n, pick)
    decreases n - m
  {
    if m < n {
      RowsUpToPrefix(fp, flag, m, n - 1, pick);
    }
  }

  /** One row per (parameter, value) pair, in spec order and then pool order: the row for the
      `j`-th value of the `i`-th parameter sits at position `SumLens(fp, i) + j`. */
  lemma RowsEnumerate(fp: Dict<seq<Value>>, flag: bool, i: nat, j: nat, pick: Picker)
    requires i < |fp| && j < |fp[i].1|
    ensures |Rows(fp, flag, pick)| == SumLens(fp, |fp|)
    ensures SumLens(fp, i) + j < |Rows(fp, flag, pick)|
    ensures Rows(fp, flag, pick)[SumLens(fp, i) + j] == RowAt(fp, flag, i, j, pick)
  {
    RowsUpToCount(fp, flag, |fp|, pick);
    RowsUpToCount(fp, flag, i, pick);
    RowsUpToPrefix(fp, flag, i + 1, |fp|, pick);
    var before := RowsUpTo(fp, flag, i, pick);
    assert RowsUpTo(fp, flag, i + 1, pick) == before + VaryRows(fp, flag, i, pick);
    assert RowsUpTo(fp, flag, i + 1, pick)[|before| + j] == VaryRows(fp, flag, i, pick)[j];
  }

  /** The row for the `j`-th value of the `i`-th parameter holds exactly the spec's keys, the
      varied parameter first with its chosen value, and every other key a value its pool allows. */
  lemma RowAtShape(fp: Dict<seq<Value>>, flag: bool, i: nat, j: nat, pick: Picker)
    requires DistinctKeys(fp)
    requires i < |fp| && j < |fp[i].1|
    ensures WellFormedRow(fp, RowAt(fp, flag, i, j, pick))
    ensures RowAt(fp, flag, i, j, pick)[0] == (fp[i].0, fp[i].1[j])
    ensures VariesOne(fp, RowAt(fp, flag, i, j, pick))
  {
    var k := fp[i].0;
    var fill := Fill(fp, flag, k, j, pick);
    FillShape(fp, flag, k, j, pick);
    var row := RowAt(fp, flag, i, j, pick);
    assert Keys(row) == [k] + Keys(fill);
    assert k in Keys(fp) by { assert Keys(fp)[i] == k; }
    assert FromPool(fp, row[0]) by { assert fp[i].1[j] in fp[i].1; }
    forall t | 1 <= t < |row| ensures FromPool(fp, row[t]) {
      assert row[t] == fill[t - 1];
    }
    forall a, b | 0 <= a < b < |row| ensures row[a].0 != row[b].0 {
      if a == 0 {
        assert Keys(fill)[b - 1] == row[b].0;
      } else {
        assert row[a] == fill[a - 1] && row[b] == fill[b - 1];
      }
    }
  }

  lemma {:induction false} RowsUpToShape(fp: Dict<seq<Value>>, flag: bool, n: nat, pick: Picker)
    requires DistinctKeys(fp)
    requires n <= |fp|
    ensures forall row :: row in RowsUpTo(fp, flag, n, pick) ==> WellFormedRow(fp, row) && VariesOne(fp, row)
  {
    if n > 0 {
      RowsUpToShape(fp, flag, n - 1, pick);
      forall row | row in VaryRows(fp, flag, n - 1, pick)
        ensures WellFormedRow(fp, row) && VariesOne(fp, row)
      {
        var j :| 0 <= j < |fp[n - 1].1| && row == VaryRows(fp, flag, n - 1, pick)[j];
        RowAtShape(fp, flag, n - 1, j, pick);
      }
    }
  }

  /** `create_params(spec, flag)` on a spec with no parameters gives no rows. */
  lemma CombineEmpty(flag: bool, pick: Picker)
    ensures Combine([], flag, pick) == Ok([])
  {
  }

  /** `create_params` raises exactly when a parameter lacks the polarity's pool. Otherwise it
      returns the first occurrence of each distinct row, at most one per (parameter, value) pair;
      each row has exactly the spec's keys, varies one parameter and fills the rest from their pools. */
  lemma CombineProperties(spec: ParamSpec, flag: bool, pick: Picker)
    requires DistinctKeys(spec)
    ensures Combine(spec, flag, pick).Err? <==> exists i :: 0 <= i < |spec| && PoolOf(spec[i].1, flag).None?
    ensures Combine(spec, flag, pick).Ok? ==>
      var fp := FlagPools(spec, flag).value;
      var rows := Combine(spec, flag, pick).value;
      && |Rows(fp, flag, pick)| == SumLens(fp, |fp|)
      && |rows| <= SumLens(fp, |fp|)
      && rows == FirstOccurrences(Rows(fp, flag, pick))
      && (forall a, b :: 0 <= a < b < |rows| ==> !Same(rows[a], rows[b]))
      && (forall row :: row in Rows(fp, flag, pick) ==> ContainsSame(rows, row))
      && (forall row :: row in rows ==> WellFormedRow(fp, row) && VariesOne(fp, row))
  {
    var pools := FlagPools(spec, flag);
    FlagPoolsShape(spec, flag);
    if pools.Ok? {
      var fp := pools.value;
      SameKeysDistinct(spec, fp);
      var all := Rows(fp, flag, pick);
      RowsUpToCount(fp, flag, |fp|, pick);
      RowsUpToShape(fp, flag, |fp|, pick);
      DedupIsFirstOccurrences(all);
      DedupNoDuplicates(all);
      DedupCovers(all);
    }
  }

  // ---------------------------------------------------------------------------------------------
  // same_removal

  /** Python's `d in s` on a list of dicts. */
  predicate ContainsSame(s: seq<Row>, d: Row) {
    exists t :: 0 <= t < |s| && Same(s[t], d)
  }

  /** `same_removal(s)`: append each element unless an equal dict is already kept. */
  function Dedup(s: seq<Row>): (r: seq<Row>)
    ensures |r| <= |s|
    ensures forall x :: x in r ==> x in s
    decreases |s|
  {
    if |s| == 0 then []
    else
      var r := Dedup(s[..|s| - 1]);
      if ContainsSame(r, s[|s| - 1]) then r else r + [s[|s| - 1]]
  }

  /** Reference definition: the elements of `s` that no earlier element equals, in input order. */
  function FirstOccurrences(s: seq<Row>): seq<Row>
    decreases |s|
  {
    if |s| == 0 then []
    else
      var p := s[..|s| - 1];
      FirstOccurrences(p) + (if ContainsSame(p, s[|s| - 1]) then [] else [s[|s| - 1]])
  }

  /** Every input element has an equal dict among the kept ones. */
  lemma {:induction false} DedupCovers(s: seq<Row>)
    ensures forall i :: 0 <= i < |s| ==> ContainsSame(Dedup(s), s[i])
    decreases |s|
  {
    if |s| > 0 {
      var p := s[..|s| - 1];
      DedupCovers(p);
      var r := Dedup(s);
      assert Dedup(p) <= r;
      forall i | 0 <= i < |s|
        ensures ContainsSame(r, s[i])
      {
        if i < |s| - 1 {
          assert s[i] == p[i];
          var t :| 0 <= t < |Dedup(p)| && Same(Dedup(p)[t], p[i]);
          assert r[t] == Dedup(p)[t];
        } else if !ContainsSame(Dedup(p), s[i]) {
          assert r[|r| - 1] == s[i];
        } else {
          var t :| 0 <= t < |Dedup(p)| && Same(Dedup(p)[t], s[i]);
          assert r[t] == Dedup(p)[t];
        }
      }
    }
  }

  /** No two kept elements are equal dicts. */
  lemma {:induction false} DedupNoDuplicates(s: seq<Row>)
    ensures forall a, b :: 0 <= a < b < |Dedup(s)| ==> !Same(Dedup(s)[a], Dedup(s)[b])
    decreases |s|
  {
    if |s| > 0 {
      DedupNoDuplicates(s[..|s| - 1]);
    }
  }

  /** An equal dict is among the kept elements exactly when it is among the input. */
  lemma DedupContainsSame(p: seq<Row>, x: Row)
    ensures ContainsSame(Dedup(p), x) <==> ContainsSame(p, x)
  {
    if ContainsSame(p, x) {
      DedupCovers(p);
      var t :| 0 <= t < |p| && Same(p[t], x);
      assert ContainsSame(Dedup(p), p[t]);
      var u :| 0 <= u < |Dedup(p)| && Same(Dedup(p)[u], p[t]);
      assert Same(Dedup(p)[u], x);
    }
    if ContainsSame(Dedup(p), x) {
      var u :| 0 <= u < |Dedup(p)| && Same(Dedup(p)[u], x);
      assert Dedup(p)[u] in p;
      var t :| 0 <= t < |p| && p[t] == Dedup(p)[u];
    }
  }

  /** `same_removal` keeps exactly the first occurrence of each dict, in input order. */
  lemma {:induction false} DedupIsFirstOccurrences(s: seq<Row>)
    ensures Dedup(s) == FirstOccurrences(s)
    decreases |s|
  {
    if |s| > 0 {
      var p := s[..|s| - 1];
      DedupIsFirstOccurrences(p);
      DedupContainsSame(p, s[|s| - 1]);
    }
  }

  /** `same_removal`, as the loop the source runs. */
  method SameRemoval(data: seq<Row>) returns (temp: seq<Row>)
    ensures temp == Dedup(data)
  {
    temp := [];
    var i := 0;
    while i < |data|
      invariant 0 <= i <= |data|
      invariant temp == Dedup(data[..i])
    {
      var d := data[i];
      assert data[..i + 1][..i] == data[..i];
      temp := temp + (if ContainsSame(temp, d) then [] else [d]);
      i := i + 1;
    }
    assert data[..|data|] == data;
  }

  // ---------------------------------------------------------------------------------------------
  // create_params

  /** `create_params(params, flag)`, as the nested loops the source runs. */
  method CreateParams(spec: ParamSpec, flag: bool, pick: Picker) returns (r: Result<seq<Row>>)
    requires DistinctKeys(spec)
    ensures r == Combine(spec, flag, pick)
  {
    var pools := FlagPools(spec, flag);
    FlagPoolsShape(spec, flag);
    if pools.Err? {
      return Err(pools.error);
    }
    var fp := pools.value;
    SameKeysDistinct(spec, fp);
    var items := BuildRows(fp, flag, pick);
    var kept := SameRemoval(items);
    r := Ok(kept);
  }

  /** The outer loop of `create_params`: the rows varying each parameter in turn, in spec order. */
  method BuildRows(fp: Dict<seq<Value>>, flag: bool, pick: Picker) returns (items: seq<Row>)
    requires DistinctKeys(fp)
    ensures items == Rows(fp, flag, pick)
  {
    items := [];
    var i := 0;
    while i < |fp|
      invariant 0 <= i <= |fp|
      invariant items == RowsUpTo(fp, flag, i, pick)
    {
      var vary := BuildVaryRows(fp, flag, i, pick);
      items := items + vary;
      i := i + 1;
    }
  }

  /** The middle loop of `create_params`: one row per value of the `i`-th parameter's pool. */
  method BuildVaryRows(fp: Dict<seq<Value>>, flag: bool, i: nat, pick: Picker) returns (items: seq<Row>)
    requires DistinctKeys(fp)
    requires i < |fp|
    ensures items == VaryRows(fp, flag, i, pick)
  {
    ghost var vary := VaryRows(fp, flag, i, pick);
    items := [];
    var j := 0;
    while j < |fp[i].1|
      invariant 0 <= j <= |fp[i].1| == |vary|
      invariant items == vary[..j]
    {
      var row := BuildRow(fp, flag, i, j, pick);
      assert vary[j] == row;
      SliceGrow(vary, j);
      items := items + [row];
      j := j + 1;
    }
    assert vary[..j] == vary;
  }

  /** The body of the two inner loops of `create_params`: `json_params = {k: real_v}`, then one
      assignment per other parameter, `''` for an empty pool and `random.choice` otherwise. */
  method BuildRow(fp: Dict<seq<Value>>, flag: bool, i: nat, j: nat, pick: Picker) returns (row: Row)
    requires DistinctKeys(fp)
    requires i < |fp| && j < |fp[i].1|
    ensures row == RowAt(fp, flag, i, j, pick)
  {
    var k, v := fp[i].0, fp[i].1;
    row := [(k, v[j])];
    var m := 0;
    while m < |fp|
      invariant 0 <= m <= |fp|
      invariant row == [(k, v[j])] + Fill(fp[..m], flag, k, j, pick)
    {
      var kk, vv := fp[m].0, fp[m].1;
      RowStep(fp, flag, k, v[j], j, pick, m);
      if kk != k {
        var chosen := if |vv| == 0 then "" else vv[pick(flag, k, j, kk) % |vv|];
        assert chosen == Draw(vv, pick(flag, k, j, kk));
        row := Put(row, kk, chosen);
      }
      m := m + 1;
    }
    assert fp[..|fp|] == fp;
  }

  /** Setting the next parameter's drawn value on the partial row extends its fill-in by one. */
  lemma RowStep(fp: Dict<seq<Value>>, flag: bool, k: string, vj: Value, j: nat, pick: Picker, m: nat)
    requires DistinctKeys(fp) && m < |fp|
    ensures var row := [(k, vj)] + Fill(fp[..m], flag, k, j, pick);
            var kk := fp[m].0;
      [(k, vj)] + Fill(fp[..m + 1], flag, k, j, pick)
        == if kk == k then row else Put(row, kk, Draw(fp[m].1, pick(flag, k, j, kk)))
  {
    var fill := Fill(fp[..m], flag, k, j, pick);
    FillShape(fp[..m], flag, k, j, pick);
    var row := [(k, vj)] + fill;
    var kk := fp[m].0;
    FillStep(fp, flag, k, j, pick, m);
    if kk != k {
      var chosen := Draw(fp[m].1, pick(flag, k, j, kk));
      assert Keys(row) == [k] + Keys(fill);
      KeyNotInPrefix(fp, m);
      PutAppends(row, kk, chosen);
      assert row + [(kk, chosen)] == [(k, vj)] + (fill + [(kk, chosen)]);
    }
  }

  /** One more parameter of the fill-in: nothing for the varied one, else its drawn value. */
  lemma FillStep(fp: Dict<seq<Value>>, flag: bool, varied: string, j: nat, pick: Picker, m: nat)
    requires m < |fp|
    ensures Fill(fp[..m + 1], flag, varied, j, pick)
         == Fill(fp[..m], flag, varied, j, pick)
            + (if fp[m].0 == varied then [] else [(fp[m].0, Draw(fp[m].1, pick(flag, varied, j, fp[m].0)))])
  {
    assert fp[..m + 1][..m] == fp[..m];
  }

  lemma SliceGrow<T>(s: seq<T>, j: nat)
    requires j < |s|
    ensures s[..j + 1] == s[..j] + [s[j]]
  {
  }

  lemma SameKeysDistinct<V, W>(a: Dict<V>, b: Dict<W>)
    requires DistinctKeys(a) && Keys(a) == Keys(b)
    ensures DistinctKeys(b)
  {
    forall i, j | 0 <= i < j < |b| ensures b[i].0 != b[j].0 {
      assert Keys(a)[i] == b[i].0 && Keys(a)[j] == b[j].0;
    }
  }

  /** A key of a dict whose keys are distinct does not occur among the keys before it. */
  lemma KeyNotInPrefix(fp: Dict<seq<Value>>, m: nat)
    requires m < |fp|
    requires DistinctKeys(fp)
    ensures fp[m].0 !in Keys(fp[..m])
  {
    forall t | 0 <= t < m ensures Keys(fp[..m])[t] != fp[m].0 {
      assert fp[..m][t] == fp[t];
    }
  }
}
