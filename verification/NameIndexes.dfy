/** name_index.c: a row array with a free list, and a hash table of row numbers that finds rows by name. */
module NameIndexes {
  import opened ProbePaths

  const ROWS_INITIAL: nat := 32
  const HT_INITIAL: nat := 64
  const NO_ROW: int := -1

  datatype Error = Success | InParam | Fail

  /** What is registered; two values are the same object if their ids are equal. */
  datatype Value = Value(id: nat, name: string)

  /** A row is on the free list or holds a value; its generation counts how often it was freed. */
  datatype Row = Free(gen: nat, next: int) | Used(gen: nat, value: Value)

  /** Names are compared and hashed up to a fixed length. */
  function KeyOf(name: string, max: nat): string { if |name| <= max then name else name[..max] }

  function UsedRows(rows: seq<Row>): nat
  {
    if rows == [] then 0 else UsedRows(rows[..|rows| - 1]) + (if rows[|rows| - 1].Used? then 1 else 0)
  }

  lemma {:induction false} UsedUpdate(rows: seq<Row>, r: nat, row: Row)
    requires r < |rows|
    ensures UsedRows(rows[r := row]) == UsedRows(rows) - (if rows[r].Used? then 1 else 0) + (if row.Used? then 1 else 0)
  {
    var n := |rows| - 1;
    if r == n {
      assert rows[r := row][..n] == rows[..n];
    } else {
      assert rows[r := row][..n] == rows[..n][r := row];
      UsedUpdate(rows[..n], r, row);
    }
  }

  lemma {:induction false} UsedPrefix(rows: seq<Row>, n: nat)
    requires n <= |rows|
    ensures UsedRows(rows[..n]) <= UsedRows(rows)
    decreases |rows|
  {
    if n < |rows| {
      assert rows[..|rows| - 1][..n] == rows[..n];
      UsedPrefix(rows[..|rows| - 1], n);
    } else {
      assert rows[..n] == rows;
    }
  }

  /** Appending free rows. */
  lemma {:induction false} UsedGrown(rows: seq<Row>, more: seq<Row>)
    requires forall i :: 0 <= i < |more| ==> more[i].Free?
    ensures UsedRows(rows + more) == UsedRows(rows)
    decreases |more|
  {
    if more != [] {
      assert (rows + more)[..|rows + more| - 1] == rows + more[..|more| - 1];
      UsedGrown(rows, more[..|more| - 1]);
    } else {
      assert rows + more == rows;
    }
  }

  predicate PowerOfTwo(n: nat) { n == 1 || (n > 1 && n % 2 == 0 && PowerOfTwo(n / 2)) }

  lemma InitialPower()
    ensures PowerOfTwo(HT_INITIAL)
  {
    assert PowerOfTwo(1) && PowerOfTwo(2) && PowerOfTwo(4) && PowerOfTwo(8) && PowerOfTwo(16) && PowerOfTwo(32);
  }

  /** Every used row but one is found on the probe path of its name. */
  ghost predicate ReachBut(rows: seq<Row>, ht: seq<int>, hash: string -> nat, max: nat, but: int)
  {
    forall r: nat :: r < |rows| && rows[r].Used? && r != but ==> OnPath(ht, hash(KeyOf(rows[r].value.name, max)), r)
  }

  ghost predicate Reach(rows: seq<Row>, ht: seq<int>, hash: string -> nat, max: nat)
  {
    ReachBut(rows, ht, hash, max, NO_ROW)
  }

  /** Buckets are empty, tombstones or row numbers; the counters are exact; the size is a power of two. */
  ghost predicate TableOk(rows: seq<Row>, ht: seq<int>, tombs: nat, live: nat)
  {
    && (forall b :: 0 <= b < |ht| ==> TOMB <= ht[b] < |rows|)
    && tombs == Count(ht, TOMB)
    && live == UsedRows(rows)
    && (|ht| == 0 || PowerOfTwo(|ht|))
  }

  /** At most seven tenths of the table's size are in use. */
  predicate Loaded(live: nat, cap: nat) { live * 100 <= cap * 70 }

  function After(chain: seq<nat>, i: nat): int { if i + 1 < |chain| then chain[i + 1] else NO_ROW }

  /** The free list: `chain` lists its rows in order, and these are exactly the free rows, each once. */
  ghost predicate ChainIs(rows: seq<Row>, head: int, chain: seq<nat>)
  {
    && head == (if chain == [] then NO_ROW else chain[0])
    && (forall i :: 0 <= i < |chain| ==> chain[i] < |rows|)
    && (forall i {:trigger rows[chain[i]]} :: 0 <= i < |chain| ==>
          && rows[chain[i]].Free?
          && rows[chain[i]].next == After(chain, i))
    && (forall i, j :: 0 <= i < j < |chain| ==> chain[i] != chain[j])
    && (forall r: nat :: r < |rows| && rows[r].Free? ==> r in chain)
  }

  datatype Key = Key
  ghost predicate OpenChain(k: Key) { true }

  /** ChainIs, folded. */
  ghost predicate ChainOk(rows: seq<Row>, head: int, chain: seq<nat>)
  {
    (chain != [] ==> head == chain[0] < |rows| && rows[head].Free?) && (chain == [] ==> head == NO_ROW)
    && forall k: Key {:trigger OpenChain(k)} :: OpenChain(k) ==> ChainIs(rows, head, chain)
  }

  /** What is registered, by row. */
  ghost function Registered(rows: seq<Row>): map<nat, Value>
  {
    map r: nat | r < |rows| && rows[r].Used? :: rows[r].value
  }

  lemma RegisteredUpdate(rows: seq<Row>, r: nat, row: Row)
    requires r < |rows|
    ensures Registered(rows[r := row]) == if row.Used? then Registered(rows)[r := row.value] else Registered(rows) - {r}
    ensures r in Registered(rows) <==> rows[r].Used?
  {
  }

  lemma RegisteredGrown(rows: seq<Row>, more: seq<Row>)
    requires forall i :: 0 <= i < |more| ==> more[i].Free?
    ensures Registered(rows + more) == Registered(rows)
  {
  }

  /** No two rows have the same name. */
  ghost predicate Unique(rows: seq<Row>, max: nat)
  {
    forall r: nat, q: nat :: r < |rows| && q < |rows| && r != q && rows[r].Used? && rows[q].Used? ==>
      KeyOf(rows[r].value.name, max) != KeyOf(rows[q].value.name, max)
  }

  predicate Named(rows: seq<Row>, max: nat, key: string, r: nat)
  {
    r < |rows| && rows[r].Used? && KeyOf(rows[r].value.name, max) == key
  }

  /** The links of the free list without its first row. */
  lemma ChainPopLinks(rows: seq<Row>, head: int, chain: seq<nat>, row: Row, i: nat)
    requires ChainIs(rows, head, chain) && row.Used? && i + 1 < |chain|
    ensures chain[0] < |rows| && var rows', rest := rows[chain[0] := row], chain[1..];
            rest[i] == chain[i + 1] < |rows'| && rows'[rest[i]].Free? && rows'[rest[i]].next == After(rest, i)
  {
    assert rows[chain[i + 1]].Free? && rows[chain[i + 1]].next == After(chain, i + 1);
  }

  /** The rows that stay free. */
  lemma ChainPopFree(rows: seq<Row>, head: int, chain: seq<nat>, row: Row, r: nat)
    requires ChainIs(rows, head, chain) && chain != [] && row.Used? && r < |rows| && chain[0] < |rows| && rows[chain[0] := row][r].Free?
    ensures r in chain[1..]
  {
    var i :| 0 <= i < |chain| && chain[i] == r;
    assert chain[1..][i - 1] == r;
  }

  /** Taking the first free row. */
  lemma ChainPopIs(rows: seq<Row>, head: int, chain: seq<nat>, row: Row)
    requires ChainIs(rows, head, chain) && chain != [] && row.Used?
    ensures chain[0] < |rows| && ChainIs(rows[chain[0] := row], rows[chain[0]].next, chain[1..])
  {
    var rows', rest := rows[chain[0] := row], chain[1..];
    assert rows[chain[0]].next == After(chain, 0);
    forall i | 0 <= i < |rest|
      ensures rest[i] == chain[i + 1] < |rows'| && rows'[rest[i]].Free? && rows'[rest[i]].next == After(rest, i)
    {
      ChainPopLinks(rows, head, chain, row, i);
    }
    forall r: nat | r < |rows'| && rows'[r].Free?
      ensures r in rest
    {
      ChainPopFree(rows, head, chain, row, r);
    }
  }

  lemma ChainPop(rows: seq<Row>, head: int, chain: seq<nat>, row: Row)
    requires ChainOk(rows, head, chain) && chain != [] && row.Used?
    ensures chain[0] < |rows| && ChainOk(rows[chain[0] := row], rows[chain[0]].next, chain[1..])
  {
    assert OpenChain(Key);
    ChainPopIs(rows, head, chain, row);
  }

  /** The links of the free list with row r in front. */
  lemma ChainPushLinks(rows: seq<Row>, head: int, chain: seq<nat>, r: nat, gen: nat, i: nat)
    requires ChainIs(rows, head, chain) && r < |rows| && rows[r].Used? && i <= |chain|
    ensures var rows', chain' := rows[r := Free(gen, head)], [r] + chain;
            chain'[i] < |rows'| && rows'[chain'[i]].Free? && rows'[chain'[i]].next == After(chain', i)
            && (i > 0 ==> chain'[i] == chain[i - 1] != r)
  {
    if i > 0 {
      assert rows[chain[i - 1]].Free?;
    }
  }

  lemma ChainPushIs(rows: seq<Row>, head: int, chain: seq<nat>, r: nat, gen: nat)
    requires ChainIs(rows, head, chain) && r < |rows| && rows[r].Used?
    ensures ChainIs(rows[r := Free(gen, head)], r, [r] + chain)
  {
    var rows', chain' := rows[r := Free(gen, head)], [r] + chain;
    forall i | 0 <= i < |chain'|
      ensures chain'[i] < |rows'| && rows'[chain'[i]].Free? && rows'[chain'[i]].next == After(chain', i)
      ensures i > 0 ==> chain'[i] == chain[i - 1] != r
    {
      ChainPushLinks(rows, head, chain, r, gen, i);
    }
    forall q: nat | q < |rows'| && rows'[q].Free?
      ensures q in chain'
    {
      assert q != r ==> rows[q].Free? && q in chain;
    }
  }

  lemma ChainPush(rows: seq<Row>, head: int, chain: seq<nat>, r: nat, gen: nat)
    requires ChainOk(rows, head, chain) && r < |rows| && rows[r].Used?
    ensures ChainOk(rows[r := Free(gen, head)], r, [r] + chain)
  {
    assert OpenChain(Key);
    ChainPushIs(rows, head, chain, r, gen);
  }

  /** Fresh rows in front of the free list, each leading to the next and the last to the old head. */
  function FreshRows(from: nat, n: nat, tail: int): (more: seq<Row>)
    ensures |more| == n && forall i :: 0 <= i < n ==> more[i] == Free(0, if i + 1 < n then from + i + 1 else tail)
  {
    seq(n, i requires 0 <= i < n => Free(0, if i + 1 < n then from + i + 1 else tail))
  }

  /** Numbers from .. from + n. */
  function Span(from: nat, n: nat): (more: seq<nat>)
    ensures |more| == n && forall i :: 0 <= i < n ==> more[i] == from + i
  {
    seq(n, i requires 0 <= i < n => from + i)
  }

  /** The links of the free list with n new rows in front. */
  lemma ChainGrowLinks(rows: seq<Row>, head: int, chain: seq<nat>, n: nat, i: nat)
    requires ChainIs(rows, head, chain) && n > 0 && i < n + |chain|
    ensures var rows', chain' := rows + FreshRows(|rows|, n, head), Span(|rows|, n) + chain;
            chain'[i] < |rows'| && rows'[chain'[i]].Free? && rows'[chain'[i]].next == After(chain', i)
            && chain'[i] == if i < n then |rows| + i else chain[i - n]
  {
    var rows', chain' := rows + FreshRows(|rows|, n, head), Span(|rows|, n) + chain;
    if i < n {
      assert rows'[|rows| + i] == FreshRows(|rows|, n, head)[i];
    } else {
      assert rows'[chain[i - n]] == rows[chain[i - n]];
    }
  }

  lemma ChainGrowFree(rows: seq<Row>, head: int, chain: seq<nat>, n: nat, r: nat)
    requires ChainIs(rows, head, chain) && r < |rows| + n && (rows + FreshRows(|rows|, n, head))[r].Free?
    ensures r in Span(|rows|, n) + chain
  {
    if r >= |rows| {
      assert Span(|rows|, n)[r - |rows|] == r;
    } else {
      assert rows[r].Free?;
    }
  }

  lemma ChainGrowIs(rows: seq<Row>, head: int, chain: seq<nat>, n: nat)
    requires ChainIs(rows, head, chain) && n > 0
    ensures ChainIs(rows + FreshRows(|rows|, n, head), |rows|, Span(|rows|, n) + chain)
  {
    var rows', chain' := rows + FreshRows(|rows|, n, head), Span(|rows|, n) + chain;
    forall i | 0 <= i < |chain'|
      ensures chain'[i] < |rows'| && rows'[chain'[i]].Free? && rows'[chain'[i]].next == After(chain', i)
      ensures chain'[i] == if i < n then |rows| + i else chain[i - n]
    {
      ChainGrowLinks(rows, head, chain, n, i);
    }
    forall r: nat | r < |rows'| && rows'[r].Free?
      ensures r in chain'
    {
      ChainGrowFree(rows, head, chain, n, r);
    }
  }

  lemma ChainGrow(rows: seq<Row>, head: int, chain: seq<nat>, n: nat)
    requires ChainOk(rows, head, chain) && n > 0
    ensures ChainOk(rows + FreshRows(|rows|, n, head), |rows|, Span(|rows|, n) + chain)
  {
    assert OpenChain(Key);
    ChainGrowIs(rows, head, chain, n);
  }

  /** One bucket that held row r has become a tombstone. */
  ghost predicate Buried(ht: seq<int>, ht': seq<int>, b: int, r: nat) { 0 <= b < |ht| && ht[b] == r && ht' == ht[b := TOMB] }

  /** The size a table is shrunk to. */
  function ShrunkCap(live: nat, cap: nat): nat { if live == 0 || cap / 2 < HT_INITIAL then HT_INITIAL else cap / 2 }

  /** At most a quarter of the table in use and at least a tenth tombstones. */
  predicate ShrinkDue(live: nat, cap: nat, tombs: nat)
  {
    cap > HT_INITIAL && tombs > 0 && (live == 0 || live * 100 <= cap * 25) && tombs * 100 >= cap * 10
  }

  /** Placing row r at the bucket its probe found keeps every other row and reaches r. */
  lemma PlaceRow(rows: seq<Row>, ht: seq<int>, hash: string -> nat, max: nat, r: nat, j: nat, b: nat, but: int)
    requires ReachBut(rows, ht, hash, max, but) && r < |rows| && rows[r].Used? && (but == NO_ROW || but == r)
    requires j < |ht| && b == Bucket(hash(KeyOf(rows[r].value.name, max)), j, |ht|) && ht[b] < 0
    requires forall i: nat :: i < j ==> ht[Bucket(hash(KeyOf(rows[r].value.name, max)), i, |ht|)] >= 0
    ensures Reach(rows, ht[b := r], hash, max)
  {
    PathNew(ht, hash(KeyOf(rows[r].value.name, max)), r, j);
    forall q: nat | q < |rows| && rows[q].Used?
      ensures OnPath(ht[b := r], hash(KeyOf(rows[q].value.name, max)), q)
    {
      if q != r {
        PathKept(ht, ht[b := r], hash(KeyOf(rows[q].value.name, max)), q);
      }
    }
  }

  /** A tombstone over a bucket that holds r can only hurt r. */
  lemma RemoveRow(rows: seq<Row>, ht: seq<int>, hash: string -> nat, max: nat, r: nat, b: nat)
    requires Reach(rows, ht, hash, max) && b < |ht| && ht[b] == r
    ensures ReachBut(rows, ht[b := TOMB], hash, max, r)
  {
    forall q: nat | q < |rows| && rows[q].Used? && q != r
      ensures OnPath(ht[b := TOMB], hash(KeyOf(rows[q].value.name, max)), q)
    {
      PathKept(ht, ht[b := TOMB], hash(KeyOf(rows[q].value.name, max)), q);
    }
  }

  datatype Option<T> = None | Some(value: T)

  /** A row number and generation, narrowed to 32 and 16 bits. */
  datatype Token = Token(row: nat, gen: nat)

  const ROW_WRAP: nat := 0x1_0000_0000
  const GEN_WRAP: nat := 0x1_0000
  const ROW_INVALID: nat := 0xffff_ffff
  const NO_TOKEN: Token := Token(ROW_INVALID, 0)

  function TokenOf(rows: seq<Row>, r: nat): Token
    requires r < |rows|
  {
    Token(r % ROW_WRAP, rows[r].gen % GEN_WRAP)
  }

  /** What the names stand for: the admitted value whose row has the name. */
  ghost function Find(rows: seq<Row>, max: nat, name: string, admits: Value -> bool): Option<Value>
  {
    if exists r: nat :: Named(rows, max, KeyOf(name, max), r)
    then var r: nat :| Named(rows, max, KeyOf(name, max), r); if admits(rows[r].value) then Some(rows[r].value) else None
    else None
  }

  lemma FindIs(rows: seq<Row>, max: nat, name: string, admits: Value -> bool, r: nat)
    requires Named(rows, max, KeyOf(name, max), r)
    ensures Unique(rows, max) ==> Find(rows, max, name, admits) == if admits(rows[r].value) then Some(rows[r].value) else None
  {
  }

  /** Names as a map: registering a new name adds that name only, and names stay unique. */
  lemma FindAfterRegister(rows: seq<Row>, rows': seq<Row>, max: nat, row: nat, value: Value, name: string, admits: Value -> bool)
    requires Unique(rows, max) && row !in Registered(rows) && Registered(rows') == Registered(rows)[row := value]
    requires forall r: nat :: !Named(rows, max, KeyOf(value.name, max), r)
    ensures Unique(rows', max)
    ensures Find(rows', max, name, admits)
            == if KeyOf(name, max) == KeyOf(value.name, max) then (if admits(value) then Some(value) else None) else Find(rows, max, name, admits)
  {
    forall r: nat
      ensures Named(rows', max, KeyOf(name, max), r) <==>
                if r == row then KeyOf(value.name, max) == KeyOf(name, max) else Named(rows, max, KeyOf(name, max), r)
    {
      RowRegistered(rows, r);
      RowRegistered(rows', r);
    }
    forall r: nat, q: nat | r < |rows'| && q < |rows'| && r != q && rows'[r].Used? && rows'[q].Used?
      ensures KeyOf(rows'[r].value.name, max) != KeyOf(rows'[q].value.name, max)
    {
      RowRegistered(rows, r);
      RowRegistered(rows', r);
      RowRegistered(rows, q);
      RowRegistered(rows', q);
      assert r == row ==> !Named(rows, max, KeyOf(value.name, max), q);
      assert q == row ==> !Named(rows, max, KeyOf(value.name, max), r);
    }
    RowRegistered(rows', row);
    if KeyOf(name, max) == KeyOf(value.name, max) {
      FindIs(rows', max, name, admits, row);
    } else if r: nat :| Named(rows, max, KeyOf(name, max), r) {
      RowRegistered(rows, r);
      RowRegistered(rows', r);
      FindIs(rows, max, name, admits, r);
      FindIs(rows', max, name, admits, r);
    }
  }

  /** Unregistering takes away that name only. */
  lemma FindAfterUnregister(rows: seq<Row>, rows': seq<Row>, max: nat, row: nat, name: string, admits: Value -> bool)
    requires Unique(rows, max) && row in Registered(rows) && Registered(rows') == Registered(rows) - {row}
    ensures Unique(rows', max)
    ensures Find(rows', max, name, admits)
            == if KeyOf(name, max) == KeyOf(Registered(rows)[row].name, max) then None else Find(rows, max, name, admits)
  {
    forall r: nat
      ensures Named(rows', max, KeyOf(name, max), r) <==> r != row && Named(rows, max, KeyOf(name, max), r)
    {
      RowRegistered(rows, r);
      RowRegistered(rows', r);
    }
    forall r: nat, q: nat | r < |rows'| && q < |rows'| && r != q && rows'[r].Used? && rows'[q].Used?
      ensures KeyOf(rows'[r].value.name, max) != KeyOf(rows'[q].value.name, max)
    {
      RowRegistered(rows, r);
      RowRegistered(rows', r);
      RowRegistered(rows, q);
      RowRegistered(rows', q);
    }
    if r: nat :| Named(rows, max, KeyOf(name, max), r) {
      FindIs(rows, max, name, admits, r);
      RowRegistered(rows, r);
      RowRegistered(rows', r);
      if r != row {
        FindIs(rows', max, name, admits, r);
      }
    }
  }

  lemma RowRegistered(rows: seq<Row>, r: nat)
    ensures r in Registered(rows) <==> r < |rows| && rows[r].Used?
    ensures r in Registered(rows) ==> Registered(rows)[r] == rows[r].value
  {
  }

  class NameIndex {
    const hash: string -> nat
    const maxLen: nat
    var rows: seq<Row>
    var freeHead: int
    var live: nat
    var ht: seq<int>
    var tombs: nat
    ghost var chain: seq<nat>

    /** Between operations. */
    ghost predicate Valid()
      reads this
    {
      && TableOk(rows, ht, tombs, live) && Reach(rows, ht, hash, maxLen)
      && ChainOk(rows, freeHead, chain) && Loaded(live, |ht|)
    }

    constructor (hash: string -> nat, maxLen: nat)
      ensures Valid() && rows == [] && this.hash == hash && this.maxLen == maxLen
    {
      this.hash, this.maxLen := hash, maxLen;
      rows, freeHead, live, ht, tombs, chain := [], NO_ROW, 0, [], 0, [];
    }

    /** A new table with every used row placed anew; it always has room for them. */
    method Rehash(newCap: nat, memOk: bool) returns (ok: bool)
      requires PowerOfTwo(newCap) && live == UsedRows(rows) <= newCap
      modifies this`ht, this`tombs
      ensures ok == memOk
      ensures !ok ==> ht == old(ht) && tombs == old(tombs)
      ensures ok ==> |ht| == newCap && TableOk(rows, ht, tombs, live) && Reach(rows, ht, hash, maxLen) && Count(ht, EMPTY) == newCap - live && tombs == 0
    {
      if !memOk {
        return false;
      }
      var table := seq(newCap, _ => EMPTY);
      CountFresh(newCap, EMPTY);
      CountFresh(newCap, TOMB);
      var r := 0;
      while r < |rows|
        invariant 0 <= r <= |rows| && |table| == newCap && rows[..|rows|] == rows
        invariant forall b :: 0 <= b < |table| ==> EMPTY <= table[b] < |rows|
        invariant Count(table, EMPTY) == newCap - UsedRows(rows[..r]) && Count(table, TOMB) == 0
        invariant Reach(rows[..r], table, hash, maxLen)
      {
        UsedPrefix(rows, r + 1);
        assert rows[..r + 1][..r] == rows[..r];
        if rows[r].Used? {
          var h := hash(KeyOf(rows[r].value.name, maxLen));
          ghost var b := CountSome(table, EMPTY);
          var placed, bucket, j := FirstFree(table, h);
          if !placed {
            // the error path for a table without room is never taken
            assert false;
          }
          ReachMore(rows, table, hash, maxLen, r);
          PlaceRow(rows[..r + 1], table, hash, maxLen, r, j, bucket, r);
          CountUpdate(table, EMPTY, bucket, r);
          CountUpdate(table, TOMB, bucket, r);
          table := table[bucket := r];
        } else {
          ReachMore(rows, table, hash, maxLen, r);
        }
        r := r + 1;
      }
      ht, tombs := table, 0;
      return true;
    }

    /** Before an insertion: room for one more by the load rule. */
    method MaybeGrow(ghost r: nat, memOk: bool) returns (ok: bool)
      requires TableOk(rows, ht, tombs, live) && ReachBut(rows, ht, hash, maxLen, r) && live > 0 && Loaded(live - 1, |ht|)
      modifies this`ht, this`tombs
      ensures TableOk(rows, ht, tombs, live) && ReachBut(rows, ht, hash, maxLen, r)
      ensures ok ==> |ht| > 0 && Loaded(live, |ht|)
      ensures ok <==> memOk || (|old(ht)| > 0 && Loaded(live, |old(ht)|))
      ensures ok ==> if |old(ht)| > 0 && Loaded(live, |old(ht)|) then ht == old(ht) else HasRoom(ht)
      ensures !ok ==> ht == old(ht) && tombs == old(tombs)
    {
      if |ht| == 0 {
        InitialPower();
        ok := Rehash(HT_INITIAL, memOk);
      } else if live * 100 <= |ht| * 70 {
        return true;
      } else {
        ok := Rehash(|ht| * 2, memOk);
      }
      if ok {
        ghost var b := CountSome(ht, EMPTY);
      }
    }

    /** name_index_ht_insert; it calls itself at most once, because the new table has room. */
    method HtInsert(r: nat, memOk: bool) returns (ok: bool)
      requires r < |rows| && rows[r].Used? && live > 0 && Loaded(live - 1, |ht|)
      requires TableOk(rows, ht, tombs, live) && ReachBut(rows, ht, hash, maxLen, r)
      modifies this`ht, this`tombs
      ensures TableOk(rows, ht, tombs, live)
      ensures ok ==> Reach(rows, ht, hash, maxLen) && Loaded(live, |ht|)
      ensures !ok ==> ReachBut(rows, ht, hash, maxLen, r) && Loaded(live - 1, |ht|)
      ensures ok <==> memOk || (|old(ht)| > 0 && Loaded(live, |old(ht)|) && HasRoom(old(ht)))
      decreases if HasRoom(ht) then 0 else 1
    {
      ok := MaybeGrow(r, memOk);
      if !ok {
        return;
      }
      var found, b, j := FirstFree(ht, hash(KeyOf(rows[r].value.name, maxLen)));
      if found {
        PlaceRow(rows, ht, hash, maxLen, r, j, b, r);
        CountUpdate(ht, TOMB, b, r);
        if ht[b] == TOMB && tombs > 0 {
          tombs := tombs - 1;
        }
        ht := ht[b := r];
        return true;
      }
      ok := Rehash(|ht| * 2, memOk);
      if !ok {
        return;
      }
      ghost var e := CountSome(ht, EMPTY);
      ok := HtInsert(r, memOk);
    }

    /** name_index_ht_remove: the first bucket on the path that holds r becomes a tombstone. */
    method HtRemove(r: nat, name: string)
      requires TableOk(rows, ht, tombs, live) && Reach(rows, ht, hash, maxLen)
      modifies this`ht, this`tombs
      ensures TableOk(rows, ht, tombs, live) && ReachBut(rows, ht, hash, maxLen, r) && |ht| == |old(ht)|
      ensures OnPath(old(ht), hash(KeyOf(name, maxLen)), r) ==> exists b :: Buried(old(ht), ht, b, r)
      ensures !OnPath(old(ht), hash(KeyOf(name, maxLen)), r) ==> ht == old(ht)
    {
      var h := hash(KeyOf(name, maxLen));
      var probe := 0;
      while probe < |ht|
        invariant 0 <= probe <= |ht| && ht == old(ht) && tombs == old(tombs)
        invariant forall i: nat :: i < probe ==> ht[Bucket(h, i, |ht|)] != EMPTY && ht[Bucket(h, i, |ht|)] != r
      {
        var b := Bucket(h, probe, |ht|);
        if ht[b] == EMPTY {
          PathBefore(ht, h, r, probe);
          return;
        }
        if ht[b] == r {
          RemoveRow(rows, ht, hash, maxLen, r, b);
          CountUpdate(ht, TOMB, b, TOMB);
          assert OnPathAt(ht, h, r, probe);
          ht, tombs := ht[b := TOMB], tombs + 1;
          assert Buried(old(ht), ht, b, r);
          return;
        }
        probe := probe + 1;
      }
      PathBefore(ht, h, r, probe);
    }

    /** A smaller table if few rows and many tombstones are left, and memory allows. */
    method MaybeShrink(memOk: bool)
      requires Valid()
      modifies this`ht, this`tombs
      ensures Valid()
      ensures |ht| == if memOk && ShrinkDue(live, |old(ht)|, old(tombs)) then ShrunkCap(live, |old(ht)|) else |old(ht)|
      ensures |ht| < |old(ht)| ==> tombs == 0
      ensures |ht| == |old(ht)| ==> ht == old(ht) && tombs == old(tombs)
    {
      if |ht| <= HT_INITIAL || tombs == 0 {
        return;
      }
      var target := HT_INITIAL;
      if live != 0 {
        if live * 100 > |ht| * 25 {
          return;
        }
        target := if |ht| / 2 < HT_INITIAL then HT_INITIAL else |ht| / 2;
      }
      if tombs * 100 < |ht| * 10 || target == |ht| {
        return;
      }
      InitialPower();
      var _ := Rehash(target, memOk);
    }

    /** Twice as many rows, the new ones in front of the free list. */
    method GrowRows(memOk: bool) returns (ok: bool)
      requires Valid()
      modifies this`rows, this`freeHead, this`chain
      ensures Valid() && ok == memOk
      ensures ok ==> chain != [] && |rows| > |old(rows)| && rows[..|old(rows)|] == old(rows) && Registered(rows) == old(Registered(rows))
      ensures !ok ==> rows == old(rows)
    {
      if !memOk {
        return false;
      }
      var n := if rows == [] then ROWS_INITIAL else |rows|;
      ChainGrow(rows, freeHead, chain, n);
      UsedGrown(rows, FreshRows(|rows|, n, freeHead));
      RegisteredGrown(rows, FreshRows(|rows|, n, freeHead));
      chain := Span(|rows|, n) + chain;
      rows, freeHead := rows + FreshRows(|rows|, n, freeHead), |rows|;
      return true;
    }

    /** name_index_search. */
    method Search(name: string) returns (found: bool, row: nat)
      requires Valid()
      ensures found <==> exists r: nat :: Named(rows, maxLen, KeyOf(name, maxLen), r)
      ensures found ==> Named(rows, maxLen, KeyOf(name, maxLen), row)
      ensures Unique(rows, maxLen) && found ==> forall r: nat :: Named(rows, maxLen, KeyOf(name, maxLen), r) ==> r == row
    {
      found, row := false, 0;
      var h := hash(KeyOf(name, maxLen));
      var probe := 0;
      while probe < |ht|
        invariant 0 <= probe <= |ht|
        invariant forall i: nat :: i < probe ==> ht[Bucket(h, i, |ht|)] != EMPTY
        invariant forall i: nat :: i < probe && ht[Bucket(h, i, |ht|)] >= 0 ==> !Named(rows, maxLen, KeyOf(name, maxLen), ht[Bucket(h, i, |ht|)])
      {
        var cur := ht[Bucket(h, probe, |ht|)];
        if cur == EMPTY {
          NotOnPath(rows, ht, hash, maxLen, KeyOf(name, maxLen), probe);
          return;
        }
        if cur != TOMB && cur < |rows| && rows[cur].Used? && KeyOf(rows[cur].value.name, maxLen) == KeyOf(name, maxLen) {
          assert Named(rows, maxLen, KeyOf(name, maxLen), cur);
          return true, cur;
        }
        probe := probe + 1;
      }
      NotOnPath(rows, ht, hash, maxLen, KeyOf(name, maxLen), probe);
    }

    /** name_index_register. */
    method Register(value: Value, rowsOk: bool, tableOk: bool) returns (err: Error, row: nat)
      requires Valid()
      modifies this
      ensures Valid()
      ensures err == InParam <==> value.name == ""
      // rows are allocated if none is free, and a table if there is none or it is too full
      ensures err == Success <==> && value.name != "" && (old(freeHead) == NO_ROW ==> rowsOk)
                                  && (old(rows) == [] || !TakesOne(old(live), old(ht)) ==> tableOk)
      ensures err == Success ==> row !in old(Registered(rows)) && Registered(rows) == old(Registered(rows))[row := value]
      ensures err != Success ==> Registered(rows) == old(Registered(rows))
      ensures |rows| >= |old(rows)| && forall r :: 0 <= r < |old(rows)| ==> rows[r].gen == old(rows)[r].gen
    {
      row := 0;
      if value.name == "" {
        return InParam, 0;
      }
      if rows == [] {
        var grown := GrowRows(rowsOk);
        if !grown {
          return Fail, 0;
        }
        InitialPower();
        var made := Rehash(HT_INITIAL, tableOk);
        if !made {
          return Fail, 0;
        }
      }
      if freeHead == NO_ROW {
        var grown := GrowRows(rowsOk);
        if !grown {
          return Fail, 0;
        }
      }
      // the checks that the head of the free list is a free row always pass
      assert freeHead == chain[0] && rows[chain[0]].Free?;
      row := freeHead;
      err := Occupy(row, value, tableOk);
    }

    /** The first free row gets the value; it is not in the table yet. */
    method TakeRow(row: nat, value: Value)
      requires Valid() && chain != [] && row == chain[0] && row < |rows| && rows[row].Free?
      modifies this`rows, this`freeHead, this`live, this`chain
      ensures TableOk(rows, ht, tombs, live) && ReachBut(rows, ht, hash, maxLen, row) && ChainOk(rows, freeHead, chain)
      ensures live == old(live) + 1 && rows == old(rows)[row := Used(old(rows)[row].gen, value)]
      ensures row !in old(Registered(rows)) && Registered(rows) == old(Registered(rows))[row := value]
    {
      var gen := rows[row].gen;
      ChainPop(rows, freeHead, chain, Used(gen, value));
      UsedUpdate(rows, row, Used(gen, value));
      RegisteredUpdate(rows, row, Used(gen, value));
      freeHead, chain := rows[row].next, chain[1..];
      rows, live := rows[row := Used(gen, value)], live + 1;
    }

    /** Takes the first free row and enters it into the table, or puts it back. */
    method Occupy(row: nat, value: Value, tableOk: bool) returns (err: Error)
      requires Valid() && chain != [] && row == chain[0] && row < |rows| && rows[row].Free?
      modifies this
      ensures Valid() && err in {Success, Fail} && (err == Success <==> tableOk || TakesOne(old(live), old(ht)))
      ensures err == Success ==> Registered(rows) == old(Registered(rows))[row := value]
      ensures err != Success ==> Registered(rows) == old(Registered(rows))
      ensures |rows| == |old(rows)| && forall r :: 0 <= r < |old(rows)| ==> rows[r].gen == old(rows)[r].gen
    {
      var gen := rows[row].gen;
      TakeRow(row, value);
      ghost var was := old(Registered(rows));
      assert was[row := value] - {row} == was;
      var ok := HtInsert(row, tableOk);
      if !ok {
        FreeRow(row, gen);
        return Fail;
      }
      return Success;
    }

    /** Puts a used row back in front of the free list. */
    method FreeRow(row: nat, gen: nat)
      requires row < |rows| && rows[row].Used? && TableOk(rows, ht, tombs, live) && ReachBut(rows, ht, hash, maxLen, row)
      requires ChainOk(rows, freeHead, chain) && live > 0 && Loaded(live - 1, |ht|)
      modifies this`rows, this`freeHead, this`live, this`chain
      ensures Valid() && Registered(rows) == old(Registered(rows)) - {row} && |rows| == |old(rows)|
      ensures forall r :: 0 <= r < |rows| ==> rows[r].gen == if r == row then gen else old(rows)[r].gen
    {
      ChainPush(rows, freeHead, chain, row, gen);
      UsedUpdate(rows, row, Free(gen, freeHead));
      RegisteredUpdate(rows, row, Free(gen, freeHead));
      rows, live := rows[row := Free(gen, freeHead)], live - 1;
      freeHead, chain := row, [row] + chain;
    }

    /** name_index_unregister, and name_index_register_abort with the value's own name. */
    method Unregister(value: Value, row: nat, name: string)
      requires Valid()
      modifies this
      ensures Valid()
      ensures var there := row in old(Registered(rows)) && old(Registered(rows))[row] == value;
              && Registered(rows) == (if there then old(Registered(rows)) - {row} else old(Registered(rows)))
              && |rows| == |old(rows)|
              && forall r :: 0 <= r < |rows| ==> rows[r].gen == old(rows)[r].gen + (if there && r == row then 1 else 0)
    {
      if row >= |rows| || rows[row].Free? || rows[row].value != value {
        return;
      }
      HtRemove(row, name);
      UsedUpdate(rows, row, Free(0, NO_ROW));
      FreeRow(row, rows[row].gen + 1);
      var memOk: bool := *;
      MaybeShrink(memOk);
    }

    /** name_index_lookup; `admits` is what the hold and lookup hooks say about a value. */
    method Lookup(name: string, admits: Value -> bool) returns (r: Option<Value>, token: Token)
      requires Valid()
      ensures Unique(rows, maxLen) ==> r == Find(rows, maxLen, name, admits)
      ensures r.Some? ==> exists q: nat :: Named(rows, maxLen, KeyOf(name, maxLen), q) && token == TokenOf(rows, q)
    {
      r, token := None, NO_TOKEN;
      var found, row := Search(name);
      if found {
        FindIs(rows, maxLen, name, admits, row);
        token := TokenOf(rows, row);
        if admits(rows[row].value) {
          r := Some(rows[row].value);
        }
      }
    }

    /** name_index_resolve: any token is safe, because the row's own name is compared. */
    method Resolve(token: Token, name: string, admits: Value -> bool) returns (r: Option<Value>)
      requires Valid()
      ensures r.Some? && Unique(rows, maxLen) ==> r == Find(rows, maxLen, name, admits)
      ensures r.Some? <==> && token.row != ROW_INVALID && Named(rows, maxLen, KeyOf(name, maxLen), token.row)
                           && rows[token.row].gen % GEN_WRAP == token.gen && admits(rows[token.row].value)
    {
      if token.row == ROW_INVALID || token.row >= |rows| || rows[token.row].Free? {
        return None;
      }
      var row := rows[token.row];
      if row.gen % GEN_WRAP != token.gen || KeyOf(row.value.name, maxLen) != KeyOf(name, maxLen) || !admits(row.value) {
        return None;
      }
      FindIs(rows, maxLen, name, admits, token.row);
      return Some(row.value);
    }
  }

  /** A row that the probe has not met before an empty bucket does not have the name. */
  lemma NotOnPath(rows: seq<Row>, ht: seq<int>, hash: string -> nat, max: nat, key: string, probe: nat)
    requires Reach(rows, ht, hash, max) && probe <= |ht|
    requires probe < |ht| ==> ht[Bucket(hash(key), probe, |ht|)] == EMPTY
    requires forall i: nat :: i < probe && ht[Bucket(hash(key), i, |ht|)] >= 0 ==> !Named(rows, max, key, ht[Bucket(hash(key), i, |ht|)])
    ensures forall r: nat :: !Named(rows, max, key, r)
  {
    forall r: nat
      ensures !Named(rows, max, key, r)
    {
      PathBefore(ht, hash(key), r, probe);
    }
  }

  /** The table takes one more row than `live` as it is. */
  ghost predicate TakesOne(live: nat, ht: seq<int>) { |ht| > 0 && Loaded(live + 1, |ht|) && HasRoom(ht) }

  ghost predicate HasRoom(ht: seq<int>) { exists b :: 0 <= b < |ht| && ht[b] < 0 }

  lemma ReachMore(rows: seq<Row>, ht: seq<int>, hash: string -> nat, max: nat, r: nat)
    requires r < |rows| && Reach(rows[..r], ht, hash, max)
    ensures ReachBut(rows[..r + 1], ht, hash, max, r)
  {
    var more := rows[..r + 1];
    forall q: nat | q < |more| && more[q].Used? && q != r
      ensures OnPath(ht, hash(KeyOf(more[q].value.name, max)), q)
    {
      assert rows[..r][q] == rows[q];
    }
  }
}
