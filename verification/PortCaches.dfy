/** thread.c: the per-thread cache of name-index tokens in front of the port table. */
module PortCaches {
  import opened NameIndexes

  const SLOTS: nat := 16
  const LRU_WRAP: nat := 0x1_0000

  /** A cached token with the hash of the name it was found under and a 16-bit time stamp. */
  datatype Slot = Slot(token: Token, nameHash: nat, lru: nat)

  const UNUSED: Slot := Slot(NO_TOKEN, 0, 0)

  predicate InUse(s: Slot) { s.token.row != ROW_INVALID }

  class PortCache {
    const hash: string -> nat
    var slots: seq<Slot>
    var count: nat
    var clock: nat
    /** The full clock value at the last touch of each slot. */
    ghost var touched: seq<nat>

    ghost predicate Valid()
      reads this
    {
      && |slots| == SLOTS && |touched| == SLOTS
      && forall i :: 0 <= i < SLOTS && InUse(slots[i]) ==> touched[i] <= clock && slots[i].lru == touched[i] % LRU_WRAP
    }

    /** Every slot in use has been touched within the last 65535 ticks. */
    ghost predicate Recent()
      reads this
      requires Valid()
    {
      forall i :: 0 <= i < SLOTS && InUse(slots[i]) ==> clock - touched[i] < LRU_WRAP
    }

    constructor (hash: string -> nat)
      ensures Valid() && clock == 0 && forall i :: 0 <= i < SLOTS ==> !InUse(slots[i])
    {
      this.hash := hash;
      slots, count, clock, touched := seq(SLOTS, _ => UNUSED), 0, 0, seq(SLOTS, _ => 0);
    }

    method Touch(i: nat)
      requires Valid() && i < SLOTS
      modifies this`slots, this`clock, this`touched
      ensures Valid()
      ensures InUse(old(slots)[i]) ==> slots == old(slots)[i := slots[i]] && slots[i].token == old(slots)[i].token && clock == old(clock) + 1
                                       && touched == old(touched)[i := clock]
      ensures !InUse(old(slots)[i]) ==> slots == old(slots) && clock == old(clock) && touched == old(touched)
    {
      if InUse(slots[i]) {
        clock := clock + 1;
        slots, touched := slots[i := slots[i].(lru := clock % LRU_WRAP)], touched[i := clock];
      }
    }

    method Evict(i: nat)
      requires Valid() && i < SLOTS
      modifies this`slots, this`count
      ensures Valid() && !InUse(slots[i]) && (InUse(old(slots)[i]) ==> slots == old(slots)[i := UNUSED])
    {
      if InUse(slots[i]) {
        slots := slots[i := UNUSED];
        count := if count > 0 then count - 1 else 0;
      }
    }

    method Fill(i: nat, name: string, token: Token)
      requires Valid() && i < SLOTS
      modifies this`slots, this`clock, this`touched
      ensures Valid() && clock == old(clock) + 1 && touched == old(touched)[i := clock]
      ensures slots == old(slots)[i := slots[i]] && slots[i].token == token
    {
      clock := clock + 1;
      slots, touched := slots[i := Slot(token, hash(name), clock % LRU_WRAP)], touched[i := clock];
    }

    /** Is slot i the least recently touched of those in use? */
    ghost predicate Oldest(i: nat)
      reads this
      requires Valid()
    {
      i < SLOTS && InUse(slots[i]) && forall j :: 0 <= j < SLOTS && InUse(slots[j]) ==> touched[i] <= touched[j]
    }

    /** The slot with the greatest modular age: the least recently touched one, if none is too old to tell. */
    method Victim() returns (found: bool, i: nat)
      requires Valid()
      ensures found <==> exists j :: 0 <= j < SLOTS && InUse(slots[j])
      ensures found ==> i < SLOTS && InUse(slots[i])
      ensures found && Recent() ==> Oldest(i)
    {
      found, i := false, 0;
      var best, j := 0, 0;
      while j < SLOTS
        invariant 0 <= j <= SLOTS
        invariant found <==> exists k :: 0 <= k < j && InUse(slots[k])
        invariant found ==> i < j && InUse(slots[i]) && best == Age(clock, slots[i].lru)
        invariant found ==> forall k :: 0 <= k < j && InUse(slots[k]) ==> Age(clock, slots[k].lru) <= best
      {
        if InUse(slots[j]) {
          var age := Age(clock, slots[j].lru);
          if !found || age > best {
            best, i, found := age, j, true;
          }
        }
        j := j + 1;
      }
      if Recent() {
        forall k | 0 <= k < SLOTS && InUse(slots[k])
          ensures Age(clock, slots[k].lru) == clock - touched[k]
        {
          AgeExact(clock, touched[k]);
        }
      }
    }

    /** thread_port_cache_lookup: whatever the slots hold, a hit is what the table says about the name. */
    method CacheLookup(index: NameIndex, name: string, admits: Value -> bool) returns (r: Option<Value>)
      requires Valid() && index.Valid()
      modifies this
      ensures Valid()
      ensures r.Some? && Unique(index.rows, index.maxLen) ==> r == Find(index.rows, index.maxLen, name, admits)
    {
      var i := 0;
      while i < SLOTS
        invariant 0 <= i <= SLOTS && Valid()
      {
        if InUse(slots[i]) && slots[i].nameHash == hash(name) {
          r := index.Resolve(slots[i].token, name, admits);
          if r.Some? {
            Touch(i);
            return;
          }
          Evict(i);
        }
        i := i + 1;
      }
      r := None;
    }

    /** thread_port_cache_record; `victim` is the slot in use that was given up for the new token, if any. */
    method Record(name: string, token: Token) returns (ghost victim: int)
      requires Valid()
      modifies this
      ensures Valid() && -1 <= victim < SLOTS
      ensures old(count) < SLOTS || (exists i :: 0 <= i < SLOTS && InUse(old(slots)[i])) ==> exists i :: 0 <= i < SLOTS && slots[i].token == token
      ensures victim >= 0 && old(Recent()) ==> old(Oldest(victim))
      ensures victim == -1 ==> forall i :: 0 <= i < SLOTS && InUse(old(slots)[i]) ==> slots[i].token == old(slots)[i].token
    {
      victim := -1;
      var i := 0;
      while i < SLOTS
        invariant 0 <= i <= SLOTS && slots == old(slots) && Valid() && clock == old(clock) && touched == old(touched)
      {
        if InUse(slots[i]) && slots[i].token == token {
          Touch(i);
          slots := slots[i := slots[i].(nameHash := hash(name))];
          assert slots[i].token == token;
          return;
        }
        i := i + 1;
      }
      if count < SLOTS {
        i := 0;
        while i < SLOTS
          invariant 0 <= i <= SLOTS && slots == old(slots) && Valid() && clock == old(clock) && touched == old(touched)
          invariant forall k :: 0 <= k < i ==> InUse(slots[k])
        {
          if !InUse(slots[i]) {
            Fill(i, name, token);
            assert slots[i].token == token;
            count := count + 1;
            return;
          }
          i := i + 1;
        }
      }
      var found;
      assert old(count) < SLOTS ==> InUse(slots[0]);
      found, i := Victim();
      if found {
        victim := i;
        Fill(i, name, token);
        assert slots[i].token == token;
      }
    }

    /** thread_lookup_port: the cache is transparent, whatever it holds and whatever was registered since. */
    method LookupPort(index: NameIndex, name: string, admits: Value -> bool) returns (r: Option<Value>)
      requires Valid() && index.Valid()
      modifies this
      ensures Valid()
      ensures Unique(index.rows, index.maxLen) ==> r == Find(index.rows, index.maxLen, name, admits)
    {
      r := CacheLookup(index, name, admits);
      if r.Some? {
        return;
      }
      var token;
      r, token := index.Lookup(name, admits);
      if r.Some? {
        ghost var _ := Record(name, token);
      }
    }
  }

  /** (u16)(clock - lru). */
  function Age(clock: nat, lru: nat): nat { (clock % LRU_WRAP + LRU_WRAP - lru % LRU_WRAP) % LRU_WRAP }

  lemma AgeExact(clock: nat, touched: nat)
    requires touched <= clock < touched + LRU_WRAP
    ensures Age(clock, touched % LRU_WRAP) == clock - touched
  {
  }
}
