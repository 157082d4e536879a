/**
 * CCdpMemCache and CCdpDBCache, as far as their state shape goes.
 *
 * The memory cache is a std::map from CUserCDP to a one-byte flag (0 valid,
 * 1 invalid) plus two running totals and two links: to a base layer and to
 * the durable store. Because std::map identifies keys by `operator<`, and
 * `operator<` reads only the ranking triple, the index here is keyed by
 * `RankKey` and each entry keeps the record stored under that key.
 */
module CdpCache {
  import opened Ids
  import opened CdpRecord
  import opened CdpRanking

  /** The entry flag: Live is the byte 0 (valid), Tombstone the byte 1 (invalid). */
  datatype Flag = Live | Tombstone

  datatype Entry = Entry(cdp: Cdp, flag: Flag)

  type Index = map<RankKey, Entry>

  /** Every entry is stored under its own record's ranking triple. */
  ghost predicate KeysMatch(m: Index) {
    forall k :: k in m ==> m[k].cdp.Key() == k
  }

  ghost function LiveKeys(m: Index): set<RankKey> {
    set k | k in m && m[k].flag == Live
  }

  /** Two triples name the same position: same owner, same CDP txid. */
  predicate SamePosition(a: RankKey, b: RankKey) {
    a.owner == b.owner && a.txId == b.txId
  }

  /** No position has two live ranking entries (no stale entry is visible). */
  ghost predicate OneLivePerPosition(m: Index) {
    forall a, b :: a in LiveKeys(m) && b in LiveKeys(m) && SamePosition(a, b) ==> a == b
  }

  /**
   * The usage rule of SaveCdp: the position of `c` has no live entry other
   * than under `c`'s own triple, which is what erasing the old record before
   * saving the modified one guarantees.
   */
  ghost predicate NoOtherLiveEntry(m: Index, c: Cdp) {
    forall k :: k in LiveKeys(m) && SamePosition(k, c.Key()) ==> k == c.Key()
  }

  /** The index after SaveCdp(c): c is stored live under its triple. */
  function Saved(m: Index, c: Cdp): (r: Index)
    ensures r.Keys == m.Keys + {c.Key()}
    ensures r[c.Key()] == Entry(c, Live)
    ensures LiveKeys(r) == LiveKeys(m) + {c.Key()}
    ensures forall k :: k in m && k != c.Key() ==> r[k] == m[k]
    ensures KeysMatch(m) ==> KeysMatch(r)
  {
    var r := m[c.Key() := Entry(c, Live)];
    assert LiveKeys(r) == LiveKeys(m) + {c.Key()};
    r
  }

  /**
   * The index after EraseCdp(c): c's triple stays in the index as a
   * tombstone, so that a base layer's entry for it is shadowed.
   */
  function Erased(m: Index, c: Cdp): (r: Index)
    ensures r.Keys == m.Keys + {c.Key()}
    ensures c.Key() in r && r[c.Key()] == Entry(c, Tombstone)
    ensures LiveKeys(r) == LiveKeys(m) - {c.Key()}
    ensures forall k :: k in m && k != c.Key() ==> r[k] == m[k]
    ensures KeysMatch(m) ==> KeysMatch(r)
    ensures OneLivePerPosition(m) ==> OneLivePerPosition(r)
  {
    var r := m[c.Key() := Entry(c, Tombstone)];
    assert LiveKeys(r) == LiveKeys(m) - {c.Key()};
    r
  }

  /** Saving the same record twice leaves the index as saving it once. */
  lemma SaveIsIdempotent(m: Index, c: Cdp)
    ensures Saved(Saved(m, c), c) == Saved(m, c)
  {
  }

  /** Under the usage rule, saving keeps one live entry per position. */
  lemma SaveKeepsOneLive(m: Index, c: Cdp)
    requires OneLivePerPosition(m) && NoOtherLiveEntry(m, c)
    ensures OneLivePerPosition(Saved(m, c))
  {
    var r := Saved(m, c);
    forall a, b | a in LiveKeys(r) && b in LiveKeys(r) && SamePosition(a, b)
      ensures a == b
    {
      if a == c.Key() || b == c.Key() {
        assert a == c.Key() && b == c.Key();
      }
    }
  }

  /**
   * Erase the old record, then save the modified one: the old triple is no
   * longer live, the new one is, and the position still has a single live
   * ranking entry.
   */
  lemma EraseThenSave(m: Index, before: Cdp, after: Cdp)
    requires OneLivePerPosition(m)
    requires SamePosition(before.Key(), after.Key())
    requires NoOtherLiveEntry(m, before)
    ensures NoOtherLiveEntry(Erased(m, before), after)
    ensures OneLivePerPosition(Saved(Erased(m, before), after))
    ensures LiveKeys(Saved(Erased(m, before), after)) == LiveKeys(m) - {before.Key()} + {after.Key()}
    ensures before.Key() != after.Key() ==>
              Saved(Erased(m, before), after)[before.Key()].flag == Tombstone
  {
    var e := Erased(m, before);
    assert forall k :: k in LiveKeys(e) ==> k in LiveKeys(m) && k != before.Key();
    SaveKeepsOneLive(e, after);
  }

  /**
   * Saving a modified record without erasing the old one leaves the stale
   * entry live beside the new one: the position is ranked twice.
   */
  lemma SaveWithoutEraseLeavesStaleEntry(m: Index, before: Cdp, after: Cdp)
    requires before.Key() in LiveKeys(m)
    requires SamePosition(before.Key(), after.Key())
    requires before.ratio != after.ratio
    ensures before.Key() in LiveKeys(Saved(m, after))
    ensures after.Key() in LiveKeys(Saved(m, after))
    ensures !OneLivePerPosition(Saved(m, after))
  {
    assert before.Key() != after.Key();
  }

  /**
   * A restake on a fresh position: 1000 staked against 500 owed at height 10
   * ranks at ratio 2; staking 500 more at height 20 moves it to ratio 3, and
   * after erase-then-save only the height-20 record is live.
   */
  lemma RestakeMovesTheRankingEntry(owner: RegId, txId: TxId)
    ensures Decode(Wire(owner, txId, 10, 1000, 500)).ratio == 2.0
    ensures Decode(Wire(owner, txId, 20, 1500, 500)).ratio == 3.0
    ensures
      var first := Decode(Wire(owner, txId, 10, 1000, 500));
      var second := Decode(Wire(owner, txId, 20, 1500, 500));
      var m := Saved(Erased(Saved(map[], first), first), second);
      LiveKeys(m) == {second.Key()} && m[second.Key()].cdp.height == 20
  {
    var first := Decode(Wire(owner, txId, 10, 1000, 500));
    var second := Decode(Wire(owner, txId, 20, 1500, 500));
    assert LiveKeys(map[]) == {};
    assert first.Key() != second.Key();
  }

  // ---------------------------------------------------------------------
  // The objects

  /** CDBAccess: the durable store's accessor, outside this model. */
  class DbAccess {
    constructor () {}
  }

  /** CCdpMemCache. */
  class MemCache {
    var cdps: Index
    var totalStaked: Uint64
    var totalOwed: Uint64
    var base: MemCache?
    var access: DbAccess?

    ghost predicate Valid()
      reads this
    {
      KeysMatch(cdps) && OneLivePerPosition(cdps)
    }

    /** The live entries in the order a ranked scan of this layer visits them. */
    ghost function RankedLive(): (r: seq<RankKey>)
      reads this
      ensures Ascending(r)
      ensures forall k :: k in LiveKeys(cdps) <==> k in r
    {
      Ranked(LiveKeys(cdps))
    }

    constructor ()
      ensures Valid() && cdps == map[]
      ensures totalStaked == 0 && totalOwed == 0
      ensures base == null && access == null
    {
      cdps := map[];
      totalStaked, totalOwed := 0, 0;
      base, access := null, null;
    }

    /** CCdpMemCache(pBaseIn): an empty layer over `b`. */
    constructor WithBase(b: MemCache?)
      ensures Valid() && cdps == map[]
      ensures totalStaked == 0 && totalOwed == 0
      ensures base == b && access == null
    {
      cdps := map[];
      totalStaked, totalOwed := 0, 0;
      base, access := b, null;
    }

    /** CCdpMemCache(pAccessIn): the empty root layer over the durable store. */
    constructor WithAccess(a: DbAccess?)
      ensures Valid() && cdps == map[]
      ensures totalStaked == 0 && totalOwed == 0
      ensures base == null && access == a
    {
      cdps := map[];
      totalStaked, totalOwed := 0, 0;
      base, access := null, a;
    }

    /** The implicit copy constructor: every field, including both links. */
    constructor Copy(other: MemCache)
      requires other.Valid()
      ensures Valid() && cdps == other.cdps
      ensures totalStaked == other.totalStaked && totalOwed == other.totalOwed
      ensures base == other.base && access == other.access
    {
      cdps := other.cdps;
      totalStaked, totalOwed := other.totalStaked, other.totalOwed;
      base, access := other.base, other.access;
    }

    method SetBase(b: MemCache?)
      modifies this`base
      ensures base == b
    {
      base := b;
    }

    /**
     * SaveCdp: the record becomes a live entry under its triple. The caller
     * must already have erased the position's previous entry.
     */
    method SaveCdp(c: Cdp) returns (ok: bool)
      requires Valid()
      requires NoOtherLiveEntry(cdps, c)
      modifies this`cdps, this`totalStaked, this`totalOwed
      ensures Valid() && ok
      ensures cdps == Saved(old(cdps), c)
      ensures LiveKeys(cdps) == LiveKeys(old(cdps)) + {c.Key()}
      ensures c.Key() in RankedLive()
    {
      SaveKeepsOneLive(cdps, c);
      cdps := Saved(cdps, c);
      ok := true;
    }

    /** EraseCdp: the record's triple becomes a tombstone in this layer. */
    method EraseCdp(c: Cdp) returns (ok: bool)
      requires Valid()
      modifies this`cdps, this`totalStaked, this`totalOwed
      ensures Valid() && ok
      ensures cdps == Erased(old(cdps), c)
      ensures LiveKeys(cdps) == LiveKeys(old(cdps)) - {c.Key()}
      ensures c.Key() !in RankedLive()
    {
      cdps := Erased(cdps, c);
      ok := true;
    }
  }

  /**
   * CDBMultiValueCache, the durable record cache, reduced to what
   * SetBaseView touches: its link to a base layer and to the store.
   */
  class StoreCache {
    var base: StoreCache?
    var access: DbAccess?

    constructor ()
      ensures base == null && access == null
    {
      base, access := null, null;
    }

    constructor WithAccess(a: DbAccess?)
      ensures base == null && access == a
    {
      base, access := null, a;
    }

    constructor WithBase(b: StoreCache)
      ensures base == b && access == null
    {
      base, access := b, null;
    }

    method SetBase(b: StoreCache?)
      modifies this`base
      ensures base == b
    {
      base := b;
    }
  }

  /** CCdpDBCache: the durable record cache and the memory cache side by side. */
  class DbCache {
    var cdpCache: StoreCache
    var cdpMemCache: MemCache

    constructor ()
      ensures fresh(cdpCache) && fresh(cdpMemCache)
      ensures cdpCache.base == null && cdpCache.access == null
      ensures cdpMemCache.Valid() && cdpMemCache.cdps == map[]
      ensures cdpMemCache.base == null && cdpMemCache.access == null
      ensures cdpMemCache.totalStaked == 0 && cdpMemCache.totalOwed == 0
    {
      cdpCache := new StoreCache();
      cdpMemCache := new MemCache();
    }

    /** CCdpDBCache(pDbAccess): the root view, both caches over the store. */
    constructor WithAccess(a: DbAccess?)
      ensures fresh(cdpCache) && fresh(cdpMemCache)
      ensures cdpCache.base == null && cdpCache.access == a
      ensures cdpMemCache.Valid() && cdpMemCache.cdps == map[]
      ensures cdpMemCache.base == null && cdpMemCache.access == a
      ensures cdpMemCache.totalStaked == 0 && cdpMemCache.totalOwed == 0
    {
      cdpCache := new StoreCache.WithAccess(a);
      cdpMemCache := new MemCache.WithAccess(a);
    }

    /**
     * CCdpDBCache(pBaseIn) as written: `cdpMemCache(pBaseIn->cdpMemCache)`
     * passes an object where the layering constructor takes a pointer, so the
     * implicit copy constructor runs. The new memory cache is a copy of the
     * parent's, with the parent's own base, not a layer over it.
     */
    constructor CopyingParent(parent: DbCache)
      requires parent.cdpMemCache.Valid()
      ensures fresh(cdpCache) && fresh(cdpMemCache)
      ensures cdpCache.base == parent.cdpCache
      ensures cdpMemCache.Valid() && cdpMemCache.cdps == parent.cdpMemCache.cdps
      ensures cdpMemCache.base == parent.cdpMemCache.base
      ensures cdpMemCache.access == parent.cdpMemCache.access
      ensures cdpMemCache.totalStaked == parent.cdpMemCache.totalStaked
      ensures cdpMemCache.totalOwed == parent.cdpMemCache.totalOwed
    {
      cdpCache := new StoreCache.WithBase(parent.cdpCache);
      cdpMemCache := new MemCache.Copy(parent.cdpMemCache);
    }

    /**
     * CCdpDBCache(pBaseIn) as intended: both caches are empty layers over the
     * parent's, as SetBaseView would link them.
     */
    constructor Layered(parent: DbCache)
      ensures fresh(cdpCache) && fresh(cdpMemCache)
      ensures cdpCache.base == parent.cdpCache
      ensures cdpMemCache.Valid() && cdpMemCache.cdps == map[]
      ensures cdpMemCache.base == parent.cdpMemCache && cdpMemCache.access == null
      ensures cdpMemCache.totalStaked == 0 && cdpMemCache.totalOwed == 0
    {
      cdpCache := new StoreCache.WithBase(parent.cdpCache);
      cdpMemCache := new MemCache.WithBase(parent.cdpMemCache);
    }

    /** SetBaseView: each cache is re-linked to the parent's counterpart. */
    method SetBaseView(parent: DbCache)
      modifies cdpCache`base, cdpMemCache`base
      ensures cdpCache.base == parent.cdpCache
      ensures cdpMemCache.base == parent.cdpMemCache
    {
      cdpCache.SetBase(parent.cdpCache);
      cdpMemCache.SetBase(parent.cdpMemCache);
    }
  }

  /**
   * A root view holding one live position, and a view built from it by the
   * as-written constructor: the new memory cache already holds the parent's
   * entry and links past the parent to the parent's base (here, none).
   */
  method CopiedViewBypassesParent() returns (parent: DbCache, child: DbCache)
    ensures child.cdpMemCache.base != parent.cdpMemCache
    ensures child.cdpMemCache.cdps == parent.cdpMemCache.cdps
    ensures LiveKeys(child.cdpMemCache.cdps) != {}
  {
    var store := new DbAccess();
    parent := new DbCache.WithAccess(store);
    var c := Decode(Wire(RegId(1), TxId(1), 10, 1000, 500));
    var ok := parent.cdpMemCache.SaveCdp(c);
    child := new DbCache.CopyingParent(parent);
    assert c.Key() in LiveKeys(child.cdpMemCache.cdps);
  }
}
