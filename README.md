# CDP position record and its ranked memory index (WaykiChain `cdpdb.h`)

This project models the collateralized-debt-position (CDP) record `CUserCDP` of
WaykiChain's persistence layer, together with the state of the two caches that
hold it.

A CDP is a loan: the owner stakes base coins (`totalStakedBcoins`) and owes
stable coins (`totalOwedScoins`). The record also carries a derived,
memory-only `collateralRatioBase` (staked / owed). `operator<` orders records
by that ratio, then by owner register id, then by CDP transaction id. The
memory cache `CCdpMemCache` keeps every position in a `std::map<CUserCDP,
uint8_t>` under that order. As a result, "most under-collateralised first" is
just a walk over the map. Each entry has a flag byte: 0 means valid, 1 means
invalid (a tombstone).

Files:

- `ids.dfy` (module `Ids`): the fixed-width integers, and the identity types
  `RegId` (CRegID) and `TxId` (uint256). Each identity is represented by its
  rank in its own type's total order. The all-zero uint256 has rank 0.
- `cdp_record.dfy` (module `CdpRecord`):
  - the record's value `Cdp` and its ranking triple `RankKey`;
  - `operator<` (`KeyLess`, and `Less` on whole records) with its order
    properties;
  - the empty sentinel;
  - the serialised field list `Wire`, with `Encode`/`Decode`;
  - the mutable struct `UserCdp`, with its constructors, `SetEmpty` and the
    read hook.
- `cdp_ranking.dfy` (module `CdpRanking`): the order in which a map keyed by
  `operator<` is walked (`Ranked`), and what that order means for ranked
  scans.
- `cdp_cache.dfy` (module `CdpCache`):
  - the flagged index, and the effect of `SaveCdp`/`EraseCdp` on it;
  - the usage rule "erase the old record before saving the modified one";
  - the classes `MemCache` (CCdpMemCache), `StoreCache` (the durable record
    cache, reduced to its links) and `DbCache` (CCdpDBCache).

Modelling choices:

- The ratio is an exact `real`, computed only when `totalOwedScoins > 0`.
- Because `std::map` treats two keys as the same when neither is `<` the other,
  the index is keyed by `RankKey` (ratio, owner, txid). Two records that differ
  only in height or amounts therefore share one entry.
  `CdpRecord.LessIsStrictWeakOrder` proves that this equivalence is exactly
  equality of the triple.
- The inputs a caller supplies become parameters: the wire fields, the record
  to save or erase, the base layer.

## Model

| member | source | states |
|---|---|---|
| `CdpRecord.KeyLess` | src/persistence/cdpdb.h:41-50 | `operator<` on the ranking triple: a strictly smaller ratio always makes the triple smaller, a smaller triple never has a larger ratio, and no triple is smaller than itself |
| `CdpRecord.Less` | src/persistence/cdpdb.h:41-50 | `operator<` on whole records: a strictly smaller ratio makes the record smaller, a smaller record never has a larger ratio, and a record is never smaller than one with the same (ratio, owner, txid) |
| `CdpRecord.Cdp.IsEmpty` | src/persistence/cdpdb.h:82-84 | a record is empty when its txid is the least uint256 (all zero); a non-empty record's txid is above zero |
| `CdpRecord.Encode` | src/persistence/cdpdb.h:52-57 | the write side: for a record whose ratio was derived on read, the written fields alone give the ratio back (owed > 0 and ratio = staked / owed) |
| `CdpRecord.LessWhenRatiosDiffer` | src/persistence/cdpdb.h:41-50 | when the ratios differ, `a < b` holds exactly when `a`'s ratio is smaller; owner and txid are ignored |
| `CdpRecord.LessWhenOwnersDiffer` | src/persistence/cdpdb.h:42-46 | when the ratios are equal and the owners differ, `a < b` holds exactly when `a`'s owner is smaller |
| `CdpRecord.LessWithinOnePosition` | src/persistence/cdpdb.h:42-44 | when ratio and owner are equal, `a < b` holds exactly when `a`'s txid is smaller; `a < a` is false |
| `CdpRecord.KeyLessIrreflexive` | src/persistence/cdpdb.h:41-50 | no ranking triple is less than itself |
| `CdpRecord.KeyLessTransitive` | src/persistence/cdpdb.h:41-50 | `a < b` and `b < c` give `a < c` |
| `CdpRecord.KeyLessTrichotomous` | src/persistence/cdpdb.h:41-50 | for any two triples exactly one of `a < b`, `b < a`, `a == b` holds |
| `CdpRecord.KeyLessOrdersRatios` | src/persistence/cdpdb.h:41-50 | a smaller triple never has a larger ratio |
| `CdpRecord.LessIsStrictWeakOrder` | src/persistence/cdpdb.h:41-50 | on whole records `<` is irreflexive and transitive, and neither record is less than the other exactly when they share (ratio, owner, txid), which is the key identity the map at line 122 uses |
| `CdpRecord.RatioOrderIsCrossMultiplied` | src/persistence/cdpdb.h:59 | for records whose ratio was derived on read, the ratio order and equality agree with `staked_a * owed_b` versus `staked_b * owed_a` |
| `CdpRecord.IsEmptyDependsOnTxIdOnly` | src/persistence/cdpdb.h:82-84 | emptiness is "txid is the zero uint256"; records with equal txids agree on it whatever their height and amounts |
| `CdpRecord.Decode` | src/persistence/cdpdb.h:52-61 | a record read with owed > 0 holds ratio = staked / owed and re-encodes to exactly the wire fields it was read from |
| `CdpRecord.EncodeOmitsRatio` | src/persistence/cdpdb.h:28 | records that differ only in the memory-only ratio are written identically |
| `CdpRecord.DecodeAfterEncode` | src/persistence/cdpdb.h:52-61 | writing then reading a record with owed > 0 restores every persisted field and replaces the ratio by staked / owed; a record whose ratio was already derived comes back unchanged |
| `CdpRecord.UserCdp.constructor` | src/persistence/cdpdb.h:36 | the default record has height 0, zero staked and owed amounts and the zero txid, so it is empty |
| `CdpRecord.UserCdp.WithIds` | src/persistence/cdpdb.h:38-39 | the record stores the given owner and txid, has height 0 and zero amounts, and is empty exactly when the txid is zero |
| `CdpRecord.UserCdp.SetEmpty` | src/persistence/cdpdb.h:86-91 | txid, height, staked and owed become zero; owner and ratio are unchanged; the record is empty afterwards |
| `CdpRecord.UserCdp.Read` | src/persistence/cdpdb.h:52-61 | reading sets the five persisted fields from the wire in order, then sets ratio = staked / owed (owed > 0) |
| `CdpRanking.MinKey` | src/persistence/cdpdb.h:122 | a non-empty key set has a member below every other member under `operator<` |
| `CdpRanking.Ranked` | src/persistence/cdpdb.h:122 | the map's walk lists every key exactly once, in strictly ascending `operator<` order |
| `CdpRanking.RankedIsUnique` | src/persistence/cdpdb.h:122 | any strictly ascending listing of exactly the keys of a set is that walk; the scan order is fully determined by `operator<` |
| `CdpRanking.RankedRatiosAscend` | src/persistence/cdpdb.h:122 | the walk visits collateral ratios in non-decreasing order |
| `CdpRanking.FirstRankedIsMostUndercollateralised` | src/persistence/cdpdb.h:122 | the first key walked has a ratio no larger than any other key's |
| `CdpRanking.BelowThresholdIsPrefix` | src/persistence/cdpdb.h:116-117 | the keys with ratio below a threshold form a prefix of the walk, so a scan for them can stop at the first key at or above it |
| `CdpCache.Saved` | src/persistence/cdpdb.h:106 | after a save the entry under the record's triple is exactly that record, flagged live; its triple is added to the live set, and every other entry is unchanged |
| `CdpCache.Erased` | src/persistence/cdpdb.h:107 | after an erase the entry under the record's triple is exactly that record, flagged as a tombstone, so it stays in the index and leaves the live set; every other entry is unchanged; one live entry per position is preserved |
| `CdpCache.SaveIsIdempotent` | src/persistence/cdpdb.h:106 | saving the same record twice gives the same index as saving it once |
| `CdpCache.SaveKeepsOneLive` | src/persistence/cdpdb.h:105-106 | under the usage rule, a save keeps every position at most one live ranking entry |
| `CdpCache.EraseThenSave` | src/persistence/cdpdb.h:105-107 | erasing the old record and then saving the modified one replaces the old triple by the new one in the live set, tombstones the old triple and keeps one live entry per position |
| `CdpCache.SaveWithoutEraseLeavesStaleEntry` | src/persistence/cdpdb.h:105 | saving a record whose ratio changed, without erasing the old one, leaves both triples live, so the position is ranked twice |
| `CdpCache.RestakeMovesTheRankingEntry` | src/persistence/cdpdb.h:105-107 | 1000 staked against 500 owed ranks at ratio 2; after staking 500 more and applying erase-then-save, only the height-20 record is live, at ratio 3 |
| `CdpCache.MemCache.RankedLive` | src/persistence/cdpdb.h:122 | a ranked scan of one layer visits exactly its live entries, in ascending `operator<` order |
| `CdpCache.MemCache.constructor` | src/persistence/cdpdb.h:96 | a new cache has an empty index, zero totals and no base or store link |
| `CdpCache.MemCache.WithBase` | src/persistence/cdpdb.h:97 | an empty layer with zero totals whose base is the given cache |
| `CdpCache.MemCache.WithAccess` | src/persistence/cdpdb.h:99 | the empty root layer with zero totals, linked to the store accessor |
| `CdpCache.MemCache.Copy` | src/persistence/cdpdb.h:122-126 | the implicit copy constructor copies the index, both totals and both links |
| `CdpCache.MemCache.SetBase` | src/persistence/cdpdb.h:102 | the base link becomes the given cache and nothing else changes (the body is not in the header; see Left out) |
| `CdpCache.MemCache.SaveCdp` | src/persistence/cdpdb.h:105-106 | requires the usage rule; the record becomes a live entry under its triple, nothing else in the index changes, one live entry per position is kept, and the triple is in the layer's ranked scan |
| `CdpCache.MemCache.EraseCdp` | src/persistence/cdpdb.h:105-107 | the record's triple becomes a tombstone, it leaves the live set and the layer's ranked scan, and nothing else in the index changes |
| `CdpCache.StoreCache.constructor` | src/persistence/cdpdb.h:131 | the durable record cache of a default CCdpDBCache has no base and no store link (an assumption about CDBMultiValueCache, see Left out) |
| `CdpCache.StoreCache.WithAccess` | src/persistence/cdpdb.h:132 | the root durable record cache is linked to the store accessor and has no base (an assumption about CDBMultiValueCache, see Left out) |
| `CdpCache.StoreCache.WithBase` | src/persistence/cdpdb.h:133 | a durable record cache built from another is linked to it as its base (an assumption about CDBMultiValueCache, see Left out) |
| `CdpCache.StoreCache.SetBase` | src/persistence/cdpdb.h:136 | the durable cache's base link becomes the given cache (an assumption about CDBMultiValueCache, see Left out) |
| `CdpCache.DbCache.constructor` | src/persistence/cdpdb.h:131 | both caches are new and unlinked; the memory index is empty and both running totals are 0 (lines 123-124) |
| `CdpCache.DbCache.WithAccess` | src/persistence/cdpdb.h:132 | both caches are new root caches linked to the same store accessor; the memory index is empty and both running totals are 0 (lines 123-124) |
| `CdpCache.DbCache.CopyingParent` | src/persistence/cdpdb.h:133 | as written: the new memory cache is a copy of the parent's (its entries, both running totals, its base and its store link), not a layer over it |
| `CdpCache.DbCache.Layered` | src/persistence/cdpdb.h:133 | as intended: the new memory cache is an empty layer with zero totals whose base is the parent's memory cache, and the durable cache's base is the parent's durable cache |
| `CdpCache.DbCache.SetBaseView` | src/persistence/cdpdb.h:135-138 | the durable cache and the memory cache are each re-linked to the parent's counterpart |
| `CdpCache.CopiedViewBypassesParent` | src/persistence/cdpdb.h:133 | a view built by the as-written constructor from a root holding a live position already holds that entry, and its base is not the parent's memory cache |

## Left out

- Floating point. `collateralRatioBase` is `double(staked) / owed` in the
  source. The model uses the exact quotient and requires owed > 0 wherever a
  ratio is derived. So the model does not capture:
  - rounding, which can make distinct quotients compare equal;
  - the infinite ratio when owed = 0;
  - NaN when both amounts are 0. A NaN ratio compares neither below nor equal
    to anything, which breaks `operator<` as a map order.
- `CdpRecord.UserCdp.constructor` and `CdpRecord.UserCdp.WithIds`: the default
  constructors leave `collateralRatioBase` uninitialised. The model leaves it
  arbitrary. The default constructor's owner is CRegID's default value, which
  is not part of this model, so it is arbitrary too.
- The comparison operators of CRegID and uint256 are not part of this model.
  Each id is represented by its rank in its own order. The order proofs rely
  only on that order being strict and total.
- VARINT encoding and the serialisation macro machinery. Only the list and
  order of the written fields, and the read-side recomputation, are modelled.
- `ToString` and `ToJson`, which are presentation only.
- `CdpCache.MemCache.SaveCdp`, `CdpCache.MemCache.EraseCdp`: the header only
  declares them (lines 106-107). Their effect on the index follows the
  documented design of the memory cache, not code in this header: a save
  stores the record flagged valid (0), an erase stores it flagged invalid (1)
  as a tombstone, which matches the flag meanings at line 122. Whether the
  bodies use `operator[]` or `emplace` is not known, so it is also not known
  what they do or return when the triple is already present (for example a
  save onto a tombstone, if `emplace` kept the old flag). The model always
  overwrites the entry and returns true. Nor does the header show how they
  change `totalStakedBcoins` and `totalOwedScoins`: the model lets them change
  the totals but says nothing about the new values.
- `CdpCache.MemCache.SaveCdp`: the usage rule at line 105 is a comment, not a
  check. The model states it as a precondition.
  `CdpCache.SaveWithoutEraseLeavesStaleEntry` shows what breaking it leads to.
- `CdpCache.Saved`, `CdpCache.Erased`: when the triple is already present,
  the model stores the new record under it. If the bodies keep the key object
  already stored (as both `operator[]` and `emplace` on an existing key do),
  the stored height and amounts would be the old ones, for a save and for an
  erase alike. The ranking triple is the same either way.
- The bodies of `LoadAllCdpFromDB`, `Flush`, `BatchWrite`,
  `GetCdpListByCollateralRatio`, both private `GetCdpList` overloads,
  `GetGlobalCollateralRatio` and `GetGlobalCollateral`. Only their declarations
  are in the header. The order their scans walk is modelled (`CdpRanking`);
  the scans, cross-layer merging, flushing and loading are not.
- The bodies of `CCdpDBCache`'s `StakeBcoinsToCdp`, `GetCdpList`, `GetCdp`,
  both `SaveCdp` and both `EraseCdp` forms, `UndoCdp`,
  `CheckGlobalCollateralRatioFloorReached`,
  `CheckGlobalCollateralCeilingReached`, `Flush` and `GetCacheSize`. Their
  bodies, and the durable store and op-log they use, are not part of this
  model. The erase-then-save pattern that `StakeBcoinsToCdp` follows is
  modelled by `CdpCache.EraseThenSave`.
- `CdpCache.MemCache.SetBase`: the header only declares it (line 102). It is
  modelled as rebinding `pBase` and nothing else, which is inferred from its
  name and from the call at line 137; the body is not shown.
- `CDBMultiValueCache` is not part of this model beyond its base and store
  links (`CdpCache.StoreCache`). Its bodies are not shown, so the following
  are assumptions inferred from how lines 131-137 use them:
  - `CdpCache.StoreCache.constructor`: the default constructor (line 131)
    sets neither link;
  - `CdpCache.StoreCache.WithAccess`: the accessor constructor (line 132)
    sets only the store link;
  - `CdpCache.StoreCache.WithBase`: the constructor from another cache (line
    133) sets only the base link, to the given cache;
  - `CdpCache.StoreCache.SetBase`: `SetBase` (line 136) rebinds only the base
    link.
- Raw-pointer ownership and lifetime of `pBase` and `pAccess`. Objects are
  references; an overlay outliving its base is not expressible here.

## Findings

| source | as written | input that shows it | evidently intended | confidence | as-written member | corrected member |
|---|---|---|---|---|---|---|
| src/persistence/cdpdb.h:133 | `cdpMemCache(pBaseIn->cdpMemCache)` passes an object. `CCdpMemCache` has constructors only for no argument, a `CCdpMemCache*` and a `CDBAccess*`, so the implicit copy constructor runs. The new view's memory cache is a full copy of the parent's: its entries, its totals, the parent's own `pBase` and its `pAccess`. | A root view (`pAccess` set, `pBase` null) holding one live position. A view built from it holds that entry already and has `pBase` null instead of the root's memory cache, so its flush would not reach the parent. | An empty memory-cache layer whose base is the parent's memory cache, that is `cdpMemCache(&pBaseIn->cdpMemCache)`, matching what `SetBaseView` links. | medium; not executed | `CdpCache.DbCache.CopyingParent`, `CdpCache.CopiedViewBypassesParent` | `CdpCache.DbCache.Layered` |
