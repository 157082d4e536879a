/**
 * CUserCDP: one collateralized-debt position.
 *
 * The record's value (what a std::map stores a copy of) is the datatype `Cdp`;
 * the object that constructors, SetEmpty and the read hook update in place is
 * the class `UserCdp`. `operator<` reads only the ranking triple
 * (ratio, owner, txid), so it is defined once, on `RankKey`.
 */
module CdpRecord {
  import opened Ids

  /** The three fields `operator<` compares, in the order it compares them. */
  datatype RankKey = RankKey(ratio: real, owner: RegId, txId: TxId)

  /**
   * `operator<`: the collateral ratio first, then the owner, then the
   * transaction id.
   */
  predicate KeyLess(a: RankKey, b: RankKey): (lt: bool)
    ensures a.ratio < b.ratio ==> lt
    ensures lt ==> a.ratio <= b.ratio
    ensures lt ==> a != b
  {
    if a.ratio == b.ratio then
      if a.owner == b.owner then TxIdLess(a.txId, b.txId)
      else RegIdLess(a.owner, b.owner)
    else
      a.ratio < b.ratio
  }

  /** The value of a CUserCDP: the derived ratio and the five persisted fields. */
  datatype Cdp = Cdp(
    ratio: real,     // collateralRatioBase, memory only
    owner: RegId,    // ownerRegId
    txId: TxId,      // cdpTxId
    height: Int32,   // blockHeight of the last operation
    staked: Uint64,  // totalStakedBcoins
    owed: Uint64     // totalOwedScoins
  ) {
    function Key(): RankKey {
      RankKey(ratio, owner, txId)
    }

    /** IsEmpty: the record stands for "no position" when its txid is zero. */
    predicate IsEmpty(): (e: bool)
      ensures e ==> forall t: TxId :: !TxIdLess(t, txId)
      ensures !e ==> TxIdLess(ZeroTxId, txId)
    {
      TxIdIsEmpty(txId)
    }

    /** The ratio holds what the read hook derives from the two amounts. */
    predicate RatioIsDerived() {
      owed > 0 && ratio == staked as real / owed as real
    }
  }

  /** `a < b` on two records. */
  predicate Less(a: Cdp, b: Cdp): (lt: bool)
    ensures a.ratio < b.ratio ==> lt
    ensures lt ==> a.ratio <= b.ratio
    ensures lt ==> a.Key() != b.Key()
  {
    KeyLess(a.Key(), b.Key())
  }

  // ---------------------------------------------------------------------
  // The three branches of operator<

  lemma LessWhenRatiosDiffer(a: Cdp, b: Cdp)
    requires a.ratio != b.ratio
    ensures Less(a, b) <==> a.ratio < b.ratio
  {
  }

  lemma LessWhenOwnersDiffer(a: Cdp, b: Cdp)
    requires a.ratio == b.ratio && a.owner != b.owner
    ensures Less(a, b) <==> RegIdLess(a.owner, b.owner)
  {
  }

  lemma LessWithinOnePosition(a: Cdp, b: Cdp)
    requires a.ratio == b.ratio && a.owner == b.owner
    ensures Less(a, b) <==> TxIdLess(a.txId, b.txId)
    ensures !Less(a, a)
  {
  }

  // ---------------------------------------------------------------------
  // operator< is a strict total order on ranking triples

  lemma KeyLessIrreflexive(k: RankKey)
    ensures !KeyLess(k, k)
  {
  }

  lemma KeyLessTransitive(a: RankKey, b: RankKey, c: RankKey)
    requires KeyLess(a, b) && KeyLess(b, c)
    ensures KeyLess(a, c)
  {
  }

  /** Exactly one of a < b, b < a, a == b. */
  lemma KeyLessTrichotomous(a: RankKey, b: RankKey)
    ensures KeyLess(a, b) || KeyLess(b, a) || a == b
    ensures !(KeyLess(a, b) && KeyLess(b, a))
    ensures a == b ==> !KeyLess(a, b)
  {
  }

  /** A smaller triple never has a larger ratio. */
  lemma KeyLessOrdersRatios(a: RankKey, b: RankKey)
    requires KeyLess(a, b)
    ensures a.ratio <= b.ratio
  {
  }

  /**
   * On whole records `<` is a strict weak order: transitive, and two records
   * are equivalent (neither is smaller) exactly when they share the ranking
   * triple. That equivalence is what a std::map keyed by CUserCDP treats as
   * "the same key"; records that differ only in height or amounts collide.
   */
  lemma LessIsStrictWeakOrder(a: Cdp, b: Cdp, c: Cdp)
    ensures !Less(a, a)
    ensures Less(a, b) && Less(b, c) ==> Less(a, c)
    ensures (!Less(a, b) && !Less(b, a)) <==> a.Key() == b.Key()
  {
    if Less(a, b) && Less(b, c) {
      KeyLessTransitive(a.Key(), b.Key(), c.Key());
    }
    KeyLessTrichotomous(a.Key(), b.Key());
  }

  /** Multiplying both sides by a positive real keeps order and equality. */
  lemma ScaleByPositive(x: real, y: real, p: real)
    requires p > 0.0
    ensures x < y <==> x * p < y * p
    ensures x == y <==> x * p == y * p
  {
    if x * p == y * p {
      assert (x - y) * p == 0.0;
    }
  }

  /**
   * For records read back from storage the ratio order is the order of the
   * cross-multiplied integer amounts.
   */
  lemma {:induction false} RatioOrderIsCrossMultiplied(a: Cdp, b: Cdp)
    requires a.RatioIsDerived() && b.RatioIsDerived()
    ensures a.ratio < b.ratio <==> a.staked * b.owed < b.staked * a.owed
    ensures a.ratio == b.ratio <==> a.staked * b.owed == b.staked * a.owed
  {
    var sa, oa, sb, ob := a.staked as real, a.owed as real, b.staked as real, b.owed as real;
    assert a.ratio * oa == sa;
    assert b.ratio * ob == sb;
    var p := oa * ob;
    assert p > 0.0;
    assert a.ratio * p == sa * ob;
    assert b.ratio * p == sb * oa;
    ScaleByPositive(a.ratio, b.ratio, p);
    assert (a.staked * b.owed) as real == sa * ob;
    assert (b.staked * a.owed) as real == sb * oa;
  }

  // ---------------------------------------------------------------------
  // The empty sentinel

  /** IsEmpty reads the txid alone: height and amounts never change it. */
  lemma IsEmptyDependsOnTxIdOnly(a: Cdp, b: Cdp)
    requires a.txId == b.txId
    ensures a.IsEmpty() <==> b.IsEmpty()
    ensures a.IsEmpty() <==> a.txId == ZeroTxId
  {
  }

  // ---------------------------------------------------------------------
  // Serialisation: the five persisted fields, in their wire order.
  // The ratio is not among them; it is recomputed when a record is read.

  datatype Wire = Wire(owner: RegId, txId: TxId, height: Int32, staked: Uint64, owed: Uint64)

  /** The write side of IMPLEMENT_SERIALIZE. */
  function Encode(c: Cdp): (w: Wire)
    ensures c.RatioIsDerived() ==> w.owed > 0 && c.ratio == w.staked as real / w.owed as real
  {
    Wire(c.owner, c.txId, c.height, c.staked, c.owed)
  }

  /** The read side: the persisted fields, then ratio = staked / owed. */
  function Decode(w: Wire): (c: Cdp)
    requires w.owed > 0
    ensures c.RatioIsDerived()
    ensures Encode(c) == w
  {
    Cdp(w.staked as real / w.owed as real, w.owner, w.txId, w.height, w.staked, w.owed)
  }

  /** The ratio is never written: records that differ only in it encode alike. */
  lemma EncodeOmitsRatio(c: Cdp, r: real)
    ensures Encode(c.(ratio := r)) == Encode(c)
  {
  }

  /**
   * Writing a record and reading it back gives the persisted fields back and
   * the ratio derived from them, whatever ratio the record held before.
   */
  lemma DecodeAfterEncode(c: Cdp)
    requires c.owed > 0
    ensures Decode(Encode(c)) == c.(ratio := c.staked as real / c.owed as real)
    ensures c.RatioIsDerived() ==> Decode(Encode(c)) == c
  {
  }

  // ---------------------------------------------------------------------
  // The mutable struct

  class UserCdp {
    var ratio: real
    var owner: RegId
    var txId: TxId
    var height: Int32
    var staked: Uint64
    var owed: Uint64

    function Value(): Cdp
      reads this
    {
      Cdp(ratio, owner, txId, height, staked, owed)
    }

    /**
     * CUserCDP(): height and amounts are zero and the txid is uint256's zero,
     * so the record is empty. The ratio is left uninitialised and the owner is
     * CRegID's default, which is not part of this model: both are arbitrary.
     */
    constructor ()
      ensures txId == ZeroTxId && height == 0 && staked == 0 && owed == 0
      ensures Value().IsEmpty()
    {
      txId := ZeroTxId;
      height := 0;
      staked := 0;
      owed := 0;
    }

    /**
     * CUserCDP(regId, txId): the two ids are stored, height and amounts are
     * zero, the ratio is left uninitialised.
     */
    constructor WithIds(regId: RegId, cdpTxId: TxId)
      ensures owner == regId && txId == cdpTxId
      ensures height == 0 && staked == 0 && owed == 0
      ensures Value().IsEmpty() <==> cdpTxId == ZeroTxId
    {
      owner := regId;
      txId := cdpTxId;
      height := 0;
      staked := 0;
      owed := 0;
    }

    /**
     * SetEmpty: txid, height and both amounts become zero; the owner and the
     * (now stale) ratio are kept.
     */
    method SetEmpty()
      modifies this
      ensures Value() == old(Value()).(txId := ZeroTxId, height := 0, staked := 0, owed := 0)
      ensures Value().IsEmpty()
    {
      txId := ZeroTxId;
      height := 0;
      staked := 0;
      owed := 0;
    }

    /** The read hook: every persisted field from the wire, then the ratio. */
    method Read(w: Wire)
      requires w.owed > 0
      modifies this
      ensures Value() == Decode(w)
      ensures Value().RatioIsDerived() && Encode(Value()) == w
    {
      owner := w.owner;
      txId := w.txId;
      height := w.height;
      staked := w.staked;
      owed := w.owed;
      ratio := staked as real / owed as real;
    }
  }
}
