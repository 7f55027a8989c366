/** The default subframe maps of the eNodeB's control channel: scheduling requests at even
    offsets of their period, channel reports at odd ones. */
module SfMapping {

  /** The parsed section: an explicit list of subframes, or the period alone. */
  datatype Setting = Listed(subframes: seq<nat>) | ByPeriod(period: nat)

  const SR_OFFSET: nat := 0
  const CQI_OFFSET: nat := 1

  /** The default map of a period. */
  function Default(period: nat, offset: nat): (m: seq<nat>) {
    seq(period / 2, i requires 0 <= i => i * 2 + offset)
  }

  function Parsed(s: Setting, offset: nat): (m: seq<nat>) {
    match s
    case Listed(subframes) => subframes
    case ByPeriod(period) => Default(period, offset)
  }

  /** Fills the map in place and says how many entries it has.  Nothing checks that they fit;
      the first write behind the array ends the model's run, with `fits` false. */
  method Parse(s: Setting, offset: nat, sfMapping: array<nat>) returns (fits: bool, nofSubframes: nat)
    modifies sfMapping
    ensures fits <==> |Parsed(s, offset)| <= sfMapping.Length
    ensures nofSubframes == |Parsed(s, offset)|
    ensures fits ==> sfMapping[..nofSubframes] == Parsed(s, offset)
    ensures fits && s.Listed? ==> sfMapping[..nofSubframes] == s.subframes
    ensures fits && s.ByPeriod? ==>
              nofSubframes == s.period / 2 && forall i | 0 <= i < nofSubframes :: sfMapping[i] == i * 2 + offset
    ensures fits ==> sfMapping[nofSubframes..] == old(sfMapping[nofSubframes..])
    ensures !fits ==> sfMapping[..] == Parsed(s, offset)[..sfMapping.Length]
  {
    match s {
    case Listed(subframes) =>
      nofSubframes := |subframes|;
      for i := 0 to nofSubframes
        invariant i <= sfMapping.Length && sfMapping[..i] == subframes[..i]
        invariant sfMapping[i..] == old(sfMapping[i..])
      {
        if i == sfMapping.Length {
          return false, nofSubframes;
        }
        assert forall k | i + 1 <= k < sfMapping.Length :: sfMapping[k] == sfMapping[i..][k - i];
        sfMapping[i] := subframes[i];
      }
    case ByPeriod(period) =>
      nofSubframes := period / 2;
      for i := 0 to nofSubframes
        invariant i <= sfMapping.Length && sfMapping[..i] == Default(period, offset)[..i]
        invariant sfMapping[i..] == old(sfMapping[i..])
      {
        if i == sfMapping.Length {
          return false, nofSubframes;
        }
        assert forall k | i + 1 <= k < sfMapping.Length :: sfMapping[k] == sfMapping[i..][k - i];
        sfMapping[i] := i * 2 + offset;
      }
    }
    fits := true;
  }

  /** Both default maps increase strictly and stay inside their period. */
  lemma DefaultIsOrdered(period: nat, offset: nat, i: nat, j: nat)
    requires offset <= 1 && i < j < |Default(period, offset)|
    ensures Default(period, offset)[i] < Default(period, offset)[j] < period
  {
  }

  /** The map holds exactly the residues of its parity, but for the last one of an odd period. */
  lemma DefaultHolds(period: nat, offset: nat, r: nat)
    requires offset <= 1 && r < period
    ensures r in Default(period, offset) <==> r % 2 == offset && r < 2 * (period / 2)
  {
    if r % 2 == offset && r < 2 * (period / 2) {
      assert Default(period, offset)[r / 2] == r;
    }
  }

  /** By default scheduling requests have the even subframes and channel reports the odd ones. */
  lemma DefaultMapsByParity(period: nat, r: nat)
    ensures r in Default(period, SR_OFFSET) ==> r % 2 == 0
    ensures r in Default(period, CQI_OFFSET) ==> r % 2 == 1
  {
  }

  /** TTI `t` is an opportunity of the map. */
  predicate Opportunity(t: nat, period: nat, offset: nat) {
    period > 0 && t % period in Default(period, offset)
  }

  ghost predicate NeverBoth(sr: nat, cqi: nat) {
    forall t: nat :: !(Opportunity(t, sr, SR_OFFSET) && Opportunity(t, cqi, CQI_OFFSET))
  }

  lemma OpportunityMeans(t: nat, period: nat, offset: nat)
    requires offset <= 1 && period > 0
    ensures Opportunity(t, period, offset) <==> t % period % 2 == offset && t % period < 2 * (period / 2)
  {
    DefaultHolds(period, offset, t % period);
  }

  /** An even period keeps the parity of the TTI. */
  lemma EvenPeriodKeepsParity(t: nat, period: nat)
    requires period > 0 && period % 2 == 0
    ensures t % period % 2 == t % 2
  {
    var h, q := period / 2, t / period;
    assert t == q * (2 * h) + t % period;
    assert q * (2 * h) == 2 * (q * h);
  }

  /** Scheduling requests and channel reports never fall on the same TTI, on the whole time axis,
      exactly when both periods are even, or equal, or one of them gives no opportunity. */
  lemma NeverBothIff(sr: nat, cqi: nat)
    ensures NeverBoth(sr, cqi) <==> (sr % 2 == 0 && cqi % 2 == 0) || sr == cqi || sr < 2 || cqi < 2
  {
    if (sr % 2 == 0 && cqi % 2 == 0) || sr == cqi || sr < 2 || cqi < 2 {
      forall t: nat
        ensures !(Opportunity(t, sr, SR_OFFSET) && Opportunity(t, cqi, CQI_OFFSET))
      {
        NotBoth(sr, cqi, t);
      }
    } else {
      var t := Clash(sr, cqi);
    }
  }

  lemma NotBoth(sr: nat, cqi: nat, t: nat)
    requires (sr % 2 == 0 && cqi % 2 == 0) || sr == cqi || sr < 2 || cqi < 2
    ensures !(Opportunity(t, sr, SR_OFFSET) && Opportunity(t, cqi, CQI_OFFSET))
  {
    if sr >= 2 && cqi >= 2 {
      OpportunityMeans(t, sr, SR_OFFSET);
      OpportunityMeans(t, cqi, CQI_OFFSET);
      if sr != cqi {
        EvenPeriodKeepsParity(t, sr);
        EvenPeriodKeepsParity(t, cqi);
      }
    }
  }

  lemma Residue(t: nat, period: nat, q: nat, r: nat)
    requires r < period && q <= 2
    requires t == if q == 0 then r else if q == 1 then period + r else period + period + r
    ensures t % period == r
  {
    var d := t / period;
    assert t == d * period + t % period;
    if d <= 2 {
      assert d * period == if d == 0 then 0 else if d == 1 then period else period + period;
    }
  }

  lemma ClashesWhen(sr: nat, cqi: nat, t: nat)
    requires sr > 0 && cqi > 0
    requires t % sr % 2 == 0 && t % sr < 2 * (sr / 2)
    requires t % cqi % 2 == 1 && t % cqi < 2 * (cqi / 2)
    ensures Opportunity(t, sr, SR_OFFSET) && Opportunity(t, cqi, CQI_OFFSET)
  {
    hide Opportunity;
    OpportunityMeans(t, sr, SR_OFFSET);
    OpportunityMeans(t, cqi, CQI_OFFSET);
  }

  lemma ClashMixed(sr: nat, cqi: nat) returns (t: nat)
    requires sr >= 2 && cqi >= 2 && sr % 2 != cqi % 2
    ensures Opportunity(t, sr, SR_OFFSET) && Opportunity(t, cqi, CQI_OFFSET)
    ensures t <= sr || t <= cqi + 1
  {
    hide Opportunity;
    if sr % 2 == 1 {
      t := sr;
      EvenPeriodKeepsParity(t, cqi);
      Residue(t, sr, 1, 0);
    } else {
      t := cqi + 1;
      EvenPeriodKeepsParity(t, sr);
      Residue(t, cqi, 1, 1);
    }
    ClashesWhen(sr, cqi, t);
  }

  lemma ClashOdd(sr: nat, cqi: nat) returns (t: nat)
    requires sr >= 2 && cqi >= 2 && sr != cqi && sr % 2 == 1 && cqi % 2 == 1
    ensures Opportunity(t, sr, SR_OFFSET) && Opportunity(t, cqi, CQI_OFFSET)
    ensures t <= sr || t <= 2 * cqi + 1
  {
    hide Opportunity;
    var h, k := sr / 2, cqi / 2;
    t := if sr < cqi then sr else if h == k + 1 then 2 * cqi + 1 else cqi + 1;
    OddPeriods(h, k, t);
  }

  lemma OddPeriods(h: nat, k: nat, t: nat)
    requires h >= 1 && k >= 1 && h != k
    requires var sr, cqi := 2 * h + 1, 2 * k + 1;
             t == if sr < cqi then sr else if h == k + 1 then 2 * cqi + 1 else cqi + 1
    ensures Opportunity(t, 2 * h + 1, SR_OFFSET) && Opportunity(t, 2 * k + 1, CQI_OFFSET)
  {
    hide Opportunity;
    var sr, cqi := 2 * h + 1, 2 * k + 1;
    if h < k {
      Residue(t, sr, 1, 0);
      Residue(t, cqi, 0, sr);
    } else if h == k + 1 {
      Residue(t, sr, 1, 2 * h - 2);
      Residue(t, cqi, 2, 1);
    } else {
      Residue(t, sr, 0, 2 * k + 2);
      Residue(t, cqi, 1, 1);
    }
    ClashesWhen(sr, cqi, t);
  }

  /** For all other periods there is a clash, and it comes early. */
  lemma Clash(sr: nat, cqi: nat) returns (t: nat)
    requires sr >= 2 && cqi >= 2 && sr != cqi && (sr % 2 == 1 || cqi % 2 == 1)
    ensures Opportunity(t, sr, SR_OFFSET) && Opportunity(t, cqi, CQI_OFFSET)
    ensures t <= sr || t <= 2 * cqi + 1
  {
    hide Opportunity;
    if sr % 2 != cqi % 2 {
      t := ClashMixed(sr, cqi);
    } else {
      t := ClashOdd(sr, cqi);
    }
  }

  /** For one even period the two maps share its subframes out: each belongs to exactly one. */
  lemma EvenPeriodIsPartitioned(period: nat, r: nat)
    requires period % 2 == 0 && r < period
    ensures r in Default(period, SR_OFFSET) <==> r !in Default(period, CQI_OFFSET)
    ensures |Default(period, SR_OFFSET)| + |Default(period, CQI_OFFSET)| == period
  {
    DefaultHolds(period, SR_OFFSET, r);
    DefaultHolds(period, CQI_OFFSET, r);
  }
}
