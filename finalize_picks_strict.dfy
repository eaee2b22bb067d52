// The strict finalizer's pick selection: three picks per team chosen tier
// by tier, with the tier and flag of each tier written into the candidates
// themselves, and the one-line "why" summary of a pick.
module FinalizePicksStrict {
  import opened Wrappers
  import opened Sorting
  import opened Lists
  import Text

  /** How many picks a team gets. */
  const PicksPerTeam: int := 3

  const RelaxedFlag: string := "⚠️ RELAXED THRESHOLD"
  const FallbackFlag: string := "⚡ FALLBACK PICK"

  /**
   * A simulation result handed to the selector. Its data never changes; its
   * selection tier and flag are written in place, and every list holding
   * it sees the change. An absent flag and a flag set to null are the same
   * here, as they are to every reader of the flag.
   */
  class Candidate {
    const player: string
    const winProbPct: real
    const edgePts: real
    var selectionTier: Option<int>
    var selectionFlag: Option<string>

    constructor (player: string, winProbPct: real, edgePts: real)
      ensures this.player == player && this.winProbPct == winProbPct && this.edgePts == edgePts
      ensures selectionTier.None? && selectionFlag.None?
    {
      this.player := player;
      this.winProbPct := winProbPct;
      this.edgePts := edgePts;
      selectionTier := None;
      selectionFlag := None;
    }
  }

  // ---------------------------------------------------------------------
  // The tiers, as values
  // ---------------------------------------------------------------------

  function AtLeast(t: real): Candidate -> bool {
    (c: Candidate) => c.winProbPct >= t
  }

  function WinKey(c: Candidate): Key {
    Key(c.winProbPct, 0.0)
  }

  function EdgeKey(c: Candidate): Key {
    Key(c.edgePts, 0.0)
  }

  /** The candidates of `rest` reaching `t`, likeliest first. */
  function Pool(rest: seq<Candidate>, t: real): seq<Candidate> {
    SortDesc(Filter(rest, AtLeast(t)), WinKey)
  }

  /** Tier 1: the three likeliest candidates reaching 60%. */
  function UpToTier1(cands: seq<Candidate>): (s: seq<Candidate>)
    ensures |s| <= PicksPerTeam
  {
    Take(Pool(cands, 60.0), PicksPerTeam)
  }

  /** Tier 2: topped up from the unselected candidates reaching 55%. */
  function UpToTier2(cands: seq<Candidate>): (s: seq<Candidate>)
    ensures |s| <= PicksPerTeam
  {
    var s1 := UpToTier1(cands);
    if |s1| < PicksPerTeam then s1 + Take(Pool(Without(cands, s1), 55.0), PicksPerTeam - |s1|) else s1
  }

  /** The candidates tier 3 marks: the unselected ones reaching 50%, when tier 3 runs. */
  function RelaxedPool(cands: seq<Candidate>): seq<Candidate> {
    var s2 := UpToTier2(cands);
    if |s2| < PicksPerTeam then Pool(Without(cands, s2), 50.0) else []
  }

  /** Tier 3: topped up from the relaxed pool. */
  function UpToTier3(cands: seq<Candidate>): (s: seq<Candidate>)
    ensures |s| <= PicksPerTeam
  {
    var s2 := UpToTier2(cands);
    if |s2| < PicksPerTeam then s2 + Take(RelaxedPool(cands), PicksPerTeam - |s2|) else s2
  }

  /** The candidates tier 4 marks: all unselected ones by edge, when tier 4 runs. */
  function FallbackPool(cands: seq<Candidate>): seq<Candidate> {
    var s3 := UpToTier3(cands);
    if |s3| < PicksPerTeam then SortDesc(Without(cands, s3), EdgeKey) else []
  }

  /** The picks `select_team_picks` returns. */
  function Selection(cands: seq<Candidate>): (s: seq<Candidate>)
    ensures |s| <= PicksPerTeam
  {
    var s3 := UpToTier3(cands);
    if |s3| < PicksPerTeam then s3 + Take(FallbackPool(cands), PicksPerTeam - |s3|) else s3
  }

  /** A candidate's tier after the marking of tiers 3 and 4, from the one it had. */
  function MarkedTier(c: Candidate, cands: seq<Candidate>, before: Option<int>): Option<int> {
    if c in FallbackPool(cands) then Some(4)
    else if c in RelaxedPool(cands) then Some(3)
    else before
  }

  /** A candidate's flag after the marking of tiers 3 and 4, from the one it had. */
  function MarkedFlag(c: Candidate, cands: seq<Candidate>, before: Option<string>): Option<string> {
    if c in FallbackPool(cands) then Some(FallbackFlag)
    else if c in RelaxedPool(cands) then Some(RelaxedFlag)
    else before
  }

  /** A candidate's final tier: a pick still without one gets 1 from 60%, else 2. */
  function FinalTier(c: Candidate, cands: seq<Candidate>, before: Option<int>): Option<int> {
    var marked := MarkedTier(c, cands, before);
    if c in Selection(cands) && marked.None? then Some(if c.winProbPct >= 60.0 then 1 else 2) else marked
  }

  // ---------------------------------------------------------------------
  // The selector
  // ---------------------------------------------------------------------

  /** The marked tier and flag, read off the two pools. */
  lemma MarkedFrom(c: Candidate, cands: seq<Candidate>, tier: Option<int>, flag: Option<string>, relaxed: seq<Candidate>, fallback: seq<Candidate>)
    requires relaxed == RelaxedPool(cands) && fallback == FallbackPool(cands)
    ensures MarkedTier(c, cands, tier) == if c in fallback then Some(4) else if c in relaxed then Some(3) else tier
    ensures MarkedFlag(c, cands, flag) == if c in fallback then Some(FallbackFlag) else if c in relaxed then Some(RelaxedFlag) else flag
  {
  }

  /** The final tier, read off the selection and the marked tier. */
  lemma FinalTierFrom(c: Candidate, cands: seq<Candidate>, before: Option<int>, sel: seq<Candidate>, marked: Option<int>)
    requires sel == Selection(cands)
    requires marked == MarkedTier(c, cands, before)
    ensures FinalTier(c, cands, before) == if c in sel && marked.None? then Some(if c.winProbPct >= 60.0 then 1 else 2) else marked
  {
  }

  /** The marking loops of tiers 3 and 4: every candidate of the tier gets its tier and flag. */
  method Mark(tier: seq<Candidate>, t: int, flag: string)
    modifies set c | c in tier
    ensures forall c :: c in tier ==> c.selectionTier == Some(t) && c.selectionFlag == Some(flag)
  {
    for i := 0 to |tier|
      invariant forall c :: c in tier[..i] ==> c.selectionTier == Some(t) && c.selectionFlag == Some(flag)
    {
      assert tier[..i + 1] == tier[..i] + [tier[i]];
      tier[i].selectionFlag := Some(flag);
      tier[i].selectionTier := Some(t);
    }
    assert tier[..|tier|] == tier;
  }

  /**
   * The last loop of `select_team_picks`: a pick without a tier gets 1 from
   * 60%, else 2. A pick without a flag would get a null one, which reads as
   * no flag.
   */
  method AssignTiers(selected: seq<Candidate>)
    modifies set c | c in selected
    ensures forall c :: c in selected ==> c.selectionFlag == old(c.selectionFlag)
    ensures forall c :: c in selected ==>
      c.selectionTier == if old(c.selectionTier).None? then Some(if c.winProbPct >= 60.0 then 1 else 2) else old(c.selectionTier)
  {
    for i := 0 to |selected|
      invariant forall c :: c in selected ==> c.selectionFlag == old(c.selectionFlag)
      invariant forall c :: c in selected ==>
        c.selectionTier == if c in selected[..i] && old(c.selectionTier).None?
          then Some(if c.winProbPct >= 60.0 then 1 else 2)
          else old(c.selectionTier)
    {
      assert selected[..i + 1] == selected[..i] + [selected[i]];
      var c := selected[i];
      if c.selectionTier.None? {
        c.selectionTier := Some(if c.winProbPct >= 60.0 then 1 else 2);
      }
    }
    assert selected[..|selected|] == selected;
  }

  /**
   * The first part of `select_team_picks`: fill three places tier by tier,
   * writing the tier and flag of tiers 3 and 4 into every candidate of
   * those tiers.
   */
  method SelectAndMark(candidates: seq<Candidate>) returns (selected: seq<Candidate>)
    modifies set c | c in candidates
    ensures selected == Selection(candidates) && Within(selected, candidates)
    ensures forall c :: c in candidates ==>
      && c.selectionTier == MarkedTier(c, candidates, old(c.selectionTier))
      && c.selectionFlag == MarkedFlag(c, candidates, old(c.selectionFlag))
  {
    PoolsWithin(candidates);
    ghost var relaxed := RelaxedPool(candidates);
    ghost var fallback := FallbackPool(candidates);
    var tier1 := Pool(candidates, 60.0);
    selected := Take(tier1, PicksPerTeam);
    if |selected| < PicksPerTeam {
      var tier2 := Pool(Without(candidates, selected), 55.0);
      selected := selected + Take(tier2, PicksPerTeam - |selected|);
    }
    assert selected == UpToTier2(candidates);
    if |selected| < PicksPerTeam {
      var tier3 := Pool(Without(candidates, selected), 50.0);
      assert tier3 == relaxed;
      Mark(tier3, 3, RelaxedFlag);
      selected := selected + Take(tier3, PicksPerTeam - |selected|);
    } else {
      assert relaxed == [];
    }
    assert selected == UpToTier3(candidates);
    assert forall c :: c in candidates ==>
      && c.selectionTier == (if c in relaxed then Some(3) else old(c.selectionTier))
      && c.selectionFlag == (if c in relaxed then Some(RelaxedFlag) else old(c.selectionFlag));
    label RelaxedMarked:
    if |selected| < PicksPerTeam {
      var tier4 := SortDesc(Without(candidates, selected), EdgeKey);
      assert tier4 == fallback;
      Mark(tier4, 4, FallbackFlag);
      selected := selected + Take(tier4, PicksPerTeam - |selected|);
    } else {
      assert fallback == [];
    }
    assert selected == Selection(candidates);
    assert forall c :: c in candidates ==>
      && c.selectionTier == (if c in fallback then Some(4) else old@RelaxedMarked(c.selectionTier))
      && c.selectionFlag == (if c in fallback then Some(FallbackFlag) else old@RelaxedMarked(c.selectionFlag));
    forall c | c in candidates
      ensures c.selectionTier == MarkedTier(c, candidates, old(c.selectionTier))
      ensures c.selectionFlag == MarkedFlag(c, candidates, old(c.selectionFlag))
    {
      MarkedFrom(c, candidates, old(c.selectionTier), old(c.selectionFlag), relaxed, fallback);
    }
  }

  /**
   * `select_team_picks`: fill three places tier by tier, writing the tier
   * and flag of tiers 3 and 4 into every candidate of those tiers, then
   * give each pick without a tier tier 1 or 2.
   */
  method SelectTeamPicks(candidates: seq<Candidate>) returns (selected: seq<Candidate>)
    modifies set c | c in candidates
    ensures selected == Selection(candidates)
    ensures forall c :: c in candidates ==>
      && c.selectionTier == FinalTier(c, candidates, old(c.selectionTier))
      && c.selectionFlag == MarkedFlag(c, candidates, old(c.selectionFlag))
  {
    selected := SelectAndMark(candidates);
    label Marked:
    AssignTiers(selected);
    forall c | c in candidates
      ensures c.selectionTier == FinalTier(c, candidates, old(c.selectionTier))
    {
      var marked := old@Marked(c.selectionTier);
      FinalTierFrom(c, candidates, old(c.selectionTier), selected, marked);
    }
  }

  // ---------------------------------------------------------------------
  // Where the picks come from
  // ---------------------------------------------------------------------

  /** A pool is sorted by win probability and holds exactly the candidates of `rest` reaching `t`. */
  lemma PoolFacts(rest: seq<Candidate>, t: real)
    ensures SortedDesc(Pool(rest, t), WinKey)
    ensures forall z :: z in Pool(rest, t) ==> z in rest && z.winProbPct >= t
    ensures forall y :: y in rest && y.winProbPct >= t ==> y in Pool(rest, t)
  {
    var f := Filter(rest, AtLeast(t));
    var p := Pool(rest, t);
    forall z | z in p ensures z in rest && z.winProbPct >= t {
      assert z in multiset(p);
      InFilter(rest, AtLeast(t), z);
    }
    forall y | y in rest && y.winProbPct >= t ensures y in p {
      FilterKeeps(rest, AtLeast(t), y);
      assert y in multiset(f);
    }
  }

  /** The pool of a tier holds exactly the unselected candidates reaching its threshold. */
  lemma TierPool(cands: seq<Candidate>, sel: seq<Candidate>, t: real)
    ensures forall z :: z in Pool(Without(cands, sel), t) ==> z in cands && z !in sel && z.winProbPct >= t
    ensures forall y :: y in cands && y !in sel && y.winProbPct >= t ==> y in Pool(Without(cands, sel), t)
  {
    var rest := Without(cands, sel);
    PoolFacts(rest, t);
    forall z | z in Pool(rest, t) ensures z in cands && z !in sel {
      InWithout(cands, sel, z);
    }
    forall y | y in cands && y !in sel && y.winProbPct >= t ensures y in Pool(rest, t) {
      WithoutKeeps(cands, sel, y);
    }
  }

  /** The fallback pool holds exactly the candidates tier 3 left unselected, when tier 4 runs. */
  lemma FallbackPoolFacts(cands: seq<Candidate>)
    ensures forall z :: z in FallbackPool(cands) ==> z in cands && z !in UpToTier3(cands)
    ensures |UpToTier3(cands)| < PicksPerTeam ==>
      forall y :: y in cands && y !in UpToTier3(cands) ==> y in FallbackPool(cands)
  {
    var s3 := UpToTier3(cands);
    if |s3| < PicksPerTeam {
      var rest := Without(cands, s3);
      forall z | z in FallbackPool(cands) ensures z in cands && z !in s3 {
        assert z in multiset(rest);
        InWithout(cands, s3, z);
      }
      forall y | y in cands && y !in s3 ensures y in FallbackPool(cands) {
        WithoutKeeps(cands, s3, y);
        assert y in multiset(rest);
      }
    }
  }

  /** Every tier, pool and pick is one of the candidates. */
  lemma PoolsWithin(cands: seq<Candidate>)
    ensures Within(UpToTier1(cands), cands) && Within(UpToTier2(cands), cands)
    ensures Within(RelaxedPool(cands), cands) && Within(UpToTier3(cands), cands)
    ensures Within(FallbackPool(cands), cands) && Within(Selection(cands), cands)
  {
    var s1 := UpToTier1(cands);
    PoolFacts(cands, 60.0);
    forall x | x in s1 ensures x in cands {
      InTake(Pool(cands, 60.0), PicksPerTeam, x);
    }
    var s2 := UpToTier2(cands);
    TierPool(cands, s1, 55.0);
    forall x | x in s2 && x !in s1 ensures x in cands {
      InTake(Pool(Without(cands, s1), 55.0), PicksPerTeam - |s1|, x);
    }
    var s3 := UpToTier3(cands);
    TierPool(cands, s2, 50.0);
    forall x | x in s3 && x !in s2 ensures x in cands {
      InTake(RelaxedPool(cands), PicksPerTeam - |s2|, x);
    }
    FallbackPoolFacts(cands);
    forall x | x in Selection(cands) && x !in s3 ensures x in cands {
      InTake(FallbackPool(cands), PicksPerTeam - |s3|, x);
    }
  }

  // ---------------------------------------------------------------------
  // How many picks, and none twice
  // ---------------------------------------------------------------------

  /** A pool of distinct candidates is distinct. */
  lemma PoolDistinct(rest: seq<Candidate>, t: real)
    requires Distinct(rest)
    ensures Distinct(Pool(rest, t))
  {
    FilterDistinct(rest, AtLeast(t));
    PermutationDistinct(Filter(rest, AtLeast(t)), Pool(rest, t));
  }

  /** Topping up a distinct selection from a distinct pool of unselected candidates keeps it distinct. */
  lemma TopUpDistinct(sel: seq<Candidate>, pool: seq<Candidate>, m: int)
    requires Distinct(sel) && Distinct(pool) && m >= 0
    requires forall z :: z in pool ==> z !in sel
    ensures Distinct(sel + Take(pool, m))
  {
    var add := Take(pool, m);
    assert add == pool[..|add|];
    SliceDistinct(pool, 0, |add|);
    forall x | x in add ensures x !in sel {
      InTake(pool, m, x);
    }
    AppendDistinct(sel, add);
  }

  /** With distinct candidates, the tiers stay distinct. */
  lemma TiersDistinct(cands: seq<Candidate>)
    requires Distinct(cands)
    ensures Distinct(UpToTier1(cands)) && Distinct(UpToTier2(cands)) && Distinct(UpToTier3(cands))
  {
    var s1 := UpToTier1(cands);
    PoolDistinct(cands, 60.0);
    SliceDistinct(Pool(cands, 60.0), 0, |s1|);
    assert s1 == Pool(cands, 60.0)[..|s1|];
    var s2 := UpToTier2(cands);
    if |s1| < PicksPerTeam {
      WithoutDistinct(cands, s1);
      PoolDistinct(Without(cands, s1), 55.0);
      TierPool(cands, s1, 55.0);
      TopUpDistinct(s1, Pool(Without(cands, s1), 55.0), PicksPerTeam - |s1|);
    }
    if |s2| < PicksPerTeam {
      WithoutDistinct(cands, s2);
      PoolDistinct(Without(cands, s2), 50.0);
      TierPool(cands, s2, 50.0);
      TopUpDistinct(s2, RelaxedPool(cands), PicksPerTeam - |s2|);
    }
  }

  /**
   * At most three picks; with distinct candidates none is picked twice and
   * there are exactly min(3, n) of them, all of them candidates.
   */
  lemma SelectionSpec(cands: seq<Candidate>)
    requires Distinct(cands)
    ensures Distinct(Selection(cands)) && Within(Selection(cands), cands)
    ensures |Selection(cands)| == if |cands| < PicksPerTeam then |cands| else PicksPerTeam
  {
    TiersDistinct(cands);
    PoolsWithin(cands);
    var s3 := UpToTier3(cands);
    if |s3| < PicksPerTeam {
      var rest := Without(cands, s3);
      WithoutDistinct(cands, s3);
      WithoutLength(cands, s3);
      PermutationDistinct(rest, FallbackPool(cands));
      FallbackPoolFacts(cands);
      TopUpDistinct(s3, FallbackPool(cands), PicksPerTeam - |s3|);
    } else {
      WithinLength(s3, cands);
    }
  }

  // ---------------------------------------------------------------------
  // The likeliest candidates are picked first
  // ---------------------------------------------------------------------

  /** No unselected candidate is likelier than a selected one. */
  predicate TopSet(sel: seq<Candidate>, cands: seq<Candidate>) {
    forall x, y :: x in sel && y in cands && y !in sel ==> y.winProbPct <= x.winProbPct
  }

  /** Every selected candidate reaches `t`. */
  predicate AllReach(sel: seq<Candidate>, t: real) {
    forall x :: x in sel ==> x.winProbPct >= t
  }

  /**
   * Topping up a top selection from a sorted pool holding every unselected
   * candidate reaching `t`, all of it reaching `t`, keeps it a top selection.
   */
  lemma TopUpTop(cands: seq<Candidate>, sel: seq<Candidate>, t: real, pool: seq<Candidate>, m: int)
    requires TopSet(sel, cands) && AllReach(sel, t) && m >= 0
    requires SortedDesc(pool, WinKey)
    requires forall z :: z in pool ==> z.winProbPct >= t
    requires forall y :: y in cands && y !in sel && y.winProbPct >= t ==> y in pool
    ensures TopSet(sel + Take(pool, m), cands) && AllReach(sel + Take(pool, m), t)
  {
    var taken := Take(pool, m);
    var s := sel + taken;
    forall x | x in taken ensures x.winProbPct >= t {
      InTake(pool, m, x);
    }
    forall x, y | x in s && y in cands && y !in s ensures y.winProbPct <= x.winProbPct {
      if x in taken && y.winProbPct >= t {
        var i :| 0 <= i < |taken| && taken[i] == x;
        var j :| 0 <= j < |pool| && pool[j] == y;
        assert forall k :: 0 <= k < |taken| ==> pool[k] == taken[k] != y;
        assert i < j;
        assert !Above(WinKey(pool[j]), WinKey(pool[i]));
      }
    }
  }

  /** Each of the first three tiers is a top selection reaching its threshold. */
  lemma Tier1Top(cands: seq<Candidate>)
    ensures TopSet(UpToTier1(cands), cands) && AllReach(UpToTier1(cands), 60.0)
  {
    PoolFacts(cands, 60.0);
    TopUpTop(cands, [], 60.0, Pool(cands, 60.0), PicksPerTeam);
    assert [] + UpToTier1(cands) == UpToTier1(cands);
  }

  lemma Tier2Top(cands: seq<Candidate>)
    ensures TopSet(UpToTier2(cands), cands) && AllReach(UpToTier2(cands), 55.0)
  {
    var s1 := UpToTier1(cands);
    Tier1Top(cands);
    if |s1| < PicksPerTeam {
      PoolFacts(Without(cands, s1), 55.0);
      TierPool(cands, s1, 55.0);
      TopUpTop(cands, s1, 55.0, Pool(Without(cands, s1), 55.0), PicksPerTeam - |s1|);
    }
  }

  lemma Tier3Top(cands: seq<Candidate>)
    ensures TopSet(UpToTier3(cands), cands) && AllReach(UpToTier3(cands), 50.0)
  {
    var s2 := UpToTier2(cands);
    Tier2Top(cands);
    if |s2| < PicksPerTeam {
      PoolFacts(Without(cands, s2), 50.0);
      TierPool(cands, s2, 50.0);
      TopUpTop(cands, s2, 50.0, RelaxedPool(cands), PicksPerTeam - |s2|);
    }
  }

  /** A tier that leaves places open has taken every candidate reaching its threshold. */
  lemma Exhausted(cands: seq<Candidate>)
    ensures |UpToTier1(cands)| < PicksPerTeam ==>
      UpToTier1(cands) == Pool(cands, 60.0) &&
      forall y :: y in cands && y.winProbPct >= 60.0 ==> y in UpToTier1(cands)
    ensures |UpToTier2(cands)| < PicksPerTeam ==>
      forall y :: y in cands && y.winProbPct >= 55.0 ==> y in UpToTier2(cands)
    ensures |UpToTier3(cands)| < PicksPerTeam ==>
      forall y :: y in cands && y.winProbPct >= 50.0 ==> y in UpToTier3(cands)
  {
    var s1 := UpToTier1(cands);
    var s2 := UpToTier2(cands);
    var s3 := UpToTier3(cands);
    PoolFacts(cands, 60.0);
    TierPool(cands, s1, 55.0);
    TierPool(cands, s2, 50.0);
    if |s2| < PicksPerTeam {
      var pool := Pool(Without(cands, s1), 55.0);
      assert s2 == s1 + pool;
      forall y | y in cands && y.winProbPct >= 55.0 ensures y in s2 {
        if y !in s1 {
          assert y in pool;
        }
      }
    }
    if |s3| < PicksPerTeam {
      assert s3 == s2 + RelaxedPool(cands);
      forall y | y in cands && y.winProbPct >= 50.0 ensures y in s3 {
        if y !in s2 {
          assert y in RelaxedPool(cands);
        }
      }
    }
  }

  /** Enough candidates reaching 50% fill the three places before the fallback. */
  lemma ThreeReachFifty(cands: seq<Candidate>)
    requires Distinct(cands) && |Filter(cands, AtLeast(50.0))| >= PicksPerTeam
    ensures |UpToTier3(cands)| == PicksPerTeam
  {
    var s3 := UpToTier3(cands);
    if |s3| < PicksPerTeam {
      var reaching := Filter(cands, AtLeast(50.0));
      Exhausted(cands);
      forall y | y in reaching ensures y in s3 {
        InFilter(cands, AtLeast(50.0), y);
      }
      FilterDistinct(cands, AtLeast(50.0));
      TiersDistinct(cands);
      WithinLength(reaching, s3);
    }
  }

  /**
   * When three distinct candidates reach 50%, the picks are three of them
   * and no candidate left out is likelier than a pick.
   */
  lemma TopThreeWhenThreeReachFifty(cands: seq<Candidate>)
    requires Distinct(cands) && |Filter(cands, AtLeast(50.0))| >= PicksPerTeam
    ensures |Selection(cands)| == PicksPerTeam && TopSet(Selection(cands), cands)
    ensures AllReach(Selection(cands), 50.0)
  {
    ThreeReachFifty(cands);
    Tier3Top(cands);
  }

  /**
   * When three candidates reach 60%, the picks are the three likeliest of
   * them and no candidate left out is likelier.
   */
  lemma TopThreeWhenThreeReachSixty(cands: seq<Candidate>)
    requires |Filter(cands, AtLeast(60.0))| >= PicksPerTeam
    ensures Selection(cands) == Pool(cands, 60.0)[..PicksPerTeam]
    ensures TopSet(Selection(cands), cands) && AllReach(Selection(cands), 60.0)
  {
    assert |Pool(cands, 60.0)| == |Filter(cands, AtLeast(60.0))|;
    Tier1Top(cands);
  }

  // ---------------------------------------------------------------------
  // Tiers and flags
  // ---------------------------------------------------------------------

  /** The tier a win probability earns: 1 from 60%, 2 from 55%, 3 from 50%, else 4. */
  function ThresholdTier(w: real): (tier: int)
    ensures tier == 1 <==> w >= 60.0
    ensures tier == 2 <==> 55.0 <= w < 60.0
    ensures tier == 3 <==> 50.0 <= w < 55.0
    ensures tier == 4 <==> w < 50.0
  {
    if w >= 60.0 then 1 else if w >= 55.0 then 2 else if w >= 50.0 then 3 else 4
  }

  /** The flag that goes with a tier. */
  function TierFlag(tier: int): Option<string> {
    if tier == 3 then Some(RelaxedFlag) else if tier == 4 then Some(FallbackFlag) else None
  }

  /** A tier 1 or tier 2 pick is in neither marked pool; it is a tier 1 pick exactly from 60%. */
  lemma EarlyPick(cands: seq<Candidate>, c: Candidate)
    requires c in UpToTier2(cands)
    ensures c !in RelaxedPool(cands) && c !in FallbackPool(cands)
    ensures c.winProbPct >= 55.0
    ensures c in UpToTier1(cands) <==> c.winProbPct >= 60.0
  {
    var s1 := UpToTier1(cands);
    var s2 := UpToTier2(cands);
    Tier1Top(cands);
    Tier2Top(cands);
    TierPool(cands, s2, 50.0);
    FallbackPoolFacts(cands);
    assert c in UpToTier3(cands);
    if c !in s1 {
      PoolsWithin(cands);
      Exhausted(cands);
    }
  }

  /** A tier 1 or tier 2 pick keeps no mark and gets the tier its probability earns. */
  lemma PickLabelsUpToTier2(cands: seq<Candidate>, c: Candidate)
    requires c in UpToTier2(cands)
    ensures FinalTier(c, cands, None) == Some(ThresholdTier(c.winProbPct))
    ensures MarkedFlag(c, cands, None) == TierFlag(ThresholdTier(c.winProbPct))
  {
    EarlyPick(cands, c);
    assert c in Selection(cands);
  }

  /** A tier 3 pick is in the relaxed pool and not the fallback one, and reaches 50% but not 55%. */
  lemma RelaxedPick(cands: seq<Candidate>, c: Candidate)
    requires c in UpToTier3(cands) && c !in UpToTier2(cands)
    ensures c in RelaxedPool(cands) && c !in FallbackPool(cands)
    ensures 50.0 <= c.winProbPct < 55.0
  {
    var s2 := UpToTier2(cands);
    InTake(RelaxedPool(cands), PicksPerTeam - |s2|, c);
    TierPool(cands, s2, 50.0);
    FallbackPoolFacts(cands);
    Exhausted(cands);
  }

  /** A tier 3 pick is marked relaxed. */
  lemma PickLabelsTier3(cands: seq<Candidate>, c: Candidate)
    requires c in UpToTier3(cands) && c !in UpToTier2(cands)
    ensures FinalTier(c, cands, None) == Some(ThresholdTier(c.winProbPct))
    ensures MarkedFlag(c, cands, None) == TierFlag(ThresholdTier(c.winProbPct))
  {
    RelaxedPick(cands, c);
    assert MarkedTier(c, cands, None) == Some(3);
    assert MarkedFlag(c, cands, None) == Some(RelaxedFlag);
  }

  /** A tier 4 pick is marked as a fallback, and its probability is below 50%. */
  lemma PickLabelsTier4(cands: seq<Candidate>, c: Candidate)
    requires c in Selection(cands) && c !in UpToTier3(cands)
    ensures FinalTier(c, cands, None) == Some(ThresholdTier(c.winProbPct))
    ensures MarkedFlag(c, cands, None) == TierFlag(ThresholdTier(c.winProbPct))
  {
    var s3 := UpToTier3(cands);
    Exhausted(cands);
    PoolsWithin(cands);
    InTake(FallbackPool(cands), PicksPerTeam - |s3|, c);
    assert c.winProbPct < 50.0;
  }

  /**
   * Starting from candidates without a tier or flag, every pick ends with
   * the tier its win probability earns and that tier's flag.
   */
  lemma PickLabels(cands: seq<Candidate>, c: Candidate)
    requires c in Selection(cands)
    ensures FinalTier(c, cands, None) == Some(ThresholdTier(c.winProbPct))
    ensures MarkedFlag(c, cands, None) == TierFlag(ThresholdTier(c.winProbPct))
  {
    if c in UpToTier2(cands) {
      PickLabelsUpToTier2(cands, c);
    } else if c in UpToTier3(cands) {
      PickLabelsTier3(cands, c);
    } else {
      PickLabelsTier4(cands, c);
    }
  }

  /**
   * The marks reach unselected candidates too: when tier 4 runs, every
   * candidate left out is marked as a fallback; when only tier 3 runs, every
   * candidate left out that reaches 50% is marked as relaxed; when neither
   * runs, nothing is marked.
   */
  lemma UnselectedMarks(cands: seq<Candidate>, c: Candidate, tier: Option<int>, flag: Option<string>)
    requires c in cands && c !in Selection(cands)
    ensures |UpToTier3(cands)| < PicksPerTeam ==>
      MarkedTier(c, cands, tier) == Some(4) && MarkedFlag(c, cands, flag) == Some(FallbackFlag)
    ensures |UpToTier2(cands)| < PicksPerTeam <= |UpToTier3(cands)| && c.winProbPct >= 50.0 ==>
      MarkedTier(c, cands, tier) == Some(3) && MarkedFlag(c, cands, flag) == Some(RelaxedFlag)
    ensures |UpToTier2(cands)| >= PicksPerTeam ==>
      MarkedTier(c, cands, tier) == tier && MarkedFlag(c, cands, flag) == flag
  {
    var s2 := UpToTier2(cands);
    var s3 := UpToTier3(cands);
    FallbackPoolFacts(cands);
    TierPool(cands, s2, 50.0);
    if |s3| < PicksPerTeam {
      assert c !in s3;
    } else if |s2| < PicksPerTeam && c.winProbPct >= 50.0 {
      assert c !in s2;
    }
  }

  // ---------------------------------------------------------------------
  // The "why" summary
  // ---------------------------------------------------------------------

  /** The GOAT factors a result carries. */
  datatype GoatFactors = GoatFactors(
    usagePct: Option<real>,
    tsPct: Option<real>,
    oppDrtg: Option<real>,
    leagueRank: Option<int>,
    clutchPpg: Option<real>)

  /** One part of the summary, before its numbers are formatted. */
  datatype Part =
    | Usage(pct: real)
    | EliteTs(ts: real)
    | Ts(ts: real)
    | VsDefense(desc: string, drtg: real)
    | TopTen(rank: int)
    | TopFifty(rank: int)
    | RankOnly(rank: int)
    | Clutch(ppg: real)
    | Edge(pts: real)

  /** A number that is present and non-zero. */
  predicate Truthy(x: Option<real>) {
    x.Some? && x.value != 0.0
  }

  /** How the opposing defense is described: weak from 114, strong up to 112. */
  function DefenseDesc(drtg: real): (d: string)
    ensures d == "weak DEF" <==> drtg >= 114.0
    ensures d == "strong DEF" <==> drtg <= 112.0
  {
    if drtg >= 114.0 then "weak DEF" else if drtg <= 112.0 then "strong DEF" else "DEF"
  }

  /** The part for a non-zero league rank: top 10, top 50, or the rank alone. */
  function RankPart(rank: int): (p: Part)
    ensures (p.TopTen? || p.TopFifty? || p.RankOnly?) && p.rank == rank
    ensures p.TopTen? <==> rank <= 10
    ensures p.TopFifty? <==> 10 < rank <= 50
  {
    if rank <= 10 then TopTen(rank) else if rank <= 50 then TopFifty(rank) else RankOnly(rank)
  }

  /** The part for a true-shooting fraction: elite from 0.62. */
  function TsPart(ts: real): (p: Part)
    ensures (p.EliteTs? || p.Ts?) && p.ts == ts
    ensures p.EliteTs? <==> ts >= 0.62
  {
    if ts >= 0.62 then EliteTs(ts) else Ts(ts)
  }

  // The part each factor adds: none when the factor is missing or zero.

  function UsageParts(usage: Option<real>): seq<Part> {
    if Truthy(usage) then [Usage(usage.value)] else []
  }

  function TsParts(ts: Option<real>): seq<Part> {
    if Truthy(ts) then [TsPart(ts.value)] else []
  }

  function DefenseParts(drtg: Option<real>): seq<Part> {
    if Truthy(drtg) then [VsDefense(DefenseDesc(drtg.value), drtg.value)] else []
  }

  function RankParts(rank: Option<int>): seq<Part> {
    if rank.Some? && rank.value != 0 then [RankPart(rank.value)] else []
  }

  /** Clutch scoring counts from 2.5 points. */
  function ClutchParts(clutch: Option<real>): seq<Part> {
    if Truthy(clutch) && clutch.value >= 2.5 then [Clutch(clutch.value)] else []
  }

  /** The edge counts whenever it is present, zero included. */
  function EdgeParts(edge: Option<real>): seq<Part> {
    if edge.Some? then [Edge(edge.value)] else []
  }

  /** The parts before the edge, one at most per factor, none of them an edge part. */
  function FactorParts(g: GoatFactors): (parts: seq<Part>)
    ensures |parts| <= 5
    ensures forall i :: 0 <= i < |parts| ==> !parts[i].Edge?
  {
    UsageParts(g.usagePct) + TsParts(g.tsPct) + DefenseParts(g.oppDrtg)
    + RankParts(g.leagueRank) + ClutchParts(g.clutchPpg)
  }

  /** The parts of `generate_why_summary`, in order. */
  function WhyParts(g: GoatFactors, edge: Option<real>): seq<Part> {
    FactorParts(g) + EdgeParts(edge)
  }

  /**
   * At most one part per factor, and the edge part, when the edge is
   * present, comes last and nowhere else.
   */
  lemma WhyPartsEdge(g: GoatFactors, edge: Option<real>)
    ensures |WhyParts(g, edge)| <= 6
    ensures edge.Some? <==> |WhyParts(g, edge)| > 0 && WhyParts(g, edge)[|WhyParts(g, edge)| - 1].Edge?
    ensures edge.Some? ==> WhyParts(g, edge)[|WhyParts(g, edge)| - 1] == Edge(edge.value)
    ensures forall i :: 0 <= i < |WhyParts(g, edge)| - 1 ==> !WhyParts(g, edge)[i].Edge?
  {
    var parts := WhyParts(g, edge);
    var front := FactorParts(g);
    forall i | 0 <= i < |front|
      ensures parts[i] == front[i]
    {
    }
  }

  /** The usage part, when usage counts, comes first. */
  lemma WhyPartsUsage(g: GoatFactors, edge: Option<real>)
    ensures Truthy(g.usagePct) <==> |WhyParts(g, edge)| > 0 && WhyParts(g, edge)[0].Usage?
    ensures Truthy(g.usagePct) ==> WhyParts(g, edge)[0] == Usage(g.usagePct.value)
  {
    var parts := WhyParts(g, edge);
    if !Truthy(g.usagePct) {
      assert forall p :: p in parts ==> !p.Usage?;
      if |parts| > 0 {
        assert parts[0] in parts;
      }
    }
  }

  /** Each part as `render` writes it. */
  function Rendered(parts: seq<Part>, render: Part -> string): (r: seq<string>)
    ensures |r| == |parts|
    ensures forall i :: 0 <= i < |parts| ==> r[i] == render(parts[i])
  {
    seq(|parts|, i requires 0 <= i < |parts| => render(parts[i]))
  }

  /** `" + ".join(parts[:-1]) + ". " + parts[-1]`, or "" without parts. */
  function Summary(parts: seq<string>): (r: string)
    ensures r == "" <==> |parts| == 0
    ensures |parts| > 0 ==>
      |r| >= |parts[|parts| - 1]| + 2 && r[|r| - |parts[|parts| - 1]| - 2..] == ". " + parts[|parts| - 1]
    ensures |parts| == 1 ==> r == ". " + parts[0]
  {
    if |parts| == 0 then ""
    else Text.Join(parts[..|parts| - 1], " + ") + ". " + parts[|parts| - 1]
  }

  /**
   * `generate_why_summary`: append a part per present factor, then join.
   * How a part's numbers are written is left to `render`.
   */
  method GenerateWhySummary(g: GoatFactors, edge: Option<real>, render: Part -> string) returns (summary: string)
    ensures summary == Summary(Rendered(WhyParts(g, edge), render))
  {
    var parts: seq<Part> := [];
    if Truthy(g.usagePct) {
      parts := parts + [Usage(g.usagePct.value)];
    }
    assert parts == UsageParts(g.usagePct);
    if Truthy(g.tsPct) {
      parts := parts + [TsPart(g.tsPct.value)];
    }
    assert parts == UsageParts(g.usagePct) + TsParts(g.tsPct);
    if Truthy(g.oppDrtg) {
      parts := parts + [VsDefense(DefenseDesc(g.oppDrtg.value), g.oppDrtg.value)];
    }
    assert parts == UsageParts(g.usagePct) + TsParts(g.tsPct) + DefenseParts(g.oppDrtg);
    if g.leagueRank.Some? && g.leagueRank.value != 0 {
      parts := parts + [RankPart(g.leagueRank.value)];
    }
    assert parts == UsageParts(g.usagePct) + TsParts(g.tsPct) + DefenseParts(g.oppDrtg)
      + RankParts(g.leagueRank);
    if Truthy(g.clutchPpg) && g.clutchPpg.value >= 2.5 {
      parts := parts + [Clutch(g.clutchPpg.value)];
    }
    assert parts == FactorParts(g);
    if edge.Some? {
      parts := parts + [Edge(edge.value)];
    }
    assert parts == WhyParts(g, edge);
    summary := Summary(Rendered(parts, render));
  }

  /** With an edge, the summary ends with ". " and the edge part. */
  lemma SummaryEndsWithEdge(g: GoatFactors, edge: real, render: Part -> string)
    ensures var r := Summary(Rendered(WhyParts(g, Some(edge)), render));
      |r| >= |render(Edge(edge))| + 2 && r[|r| - |render(Edge(edge))| - 2..] == ". " + render(Edge(edge))
  {
    WhyPartsEdge(g, Some(edge));
  }

  /** A result with only an edge gets ". " and the edge part alone. */
  lemma EdgeOnlySummary(edge: real, render: Part -> string)
    ensures Summary(Rendered(WhyParts(GoatFactors(None, None, None, None, None), Some(edge)), render))
      == ". " + render(Edge(edge))
  {
    var parts := WhyParts(GoatFactors(None, None, None, None, None), Some(edge));
    assert parts == [Edge(edge)];
    assert Rendered(parts, render) == [render(Edge(edge))];
  }
}
