/** What filling the buckets, counting blocks and claiming pay do to tokens, buckets and rows, in
    numbers. */
module PayEffects {
  import opened Basics
  import opened Arithmetic
  import opened Tables
  import opened Ledger
  import opened RexPool
  import opened Voting
  import opened ProducerPay

  // ---------- inflation ----------

  /** The buckets were filled: a fifth of the new tokens is for producers, a quarter of that by block
      and the rest by vote, and four fifths are saved. */
  ghost predicate Filled(s: PayState, s1: PayState, newTokens: int) {
    var toProducers := newTokens / 5;
    var toPerBlock := toProducers / 4;
    && s1 == s.(tokens := s1.tokens, supply := s.supply + newTokens, perBlock := s.perBlock + toPerBlock,
                perVote := s.perVote + toProducers - toPerBlock, lastFill := s.votes.now)
    && (forall n: Name :: Holds(s1.tokens, n) == Holds(s.tokens, n)
          + (if n == SAVING_ACCOUNT then newTokens - toProducers
             else if n == BPAY_ACCOUNT then toPerBlock
             else if n == VPAY_ACCOUNT then toProducers - toPerBlock else 0))
  }

  /** Inflation of 4.879 percent a year since the last fill, in whole units. */
  ghost predicate Inflation(s: PayState, n: int) {
    Rounded(n, 4879 * s.supply * (s.votes.now - s.lastFill), 3_144_960_000_000_000_000)
  }

  /** What filling leaves: once pay has started, new tokens in their places; before, nothing new. */
  ghost predicate BucketsFilled(s: PayState, s1: PayState, n: int) {
    if s.votes.now > s.lastFill > 0 then Inflation(s, n) && 20 <= n <= s.maxSupply - s.supply && Filled(s, s1, n)
    else s1 == s
  }

  /** Filling fails exactly when the new tokens exceed what may still be issued, or are so few that a
      part of them would be nothing. */
  lemma FillMoves(s: PayState) returns (n: int)
    ensures s.votes.now > s.lastFill > 0 ==> Inflation(s, n)
    ensures FillBuckets(s).Ok? <==> (s.votes.now > s.lastFill > 0 ==> 20 <= n <= s.maxSupply - s.supply)
    ensures FillBuckets(s).Ok? ==> BucketsFilled(s, FillBuckets(s).value, n)
  {
    hide Transfer;
    n := 0;
    if s.votes.now > s.lastFill && s.lastFill > 0 {
      n := NewTokens(s);
      Floor(4879 * s.supply * (s.votes.now - s.lastFill), 3_144_960_000_000_000_000);
      FillTransfers(s);
    }
  }

  lemma FillTransfers(s: PayState)
    requires s.votes.now > s.lastFill > 0
    ensures FillBuckets(s).Ok? <==> 20 <= NewTokens(s) <= s.maxSupply - s.supply
    ensures FillBuckets(s).Ok? ==> Filled(s, FillBuckets(s).value, NewTokens(s))
  {
    hide NewTokens;
    var n := NewTokens(s);
    if n < 20 {
      assert n / 5 / 4 <= 0;
    } else if n <= s.maxSupply - s.supply {
      FillSucceeds(s);
    }
  }

  lemma FillSucceeds(s: PayState)
    requires s.votes.now > s.lastFill > 0 && 20 <= NewTokens(s) <= s.maxSupply - s.supply
    ensures FillBuckets(s).Ok? && Filled(s, FillBuckets(s).value, NewTokens(s))
  {
    hide NewTokens;
    var n := NewTokens(s);
    var toProducers := n / 5;
    var toPerBlock := toProducers / 4;
    assert 1 <= toPerBlock < toProducers < n;
    var t0 := Issue(s.tokens, n);
    TransferMoves(t0, SYSTEM_ACCOUNT, SAVING_ACCOUNT, n - toProducers);
    var t1 := Transfer(t0, SYSTEM_ACCOUNT, SAVING_ACCOUNT, n - toProducers).value;
    TransferMoves(t1, SYSTEM_ACCOUNT, BPAY_ACCOUNT, toPerBlock);
    var t2 := Transfer(t1, SYSTEM_ACCOUNT, BPAY_ACCOUNT, toPerBlock).value;
    TransferMoves(t2, SYSTEM_ACCOUNT, VPAY_ACCOUNT, toProducers - toPerBlock);
  }

  // ---------- blocks ----------

  /** `onblock`: from an activated stake of 150 million tokens on, pay starts with the first block, and
      each block of a registered producer counts as one more unpaid block, its own and in total. */
  lemma BlockMoves(s: PayState, producer: Name)
    requires Acyclic(Edges(s.votes.voters))
    ensures Exec(s, Block(producer)).Ok?
    ensures var s1 := Exec(s, Block(producer)).value;
      if s.votes.totalActivated < 1_500_000_000_000 then s1 == s
      else
        && s1.lastFill == (if s.lastFill == 0 then s.votes.now else s.lastFill)
        && s1 == s.(lastFill := s1.lastFill, totalUnpaid := s1.totalUnpaid, votes := s1.votes)
        && s1.votes == s.votes.(producers := s1.votes.producers)
        && (producer in s.votes.producers ==>
              && s1.totalUnpaid == s.totalUnpaid + 1
              && s1.votes.producers == s.votes.producers[producer :=
                   s.votes.producers[producer].(unpaidBlocks := s.votes.producers[producer].unpaidBlocks + 1)])
        && (producer !in s.votes.producers ==> s1.totalUnpaid == s.totalUnpaid && s1.votes == s.votes)
  {
  }

  // ---------- claims ----------

  /** What a producer has accrued by `now`: its share, and its votes for the time since its last update
      if they were still counted then. */
  function Accrued(p: Producer, now: nat): int {
    p.share + if p.lastUpdate < p.lastClaim + 259_200_000_000 && p.votes > 0 && now > p.lastUpdate
              then p.votes * (now - p.lastUpdate) else 0
  }

  /** The global share by now; a negative rate never takes it below nothing. */
  function AccruedByAll(v: VoteState): int {
    v.totalShare + if v.now > v.lastVpay then v.shareRate * (v.now - v.lastVpay) else 0
  }

  /** What the claimant's part of the vote bucket comes to, before the daily minimum: after the first
      revision by accrued shares and only within three days of the last claim, before it by votes. */
  ghost predicate PartOfVotePay(s: PayState, p: Producer, w: int) {
    var v := s.votes;
    if s.revision > 0 then
      if p.lastClaim + 259_200_000_000 > v.now && AccruedByAll(v) > 0 then
        exists q: int :: Rounded(q, Accrued(p, v.now) * s.perVote, AccruedByAll(v)) && w == Min(s.perVote, q)
      else w == 0
    else if v.totalWeight > 0 then Rounded(w, s.perVote * p.votes, v.totalWeight)
    else w == 0
  }

  /** The claimant's part of the block bucket is that of its blocks in all unpaid blocks. */
  ghost predicate PartOfBlockPay(s: PayState, p: Producer, b: int) {
    if s.totalUnpaid > 0 then Rounded(b, s.perBlock * p.unpaidBlocks, s.totalUnpaid) else b == 0
  }

  /** A pay-out moves exactly `b` and `v` to the owner, and empties what they were paid for. */
  ghost predicate PaidOut(s: PayState, s1: PayState, owner: Name, b: int, v: int)
    requires owner in s.votes.producers
  {
    var p := s.votes.producers[owner];
    && (forall n: Name :: Holds(s1.tokens, n) == Holds(s.tokens, n)
          + (if n == owner then b + v else if n == BPAY_ACCOUNT then -b else if n == VPAY_ACCOUNT then -v else 0))
    && s1.perBlock == s.perBlock - b && s1.perVote == s.perVote - v
    && s1.totalUnpaid == s.totalUnpaid - p.unpaidBlocks
    && s1.votes.producers == s.votes.producers[owner :=
         p.(unpaidBlocks := 0, share := 0, lastClaim := s.votes.now, lastUpdate := s.votes.now)]
    && s1 == s.(tokens := s1.tokens, perBlock := s1.perBlock, perVote := s1.perVote, totalUnpaid := s1.totalUnpaid,
                votes := s1.votes)
    && s1.votes == s.votes.(producers := s1.votes.producers, totalShare := s1.votes.totalShare,
                            shareRate := s1.votes.shareRate, lastVpay := s.votes.now)
  }

  lemma PayOutMoves(s: PayState, owner: Name) returns (b: int, w: int)
    requires Books(s) && owner in s.votes.producers && !PayAccount(owner) && PayOut(s, owner).Ok?
    ensures var p := s.votes.producers[owner];
      && PartOfBlockPay(s, p, b) && 0 <= b <= s.perBlock && PartOfVotePay(s, p, w)
      && PaidOut(s, PayOut(s, owner).value, owner, b, if w >= 1_000_000 then w else 0)
  {
    hide Books, ClaimVotes, PartOfVotePay, Transfer, BlockPay;
    var p := s.votes.producers[owner];
    b := BlockPay(s, p);
    BlockPart(s, owner);
    w := VotePart(s, owner);
    var v := ClaimVotes(s, owner).1;
    if b > 0 {
      TransferMoves(s.tokens, BPAY_ACCOUNT, owner, b);
    }
    var t1 := PayIf(s.tokens, BPAY_ACCOUNT, owner, b).value;
    if v > 0 {
      TransferMoves(t1, VPAY_ACCOUNT, owner, v);
    }
    ClaimedTables(s, owner);
  }

  lemma BlockPart(s: PayState, owner: Name)
    requires Books(s) && owner in s.votes.producers
    ensures var b := BlockPay(s, s.votes.producers[owner]);
      PartOfBlockPay(s, s.votes.producers[owner], b) && 0 <= b <= s.perBlock
  {
    hide Books;
    BlockPayBounded(s, owner);
    if s.totalUnpaid > 0 {
      Floor(s.perBlock * s.votes.producers[owner].unpaidBlocks, s.totalUnpaid);
    }
  }

  lemma VotePart(s: PayState, owner: Name) returns (w: int)
    requires owner in s.votes.producers
    ensures PartOfVotePay(s, s.votes.producers[owner], w)
    ensures ClaimVotes(s, owner).1 == if w >= 1_000_000 then w else 0
  {
    var v, p := s.votes, s.votes.producers[owner];
    var updatedAfter := p.lastClaim + THREE_DAYS <= p.lastUpdate;
    var share := UpdateShare(p, v.now, if updatedAfter then 0 else p.votes, true).1;
    assert share == Accrued(p, v.now);
    var v1 := if s.revision > 0 then UpdateTotalShare(v, 0, 0) else v;
    w := VotePayment(s.(votes := v1), p, share, p.lastClaim + THREE_DAYS <= v.now);
    if s.revision > 0 {
      SettledTotal(v);
      if v1.totalShare > 0 && p.lastClaim + THREE_DAYS > v.now {
        Floor(share * s.perVote, v1.totalShare);
        assert Rounded((share * s.perVote) / v1.totalShare, share * s.perVote, v1.totalShare);
      }
    } else if v.totalWeight > 0 {
      Floor(s.perVote * p.votes, v.totalWeight);
    }
  }

  /** Settling brings the global share up to date; one that is not positive pays nobody. */
  lemma SettledTotal(v: VoteState)
    ensures var total := UpdateTotalShare(v, 0, 0).totalShare;
      if AccruedByAll(v) > 0 then total == AccruedByAll(v) else total <= 0
  {
  }

  lemma ClaimedTables(s: PayState, owner: Name)
    requires owner in s.votes.producers
    ensures var v1 := ClaimVotes(s, owner).0;
      v1 == s.votes.(
        producers := s.votes.producers[owner := s.votes.producers[owner].(
          unpaidBlocks := 0, share := 0, lastClaim := s.votes.now, lastUpdate := s.votes.now)],
        totalShare := v1.totalShare, shareRate := v1.shareRate, lastVpay := s.votes.now)
  {
    hide VotePayment;
    var v := s.votes;
    var p := v.producers[owner];
    var updatedAfter := p.lastClaim + THREE_DAYS <= p.lastUpdate;
    var (p1, share) := UpdateShare(p, v.now, if updatedAfter then 0 else p.votes, true);
    var v1 := if s.revision > 0 then UpdateTotalShare(v, 0, 0) else v;
    var v2 := UpdateTotalShare(v1, -share, if updatedAfter then p.votes else 0);
    assert v2.producers == v.producers;
  }

  /** The producer may claim: it is active, the chain is activated by a stake of 150 million tokens, and
      its last claim is more than a day ago. */
  predicate MayClaim(s: PayState, owner: Name) {
    && owner in s.votes.producers && s.votes.producers[owner].isActive
    && s.votes.totalActivated >= 1_500_000_000_000
    && s.votes.now - s.votes.producers[owner].lastClaim > 86_400_000_000
  }

  /** `claimrewards`, from the balances a claimant can read off the tables: the buckets are filled, and
      from them the claimant is paid its part of the block bucket, and its part of the vote bucket if
      that is at least 100 tokens. After the first revision a claim that may be made succeeds unless
      the buckets cannot be filled. */
  lemma ClaimMoves(s: PayState, owner: Name) returns (n: int, s0: PayState, b: int, w: int)
    requires Books(s) && Acyclic(Edges(s.votes.voters)) && !PayAccount(owner)
    ensures Exec(s, Claim(owner)).Ok? ==> MayClaim(s, owner)
    ensures s.votes.now > s.lastFill > 0 ==> Inflation(s, n)
    ensures MayClaim(s, owner) && (s.votes.now > s.lastFill > 0 ==> 20 <= n <= s.maxSupply - s.supply) ==>
      s.revision > 0 ==> Exec(s, Claim(owner)).Ok?
    ensures Exec(s, Claim(owner)).Ok? ==>
      && BucketsFilled(s, s0, n)
      && PartOfBlockPay(s0, s.votes.producers[owner], b) && 0 <= b <= s0.perBlock
      && PartOfVotePay(s0, s.votes.producers[owner], w)
      && PaidOut(s0, Exec(s, Claim(owner)).value, owner, b, if w >= 1_000_000 then w else 0)
  {
    hide Books, PayOut, FillBuckets, PartOfBlockPay, PartOfVotePay, PaidOut, Inflation, Acyclic, Edges, Filled;
    n := FillMoves(s);
    s0, b, w := s, 0, 0;
    if FillBuckets(s).Ok? {
      s0 := FillBuckets(s).value;
      FillBooks(s);
    }
    if MayClaim(s, owner) && FillBuckets(s).Ok? && s.revision > 0 {
      PayOutSucceeds(s0, owner);
    }
    if Exec(s, Claim(owner)).Ok? {
      b, w := PayOutMoves(s0, owner);
    }
  }

  // ---------- the revision ----------

  /** `updtrevision` goes from the first revision to the second, and no further. */
  lemma RevisionMoves(s: PayState, revision: nat)
    requires Acyclic(Edges(s.votes.voters))
    ensures Exec(s, SetRevision(revision)) ==
      if s.revision == 0 && revision == 1 then Ok(s.(revision := 1)) else Abort
  {
  }
}
