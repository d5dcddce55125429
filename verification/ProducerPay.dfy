/** Block counting, inflation buckets and producer pay, on top of the voting tables. */
module ProducerPay {
  import opened Basics
  import opened Arithmetic
  import opened Tables
  import opened Ledger
  import opened Voting
  import opened VotingInvariant
  import opened VotingProofs
  import opened VoteCast

  const SYSTEM_ACCOUNT: Name := 0x5530ea0000000000
  const SAVING_ACCOUNT: Name := 0x5530ea0306dba6c0
  const BPAY_ACCOUNT: Name := 0x5530ea00f5378000
  const VPAY_ACCOUNT: Name := 0x5530ea0375378000

  const MIN_PERVOTE_DAILY_PAY: int := 100_0000
  const MIN_ACTIVATED_STAKE: int := 150_000_000_0000
  const MICROS_PER_YEAR: int := 31_449_600_000_000

  datatype PayState = PayState(
    votes: VoteState, tokens: map<Name, nat>, supply: int, maxSupply: int,
    perBlock: int, perVote: int, totalUnpaid: int, lastFill: nat, revision: nat)

  // ---------- filling the buckets ----------

  /** Inflation since the last fill, at a continuous rate of 0.04879 a year. */
  function NewTokens(s: PayState): int {
    (4879 * s.supply * (s.votes.now - s.lastFill)) / (100_000 * MICROS_PER_YEAR)
  }

  function Issue(tokens: map<Name, nat>, amount: nat): map<Name, nat> {
    tokens[SYSTEM_ACCOUNT := Holds(tokens, SYSTEM_ACCOUNT) + amount]
  }

  function FillBuckets(s: PayState): Result<PayState> {
    if s.votes.now > s.lastFill && s.lastFill > 0 then
      var newTokens := NewTokens(s);
      var toProducers := newTokens / 5;
      var toSavings := newTokens - toProducers;
      var toPerBlock := toProducers / 4;
      var toPerVote := toProducers - toPerBlock;
      :- Check(newTokens > 0);
      :- Check(newTokens <= s.maxSupply - s.supply);
      var t0 := Issue(s.tokens, newTokens);
      var t1 :- Transfer(t0, SYSTEM_ACCOUNT, SAVING_ACCOUNT, toSavings);
      var t2 :- Transfer(t1, SYSTEM_ACCOUNT, BPAY_ACCOUNT, toPerBlock);
      var t3 :- Transfer(t2, SYSTEM_ACCOUNT, VPAY_ACCOUNT, toPerVote);
      Ok(s.(tokens := t3, supply := s.supply + newTokens, perVote := s.perVote + toPerVote,
            perBlock := s.perBlock + toPerBlock, lastFill := s.votes.now))
    else Ok(s)
  }

  // ---------- claiming ----------

  function BlockPay(s: PayState, p: Producer): int {
    if s.totalUnpaid > 0 then (s.perBlock * p.unpaidBlocks) / s.totalUnpaid else 0
  }

  /** Pay for votes before the daily minimum: by share of accumulated vote time, or, before the
      first revision, by share of current votes. */
  function VotePayment(s: PayState, p: Producer, share: int, crossed: bool): int {
    if s.revision > 0 then
      if s.votes.totalShare > 0 && !crossed then Min(s.perVote, (share * s.perVote) / s.votes.totalShare) else 0
    else if s.votes.totalWeight > 0 then (s.perVote * p.votes) / s.votes.totalWeight else 0
  }

  function PayIf(tokens: map<Name, nat>, from: Name, to: Name, amount: int): Result<map<Name, nat>> {
    if amount > 0 then Transfer(tokens, from, to, amount) else Ok(tokens)
  }

  /** The checks on a claim itself. */
  predicate ClaimAllowed(s: PayState, owner: Name) {
    && owner in s.votes.producers && s.votes.producers[owner].isActive
    && s.votes.totalActivated >= MIN_ACTIVATED_STAKE
    && s.votes.now - s.votes.producers[owner].lastClaim > DAY_MICROS
  }

  function ClaimRewards(s: PayState, owner: Name): Result<PayState> {
    if !ClaimAllowed(s, owner) then Abort else
    var s1 :- FillBuckets(s);
    PayOut(s1, owner)
  }

  /** The voting tables after a claim, and the pay for votes. */
  function ClaimVotes(s: PayState, owner: Name): (VoteState, int)
    requires owner in s.votes.producers
  {
    var p := s.votes.producers[owner];
    var crossed := p.lastClaim + THREE_DAYS <= s.votes.now;
    var updatedAfter := p.lastClaim + THREE_DAYS <= p.lastUpdate;
    var (p1, share) := UpdateShare(p, s.votes.now, if updatedAfter then 0 else p.votes, true);
    var v1 := if s.revision > 0 then UpdateTotalShare(s.votes, 0, 0) else s.votes;
    var wanted := VotePayment(s.(votes := v1), p, share, crossed);
    var v2 := UpdateTotalShare(v1, -share, if updatedAfter then p.votes else 0);
    (v2.(producers := v2.producers[owner := p1.(lastClaim := s.votes.now, unpaidBlocks := 0)]),
     if wanted < MIN_PERVOTE_DAILY_PAY then 0 else wanted)
  }

  function PayOut(s: PayState, owner: Name): Result<PayState>
    requires owner in s.votes.producers
  {
    var p := s.votes.producers[owner];
    var blockPay := BlockPay(s, p);
    var (votes, votePay) := ClaimVotes(s, owner);
    var t1 :- PayIf(s.tokens, BPAY_ACCOUNT, owner, blockPay);
    var t2 :- PayIf(t1, VPAY_ACCOUNT, owner, votePay);
    Ok(s.(votes := votes, tokens := t2, perVote := s.perVote - votePay, perBlock := s.perBlock - blockPay,
          totalUnpaid := s.totalUnpaid - p.unpaidBlocks))
  }

  /** The counting part of `onblock`. */
  function OnBlock(s: PayState, producer: Name): PayState {
    if s.votes.totalActivated < MIN_ACTIVATED_STAKE then s
    else
      var s1 := if s.lastFill == 0 then s.(lastFill := s.votes.now) else s;
      if producer in s1.votes.producers then
        var p := s1.votes.producers[producer];
        s1.(totalUnpaid := s1.totalUnpaid + 1,
            votes := s1.votes.(producers := s1.votes.producers[producer := p.(unpaidBlocks := p.unpaidBlocks + 1)]))
      else s1
  }

  // ---------- actions ----------

  datatype Action =
    | Tick(micros: nat)
    | Vote(voter: Name, proxy: Name, names: seq<Name>)
    | RegProxy(voter: Name, isProxy: bool)
    | Stake(voter: Name, delta: int)
    | SyncRexStake(voter: Name, delta: int)
    | RegProducer(producer: Name)
    | UnregProducer(producer: Name)
    | Block(producer: Name)
    | Claim(producer: Name)
    | SetRevision(revision: nat)
    | Outside(from: Name, to: Name, quantity: int)

  function OnVotes(s: PayState, r: Result<VoteState>): Result<PayState> {
    var v :- r;
    Ok(s.(votes := v))
  }

  function Exec(s: PayState, a: Action): Result<PayState>
    requires Acyclic(Edges(s.votes.voters))
  {
    match a
    case Tick(micros) => Ok(s.(votes := s.votes.(now := s.votes.now + micros)))
    case Vote(voter, proxy, names) => OnVotes(s, UpdateVotes(s.votes, voter, proxy, names, true))
    case RegProxy(voter, isProxy) => OnVotes(s, RegisterProxy(s.votes, voter, isProxy))
    case Stake(voter, delta) => OnVotes(s, ChangeStake(s.votes, voter, delta))
    case SyncRexStake(voter, delta) => Ok(s.(votes := SyncStake(s.votes, voter, delta)))
    case RegProducer(producer) => Ok(s.(votes := RegisterProducer(s.votes, producer)))
    case UnregProducer(producer) => OnVotes(s, UnregisterProducer(s.votes, producer))
    case Block(producer) => Ok(OnBlock(s, producer))
    case Claim(producer) => ClaimRewards(s, producer)
    case SetRevision(revision) =>
      :- Check(s.revision < 255);
      :- Check(revision == s.revision + 1);
      :- Check(revision <= 1);
      Ok(s.(revision := revision))
    case Outside(from, to, quantity) =>
      var tokens :- Transfer(s.tokens, from, to, quantity);
      Ok(s.(tokens := tokens))
  }

  // ---------- the invariant ----------

  /** The two pay accounts hold exactly the buckets, and unpaid blocks add up. Votes have no part
      in this. */
  ghost predicate Books(s: PayState) {
    && s.totalUnpaid == SumOf(s.votes.producers, Unpaid)
    && Holds(s.tokens, BPAY_ACCOUNT) == s.perBlock && Holds(s.tokens, VPAY_ACCOUNT) == s.perVote
  }

  ghost predicate PayInv(s: PayState) {
    VoteInv(s.votes) && Books(s)
  }

  predicate PayAccount(n: Name) {
    n == BPAY_ACCOUNT || n == VPAY_ACCOUNT
  }

  /** Names are not empty; the pay accounts neither produce blocks nor transfer on their own. */
  predicate Admissible(a: Action) {
    match a
    case Vote(voter, _, _) => voter != NO_NAME
    case RegProxy(voter, _) => voter != NO_NAME
    case Stake(voter, _) => voter != NO_NAME
    case Claim(producer) => !PayAccount(producer)
    case Outside(from, to, _) => !PayAccount(from) && !PayAccount(to)
    case _ => true
  }

  /** The action drops no change of weight that is not zero. */
  ghost predicate CleanAction(s: VoteState, a: Action)
    requires Acyclic(Edges(s.voters))
  {
    match a
    case Vote(voter, proxy, _) => CleanVote(s, voter, proxy)
    case RegProxy(voter, isProxy) => voter in s.voters ==> CleanRegistration(s, voter, isProxy)
    case Stake(voter, delta) => CleanStakeChange(s, voter, delta)
    case _ => true
  }

  lemma FillBooks(s: PayState)
    requires Books(s) && FillBuckets(s).Ok?
    ensures Books(FillBuckets(s).value) && FillBuckets(s).value.votes == s.votes
    ensures FillBuckets(s).value.revision == s.revision
  {
    hide SumOf, NewTokens;
    if s.votes.now > s.lastFill && s.lastFill > 0 {
      var newTokens := NewTokens(s);
      var toProducers := newTokens / 5;
      var toPerBlock := toProducers / 4;
      var t0 := Issue(s.tokens, newTokens);
      TransferMoves(t0, SYSTEM_ACCOUNT, SAVING_ACCOUNT, newTokens - toProducers);
      var t1 := Transfer(t0, SYSTEM_ACCOUNT, SAVING_ACCOUNT, newTokens - toProducers).value;
      TransferMoves(t1, SYSTEM_ACCOUNT, BPAY_ACCOUNT, toPerBlock);
      var t2 := Transfer(t1, SYSTEM_ACCOUNT, BPAY_ACCOUNT, toPerBlock).value;
      TransferMoves(t2, SYSTEM_ACCOUNT, VPAY_ACCOUNT, toProducers - toPerBlock);
    }
  }

  /** The inflation split adds up exactly: savings, block pay and vote pay are the new tokens. */
  lemma SplitExact(s: PayState)
    requires FillBuckets(s).Ok? && s.votes.now > s.lastFill && s.lastFill > 0
    ensures var s1 := FillBuckets(s).value;
      && s1.supply == s.supply + NewTokens(s)
      && Holds(s1.tokens, SYSTEM_ACCOUNT) == Holds(s.tokens, SYSTEM_ACCOUNT)
      && (Holds(s1.tokens, SAVING_ACCOUNT) - Holds(s.tokens, SAVING_ACCOUNT)) + (s1.perBlock - s.perBlock)
          + (s1.perVote - s.perVote)
         == NewTokens(s)
      && Supply(s1.tokens) == Supply(s.tokens) + NewTokens(s)
  {
    hide NewTokens, Supply;
    var newTokens := NewTokens(s);
    var toProducers := newTokens / 5;
    var toPerBlock := toProducers / 4;
    IssueAdds(s.tokens, newTokens);
    var t0 := Issue(s.tokens, newTokens);
    TransferMoves(t0, SYSTEM_ACCOUNT, SAVING_ACCOUNT, newTokens - toProducers);
    var t1 := Transfer(t0, SYSTEM_ACCOUNT, SAVING_ACCOUNT, newTokens - toProducers).value;
    TransferMoves(t1, SYSTEM_ACCOUNT, BPAY_ACCOUNT, toPerBlock);
    var t2 := Transfer(t1, SYSTEM_ACCOUNT, BPAY_ACCOUNT, toPerBlock).value;
    TransferMoves(t2, SYSTEM_ACCOUNT, VPAY_ACCOUNT, toProducers - toPerBlock);
  }

  lemma IssueAdds(tokens: map<Name, nat>, amount: nat)
    ensures Supply(Issue(tokens, amount)) == Supply(tokens) + amount
  {
    SumStore<Name, nat>(tokens, Units, SYSTEM_ACCOUNT, Holds(tokens, SYSTEM_ACCOUNT) + amount);
  }

  // ---------- pay is always funded ----------

  /** A claimant's block pay is within its bucket. */
  lemma BlockPayBounded(s: PayState, owner: Name)
    requires Books(s) && owner in s.votes.producers
    ensures 0 <= BlockPay(s, s.votes.producers[owner]) <= s.perBlock
    ensures s.totalUnpaid >= s.votes.producers[owner].unpaidBlocks
  {
    hide SumOf;
    SumBoundsRow(s.votes.producers, Unpaid, owner);
    if s.totalUnpaid > 0 {
      FloorShare(s.votes.producers[owner].unpaidBlocks, s.perBlock, s.totalUnpaid);
    }
  }

  /** The claimant's up-to-date share is what the sum of shares contains for it. */
  lemma ClaimedShare(p: Producer, now: nat)
    requires ProducerOk(p, now)
    ensures var updatedAfter := p.lastClaim + THREE_DAYS <= p.lastUpdate;
      var share := UpdateShare(p, now, if updatedAfter then 0 else p.votes, true).1;
      share == SharesAt(now)(p) >= 0
  {
    AccruedShare(p, now);
  }

  /** Vote pay is within its bucket. After the first revision the claimant's share is at most the
      global share, so the clamp never fires; before it, the claimant's votes are part of the total. */
  lemma VotePayBounded(s: PayState, owner: Name)
    requires VotePay(s.votes, Tab(0, 0)) && s.perVote >= 0 && owner in s.votes.producers
    requires s.revision > 0 || s.votes.totalWeight == SumOf(s.votes.producers, Votes)
    ensures var p := s.votes.producers[owner];
      var crossed := p.lastClaim + THREE_DAYS <= s.votes.now;
      var updatedAfter := p.lastClaim + THREE_DAYS <= p.lastUpdate;
      var share := UpdateShare(p, s.votes.now, if updatedAfter then 0 else p.votes, true).1;
      var v1 := if s.revision > 0 then UpdateTotalShare(s.votes, 0, 0) else s.votes;
      && 0 <= VotePayment(s.(votes := v1), p, share, crossed) <= s.perVote
      && (s.revision > 0 ==>
          share <= v1.totalShare && (v1.totalShare > 0 ==> (share * s.perVote) / v1.totalShare <= s.perVote))
  {
    hide SumOf;
    var v := s.votes;
    var p := v.producers[owner];
    ClaimedShare(p, v.now);
    UpdateTotalShareKeeps(v, Tab(0, 0));
    forall q | q in v.producers
      ensures SharesAt(v.now)(v.producers[q]) >= 0 && Votes(v.producers[q]) >= 0
    {
      ShareNonNegative(v.producers[q], v.now);
    }
    SumBoundsRow(v.producers, SharesAt(v.now), owner);
    SumBoundsRow(v.producers, Votes, owner);
    if s.revision > 0 {
      var total := UpdateTotalShare(v, 0, 0).totalShare;
      if total > 0 {
        FloorShare(SharesAt(v.now)(p), s.perVote, total);
      }
    } else if v.totalWeight > 0 {
      FloorShare(p.votes, s.perVote, v.totalWeight);
    }
  }

  /** Vote pay is nothing or at least the daily minimum; after the first revision it is within its
      bucket whatever the votes and shares are. */
  lemma VotePayWithinBucket(s: PayState, owner: Name)
    requires s.perVote >= 0 && owner in s.votes.producers
    ensures ClaimVotes(s, owner).1 == 0 || ClaimVotes(s, owner).1 >= MIN_PERVOTE_DAILY_PAY
    ensures s.revision > 0 ==> ClaimVotes(s, owner).1 <= s.perVote
  {
    hide UpdateTotalShare, UpdateShare;
  }

  /** A pay-out fails exactly when the vote pay exceeds its bucket, which is impossible after the
      first revision; otherwise both pay accounts hold what is owed, and hold the buckets after. */
  lemma PayOutSucceeds(s: PayState, owner: Name)
    requires Books(s) && owner in s.votes.producers && !PayAccount(owner)
    ensures PayOut(s, owner).Ok? <==> ClaimVotes(s, owner).1 <= s.perVote
    ensures s.revision > 0 ==> PayOut(s, owner).Ok?
    ensures PayOut(s, owner).Ok? ==>
      var s1 := PayOut(s, owner).value;
      Holds(s1.tokens, BPAY_ACCOUNT) == s1.perBlock && Holds(s1.tokens, VPAY_ACCOUNT) == s1.perVote
  {
    hide SumOf, BlockPay, ClaimVotes;
    BlockPayBounded(s, owner);
    VotePayWithinBucket(s, owner);
    var blockPay := BlockPay(s, s.votes.producers[owner]);
    if blockPay > 0 {
      TransferMoves(s.tokens, BPAY_ACCOUNT, owner, blockPay);
    }
    var t1 := PayIf(s.tokens, BPAY_ACCOUNT, owner, blockPay).value;
    var votePay := ClaimVotes(s, owner).1;
    if 0 < votePay <= s.perVote {
      TransferMoves(t1, VPAY_ACCOUNT, owner, votePay);
    }
  }

  /** With exact tallies or after the first revision, every pay-out succeeds. */
  lemma ExactPayOut(s: PayState, owner: Name)
    requires PayInv(s) && owner in s.votes.producers && !PayAccount(owner)
    ensures PayOut(s, owner).Ok?
  {
    hide SumOf, VotePay, VotersOk, UpdateTotalShare, UpdateShare, VotePayment;
    VotePayBounded(s, owner);
    PayOutSucceeds(s, owner);
  }

  // ---------- vote pay through claims ----------

  /** The row a claim leaves: counted again, with nothing accrued, and what that does to the sums. */
  lemma ClaimedRow(p: Producer, now: nat)
    requires ProducerOk(p, now)
    ensures var updatedAfter := p.lastClaim + THREE_DAYS <= p.lastUpdate;
      var (p1, share) := UpdateShare(p, now, if updatedAfter then 0 else p.votes, true);
      var p2 := p1.(lastClaim := now, unpaidBlocks := 0);
      && ProducerOk(p2, now) && p2.votes == p.votes
      && CountedVotes(p2) - CountedVotes(p) == (if updatedAfter then p.votes else 0)
      && SharesAt(now)(p2) - SharesAt(now)(p) == -share
  {
    AccruedShare(p, now);
    assert p.votes * (now - now) == 0;
  }

  lemma ClaimRowPay(v: VoteState, owner: Name)
    requires VotePay(v, Tab(0, 0)) && owner in v.producers
    ensures var p := v.producers[owner];
      var updatedAfter := p.lastClaim + THREE_DAYS <= p.lastUpdate;
      var (p1, share) := UpdateShare(p, v.now, if updatedAfter then 0 else p.votes, true);
      VotePay(v.(producers := v.producers[owner := p1.(lastClaim := v.now, unpaidBlocks := 0)]),
        Tab(if updatedAfter then p.votes else 0, share))
  {
    hide SumOf, ProducerOk, SharesAt, CountedVotes, UpdateShare;
    var p := v.producers[owner];
    ClaimedRow(p, v.now);
    var updatedAfter := p.lastClaim + THREE_DAYS <= p.lastUpdate;
    var p2 := UpdateShare(p, v.now, if updatedAfter then 0 else p.votes, true).0.(lastClaim := v.now,
      unpaidBlocks := 0);
    SumStore(v.producers, CountedVotes, owner, p2);
    SumStore(v.producers, SharesAt(v.now), owner, p2);
  }

  /** A pay-out keeps the vote-pay accounting exact. */
  lemma PayOutPay(s: PayState, owner: Name)
    requires VotePay(s.votes, Tab(0, 0)) && owner in s.votes.producers
    ensures VotePay(ClaimVotes(s, owner).0, Tab(0, 0))
  {
    hide SumOf, VotePay, UpdateTotalShare, UpdateShare, VotePayment;
    var p := s.votes.producers[owner];
    var updatedAfter := p.lastClaim + THREE_DAYS <= p.lastUpdate;
    var (p1, share) := UpdateShare(p, s.votes.now, if updatedAfter then 0 else p.votes, true);
    var p2 := p1.(lastClaim := s.votes.now, unpaidBlocks := 0);
    UpdateTotalShareKeeps(s.votes, Tab(0, 0));
    TotalsOnly(s.votes, Tab(0, 0));
    var v1 := if s.revision > 0 then UpdateTotalShare(s.votes, 0, 0) else s.votes;
    ClaimRowPay(v1, owner);
    var a := v1.(producers := v1.producers[owner := p2]);
    var tab := Tab(if updatedAfter then p.votes else 0, share);
    UpdateTotalShareKeeps(a, tab);
    TotalsCommute(v1, a, share, tab.rate);
  }

  /** A pay-out changes one producer row, not its votes, and the global counters. */
  lemma PayOutVotes(s: PayState, owner: Name)
    requires VoteInv(s.votes) && owner in s.votes.producers
    ensures VoteInv(ClaimVotes(s, owner).0)
  {
    hide SumOf, VotePay, Tally, VotersOk, UpdateTotalShare, UpdateShare, VotePayment;
    var p := s.votes.producers[owner];
    var updatedAfter := p.lastClaim + THREE_DAYS <= p.lastUpdate;
    var (p1, share) := UpdateShare(p, s.votes.now, if updatedAfter then 0 else p.votes, true);
    var p2 := p1.(lastClaim := s.votes.now, unpaidBlocks := 0);
    PayOutPay(s, owner);
    TotalsOnly(s.votes, Tab(0, 0));
    var v1 := if s.revision > 0 then UpdateTotalShare(s.votes, 0, 0) else s.votes;
    TotalsOnly(v1, Tab(if updatedAfter then p.votes else 0, share));
    assert p2.votes == p.votes by { UpdateShareKeepsVotes(p, s.votes.now, if updatedAfter then 0 else p.votes); }
    ClaimTally(s.votes, ClaimVotes(s, owner).0, owner, p2);
  }

  lemma UpdateShareKeepsVotes(p: Producer, now: nat, rate: int)
    ensures UpdateShare(p, now, rate, true).0.votes == p.votes
  {
  }

  /** The global counters do not depend on the producer rows. */
  lemma TotalsCommute(v: VoteState, a: VoteState, share: int, rate: int)
    requires a == v.(producers := a.producers)
    ensures UpdateTotalShare(v, -share, rate).(producers := a.producers) == UpdateTotalShare(a, -share, rate)
    ensures UpdateTotalShare(v, -share, rate).producers == v.producers
  {
  }

  lemma ClaimTally(v: VoteState, v1: VoteState, owner: Name, p2: Producer)
    requires VotersOk(v) && Tally(v, map[]) && owner in v.producers && p2.votes == v.producers[owner].votes
    requires v1 == v.(producers := v.producers[owner := p2], totalShare := v1.totalShare, shareRate := v1.shareRate,
      lastVpay := v1.lastVpay)
    ensures VotersOk(v1) && Tally(v1, map[])
  {
    hide SumOf, LastTo, DirectTo, Acyclic;
    SumStore(v.producers, Votes, owner, p2);
    VotersUnchanged(v, v1);
  }

  lemma ClaimBooks(s: PayState, owner: Name)
    requires Books(s) && !PayAccount(owner) && ClaimRewards(s, owner).Ok?
    ensures Books(ClaimRewards(s, owner).value)
  {
    hide SumOf, PayOut, FillBuckets;
    FillBooks(s);
    var s1 := FillBuckets(s).value;
    PayOutSucceeds(s1, owner);
    PayOutUnpaid(s1, owner);
  }

  lemma ClaimKeeps(s: PayState, owner: Name)
    requires PayInv(s) && !PayAccount(owner) && ClaimRewards(s, owner).Ok?
    ensures PayInv(ClaimRewards(s, owner).value)
  {
    hide SumOf, VoteInv, FillBuckets, ClaimVotes, BlockPay, PayIf;
    ClaimBooks(s, owner);
    FillBooks(s);
    PayOutVotes(FillBuckets(s).value, owner);
  }

  lemma PayOutUnpaid(s: PayState, owner: Name)
    requires s.totalUnpaid == SumOf(s.votes.producers, Unpaid) && owner in s.votes.producers && PayOut(s, owner).Ok?
    ensures var s1 := PayOut(s, owner).value; s1.totalUnpaid == SumOf(s1.votes.producers, Unpaid)
  {
    hide SumOf, PayIf, VotePayment, BlockPay;
    var s1 := PayOut(s, owner).value;
    SumStore(s.votes.producers, Unpaid, owner, s1.votes.producers[owner]);
  }

  // ---------- the other actions ----------

  /** One more unpaid block. */
  lemma BlockBooks(s: PayState, producer: Name)
    requires Books(s)
    ensures Books(OnBlock(s, producer))
  {
    hide SumOf;
    if s.votes.totalActivated >= MIN_ACTIVATED_STAKE && producer in s.votes.producers {
      var p := s.votes.producers[producer];
      SumStore(s.votes.producers, Unpaid, producer, p.(unpaidBlocks := p.unpaidBlocks + 1));
    }
  }

  lemma BlockPays(s: PayState, producer: Name)
    requires VotePay(s.votes, Tab(0, 0))
    ensures VotePay(OnBlock(s, producer).votes, Tab(0, 0))
  {
    hide SumOf, VotePay;
    if s.votes.totalActivated >= MIN_ACTIVATED_STAKE && producer in s.votes.producers {
      var p := s.votes.producers[producer];
      SameRowPay(s.votes, producer, p.(unpaidBlocks := p.unpaidBlocks + 1));
    }
  }

  lemma BlockVotes(s: PayState, producer: Name)
    requires VoteInv(s.votes)
    ensures VoteInv(OnBlock(s, producer).votes)
  {
    hide SumOf, Tally, VotersOk, Acyclic;
    if s.votes.totalActivated >= MIN_ACTIVATED_STAKE && producer in s.votes.producers {
      var p := s.votes.producers[producer];
      var p1 := p.(unpaidBlocks := p.unpaidBlocks + 1);
      ProducerRowKeeps(s.votes, producer, p1, s.votes.totalShare, s.votes.shareRate);
    }
  }

  /** Voting actions do not touch unpaid blocks. */
  lemma SameUnpaid(v: VoteState, v1: VoteState)
    requires SameProducers(v, v1)
    ensures SumOf(v1.producers, Unpaid) == SumOf(v.producers, Unpaid)
  {
    hide SumOf;
    SumCongruent(v1.producers, v.producers, Unpaid, Unpaid);
  }

  /** The books balance through every admissible action, whatever becomes of votes and weights. */
  lemma ExecBooks(s: PayState, a: Action)
    requires Books(s) && Admissible(a) && Acyclic(Edges(s.votes.voters)) && Exec(s, a).Ok?
    ensures Books(Exec(s, a).value)
  {
    hide SumOf, UpdateVotes, RegisterProxy, ChangeStake, ClaimRewards, OnBlock, RegisterProducer, UnregisterProducer,
         SyncStake, Acyclic, Edges, SameProducers;
    match a
    case Vote(voter, proxy, names) =>
      UpdateVotesProducers(s.votes, voter, proxy, names, true);
      SameUnpaid(s.votes, Exec(s, a).value.votes);
    case RegProxy(voter, isProxy) =>
      RegisterProxyProducers(s.votes, voter, isProxy);
      SameUnpaid(s.votes, Exec(s, a).value.votes);
    case Stake(voter, delta) =>
      ChangeStakeProducers(s.votes, voter, delta);
      SameUnpaid(s.votes, Exec(s, a).value.votes);
    case SyncRexStake(voter, delta) => SyncProducers(s.votes, voter, delta);
    case RegProducer(producer) => RegisterUnpaid(s.votes, producer);
    case UnregProducer(producer) =>
      assert producer in s.votes.producers by { UnregisterChecks(s.votes, producer); }
      UnregisterUnpaid(s.votes, producer);
    case Block(producer) => BlockBooks(s, producer);
    case Claim(producer) => ClaimBooks(s, producer);
    case Outside(from, to, quantity) => TransferMoves(s.tokens, from, to, quantity);
    case _ =>
  }

  /** Every admissible action that drops no change of weight keeps tallies, vote pay and books. */
  lemma ExecKeeps(s: PayState, a: Action)
    requires PayInv(s) && Admissible(a) && Acyclic(Edges(s.votes.voters)) && CleanAction(s.votes, a) && Exec(s, a).Ok?
    ensures PayInv(Exec(s, a).value)
  {
    hide SumOf, VoteInv, UpdateVotes, RegisterProxy, ChangeStake, ClaimRewards, OnBlock, RegisterProducer,
         UnregisterProducer, SyncStake, CleanVote, CleanStakeChange, CleanRegistration, Acyclic, Edges, Books;
    ExecBooks(s, a);
    match a
    case Tick(micros) => TimePasses(s.votes, micros);
    case Vote(voter, proxy, names) => UpdateVotesKeeps(s.votes, voter, proxy, names, true);
    case RegProxy(voter, isProxy) => RegisterProxyKeeps(s.votes, voter, isProxy);
    case Stake(voter, delta) => ChangeStakeKeeps(s.votes, voter, delta);
    case SyncRexStake(voter, delta) => SyncStakeKeeps(s.votes, voter, delta);
    case RegProducer(producer) => RegisterProducerKeeps(s.votes, producer);
    case UnregProducer(producer) =>
      assert producer in s.votes.producers by { UnregisterChecks(s.votes, producer); }
      UnregisterProducerKeeps(s.votes, producer);
    case Block(producer) => BlockVotes(s, producer);
    case Claim(producer) => ClaimKeeps(s, producer);
    case _ =>
  }

  lemma SyncProducers(v: VoteState, voter: Name, delta: int)
    ensures SyncStake(v, voter, delta).producers == v.producers
  {
  }

  lemma UnregisterChecks(v: VoteState, name: Name)
    requires UnregisterProducer(v, name).Ok?
    ensures name in v.producers
  {
  }

  lemma UnregisterUnpaid(v: VoteState, name: Name)
    requires name in v.producers
    ensures SumOf(UnregisterProducer(v, name).value.producers, Unpaid) == SumOf(v.producers, Unpaid)
  {
    hide SumOf;
    SumStore(v.producers, Unpaid, name, v.producers[name].(isActive := false));
  }

  lemma RegisterUnpaid(v: VoteState, name: Name)
    ensures SumOf(RegisterProducer(v, name).producers, Unpaid) == SumOf(v.producers, Unpaid)
  {
    hide SumOf;
    SumStore(v.producers, Unpaid, name, RegisterProducer(v, name).producers[name]);
  }

  // ---------- runs ----------

  /** The chain before the first vote, producer or claim. */
  predicate Initial(s: PayState) {
    && s.votes.now > 0 && s.votes.voters == map[] && s.votes.producers == map[] && s.votes.totalWeight == 0
    && s.votes.totalShare == 0 && s.votes.shareRate == 0 && s.votes.lastVpay <= s.votes.now
    && s.totalUnpaid == 0 && s.perBlock == 0 && s.perVote == 0
    && Holds(s.tokens, BPAY_ACCOUNT) == 0 && Holds(s.tokens, VPAY_ACCOUNT) == 0
  }

  lemma InitialInv(s: PayState)
    requires Initial(s)
    ensures PayInv(s)
  {
    InitialAcyclic(s.votes.voters);
    InitialPay(s.votes);
  }

  lemma InitialAcyclic(voters: map<Name, Voter>)
    requires voters == map[]
    ensures Acyclic(Edges(voters))
  {
    assert RankOk(Edges(voters), map[]);
  }

  lemma InitialPay(v: VoteState)
    requires v.producers == map[] && v.totalShare == 0 && v.shareRate == 0 && v.lastVpay <= v.now
    ensures VotePay(v, Tab(0, 0))
  {
  }
}
