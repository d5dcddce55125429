/** Whole runs of the voting and producer-pay actions. */
module PayRuns {
  import opened Basics
  import opened Tables
  import opened Ledger
  import opened Voting
  import opened VotingInvariant
  import opened ProducerPay
  import opened ProxyGraph
  import opened VotePayRuns

  /** Every action is admissible and drops no change of weight. */
  ghost predicate CleanRun(genesis: PayState, actions: seq<Action>)
    requires Proxies(genesis.votes.voters)
  {
    actions == [] ||
    var rest, a := actions[..|actions| - 1], actions[|actions| - 1];
    var s := Run(genesis, rest);
    && CleanRun(genesis, rest) && Admissible(a)
    && (ProxiesAcyclic(s.votes.voters); CleanAction(s.votes, a))
  }

  /** From an empty chain, whatever happens: proxies never form a cycle, a registered proxy never
      uses one, and a changed weight travels on without failing, as far as producers are listed. */
  lemma ProxiesAlwaysSound(genesis: PayState, actions: seq<Action>)
    requires Initial(genesis)
    ensures Proxies(genesis.votes.voters)
    ensures var s := Run(genesis, actions);
      && Acyclic(Edges(s.votes.voters))
      && (forall v | v in s.votes.voters && s.votes.voters[v].isProxy :: s.votes.voters[v].proxy == NO_NAME)
      && (forall v | v in s.votes.voters && Listed(s.votes) :: Propagate(s.votes, v).Ok?)
  {
    hide Acyclic;
    InitialProxies(genesis);
    var s := Run(genesis, actions);
    forall v | v in s.votes.voters && Listed(s.votes)
      ensures Propagate(s.votes, v).Ok?
    {
      PropagateSucceeds(s.votes, v);
    }
  }

  lemma InitialProxies(genesis: PayState)
    requires Initial(genesis)
    ensures Proxies(genesis.votes.voters)
  {
    assert RankOk(Edges(genesis.votes.voters), map[]);
  }

  lemma {:induction false} ReachableInv(genesis: PayState, actions: seq<Action>)
    requires Initial(genesis) && Proxies(genesis.votes.voters) && CleanRun(genesis, actions)
    ensures PayInv(Run(genesis, actions))
  {
    hide Exec, PayInv, CleanAction, Initial, Acyclic, Proxies, Edges;
    if actions == [] {
      InitialInv(genesis);
    } else {
      var rest, a := actions[..|actions| - 1], actions[|actions| - 1];
      ReachableInv(genesis, rest);
      var s := Run(genesis, rest);
      ProxiesAcyclic(s.votes.voters);
      if Exec(s, a).Ok? {
        ExecKeeps(s, a);
      }
    }
  }

  /** The tallies of votes, in every state of a clean run: each producer holds the weight of its
      direct voters, each proxy the weight of its users, and the total is theirs. */
  lemma TalliesExact(genesis: PayState, actions: seq<Action>)
    requires Initial(genesis) && Proxies(genesis.votes.voters) && CleanRun(genesis, actions)
    ensures var v := Run(genesis, actions).votes;
      && (forall q | q in v.producers :: v.producers[q].votes == SumOf(v.voters, DirectTo(q)))
      && (forall p | p in v.voters :: v.voters[p].proxied == SumOf(v.voters, LastTo(p)))
      && v.totalWeight == SumOf(v.producers, Votes)
    ensures SustainedRun(genesis, actions)
  {
    hide SumOf, Acyclic, Proxies, Run, CleanRun, SustainedRun;
    ReachableInv(genesis, actions);
    CleanRunSustained(genesis, actions);
  }

  /** A run that drops no change drives nobody's votes below zero either. */
  lemma {:induction false} CleanRunSustained(genesis: PayState, actions: seq<Action>)
    requires Initial(genesis) && Proxies(genesis.votes.voters) && CleanRun(genesis, actions)
    ensures SustainedRun(genesis, actions)
  {
    hide Exec, PayInv, CleanAction, SustainedAction, Initial, Acyclic, Proxies, Edges, Admissible;
    if actions != [] {
      var rest, a := actions[..|actions| - 1], actions[|actions| - 1];
      CleanRunSustained(genesis, rest);
      ReachableInv(genesis, rest);
      var s := Run(genesis, rest);
      ProxiesAcyclic(s.votes.voters);
      if Exec(s, a).Ok? {
        assert VoteInv(s.votes) by { PayVotes(s); }
        CleanSustained(s, a);
      }
    }
  }

  lemma PayVotes(s: PayState)
    requires PayInv(s)
    ensures VoteInv(s.votes)
  {
  }

  // ---------- producer pay ----------

  ghost predicate AllAdmissible(actions: seq<Action>) {
    forall i | 0 <= i < |actions| :: Admissible(actions[i])
  }

  lemma {:induction false} BooksBalance(genesis: PayState, actions: seq<Action>)
    requires Initial(genesis) && Proxies(genesis.votes.voters) && AllAdmissible(actions)
    ensures Books(Run(genesis, actions))
  {
    hide Exec, Books, Initial, Acyclic, Proxies, Edges, Admissible;
    if actions == [] {
      InitialBooks(genesis);
    } else {
      var rest, a := actions[..|actions| - 1], actions[|actions| - 1];
      assert AllAdmissible(rest) && Admissible(a);
      BooksBalance(genesis, rest);
      var s := Run(genesis, rest);
      ProxiesAcyclic(s.votes.voters);
      if Exec(s, a).Ok? {
        ExecBooks(s, a);
      }
    }
  }

  lemma InitialBooks(genesis: PayState)
    requires Initial(genesis)
    ensures Books(genesis)
  {
  }

  /** Producer pay is always funded. After any admissible actions, whatever became of votes and
      weights: unpaid blocks add up, the two pay accounts hold exactly the buckets, block pay is
      within its bucket, and after the first revision a claim succeeds exactly when its own checks
      and the filling of the buckets do. */
  lemma PayAlwaysFunded(genesis: PayState, actions: seq<Action>)
    requires Initial(genesis) && Proxies(genesis.votes.voters) && AllAdmissible(actions)
    ensures var s := Run(genesis, actions);
      && s.totalUnpaid == SumOf(s.votes.producers, Unpaid)
      && Holds(s.tokens, BPAY_ACCOUNT) == s.perBlock && Holds(s.tokens, VPAY_ACCOUNT) == s.perVote
      && (forall n | n in s.votes.producers :: 0 <= BlockPay(s, s.votes.producers[n]) <= s.perBlock)
      && (forall n: Name | !PayAccount(n) && s.revision > 0 ::
            ClaimRewards(s, n).Ok? <==> ClaimAllowed(s, n) && FillBuckets(s).Ok?)
  {
    hide SumOf, Acyclic, Proxies, Run, AllAdmissible, BlockPay, ClaimAllowed, FillBuckets, PayOut, ClaimRewards,
         Initial;
    BooksBalance(genesis, actions);
    var s := Run(genesis, actions);
    forall n | n in s.votes.producers
      ensures 0 <= BlockPay(s, s.votes.producers[n]) <= s.perBlock
    {
      BlockPayBounded(s, n);
    }
    forall n: Name | !PayAccount(n) && s.revision > 0
      ensures ClaimRewards(s, n).Ok? <==> ClaimAllowed(s, n) && FillBuckets(s).Ok?
    {
      ClaimSucceeds(s, n);
    }
  }

  lemma ClaimSucceeds(s: PayState, owner: Name)
    requires Books(s) && !PayAccount(owner) && s.revision > 0
    ensures ClaimRewards(s, owner).Ok? <==> ClaimAllowed(s, owner) && FillBuckets(s).Ok?
  {
    hide SumOf, FillBuckets, PayOut, Books;
    if ClaimAllowed(s, owner) && FillBuckets(s).Ok? {
      FillBooks(s);
      PayOutSucceeds(FillBuckets(s).value, owner);
    }
  }

  /** Before the first revision the same holds in every run that drops no change of weight. */
  lemma CleanClaimsFunded(genesis: PayState, actions: seq<Action>, owner: Name)
    requires Initial(genesis) && Proxies(genesis.votes.voters) && CleanRun(genesis, actions) && !PayAccount(owner)
    ensures var s := Run(genesis, actions); ClaimRewards(s, owner).Ok? <==> ClaimAllowed(s, owner) && FillBuckets(s).Ok?
  {
    hide Acyclic, Proxies, Run, CleanRun, Initial, FillBuckets, PayOut, Books, VoteInv;
    ReachableInv(genesis, actions);
    var s := Run(genesis, actions);
    if ClaimAllowed(s, owner) && FillBuckets(s).Ok? {
      FillBooks(s);
      ExactPayOut(FillBuckets(s).value, owner);
    }
  }

  /** Within a run that drives no counted votes below zero, a claimant's share never exceeds the
      global share, so the clamp on vote pay never fires. */
  lemma ShareWithinTotal(genesis: PayState, actions: seq<Action>, owner: Name)
    requires Initial(genesis) && Proxies(genesis.votes.voters) && AllAdmissible(actions)
    requires SustainedRun(genesis, actions)
    requires Run(genesis, actions).revision > 0 && owner in Run(genesis, actions).votes.producers
    ensures var s := Run(genesis, actions); var total := UpdateTotalShare(s.votes, 0, 0).totalShare;
      && 0 <= SharesAt(s.votes.now)(s.votes.producers[owner]) <= total
      && (total > 0 ==> (SharesAt(s.votes.now)(s.votes.producers[owner]) * s.perVote) / total <= s.perVote)
  {
    hide SumOf, Acyclic, Proxies, Run, AllAdmissible, SustainedRun, Initial, UpdateTotalShare, UpdateShare, VotePayment;
    var s := Run(genesis, actions);
    BooksBalance(genesis, actions);
    VotePayExact(genesis, actions);
    VotePayBounded(s, owner);
    ClaimedShare(s.votes.producers[owner], s.votes.now);
  }
}
