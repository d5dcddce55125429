/** Balances of the core token (eosio.token): transfers, issuing and retiring. */
module Ledger {
  import opened Basics
  import opened Tables

  function Holds(tokens: map<Name, nat>, owner: Name): nat {
    if owner in tokens then tokens[owner] else 0
  }

  /** Every transfer moves a positive amount between two different accounts. */
  function Transfer(tokens: map<Name, nat>, from: Name, to: Name, quantity: int): Result<map<Name, nat>> {
    if from == to then Abort else
    :- Check(quantity > 0);
    :- Check(from in tokens);
    :- Check(tokens[from] >= quantity);
    var debited := tokens[from := tokens[from] - quantity];
    Ok(debited[to := Holds(debited, to) + quantity])
  }

  function Units(amount: nat): int {
    amount
  }

  ghost function Supply(tokens: map<Name, nat>): int {
    SumOf<Name, nat>(tokens, Units)
  }

  /** A transfer moves exactly `quantity`, and only between the two accounts named. */
  lemma TransferMoves(tokens: map<Name, nat>, from: Name, to: Name, quantity: int)
    requires Transfer(tokens, from, to, quantity).Ok?
    ensures var after := Transfer(tokens, from, to, quantity).value;
      && Supply(after) == Supply(tokens)
      && (forall n: Name :: Holds(after, n) ==
            Holds(tokens, n) - (if n == from then quantity else 0) + (if n == to then quantity else 0))
  {
    var debited := tokens[from := tokens[from] - quantity];
    SumStore<Name, nat>(tokens, Units, from, tokens[from] - quantity);
    SumStore<Name, nat>(debited, Units, to, Holds(debited, to) + quantity);
  }

  /** No account holds more than the supply. */
  lemma HoldsAtMostSupply(tokens: map<Name, nat>, owner: Name)
    ensures Holds(tokens, owner) <= Supply(tokens)
  {
    SumBoundsRow<Name, nat>(tokens, Units, owner);
  }
}
