/** The core token's own contract (eosio.token), one symbol: the substrate of every balance claim. */
module Token {
  import opened Basics
  import opened Tables
  import opened Ledger

  /** The largest amount an asset may hold. */
  const MAX_AMOUNT: int := 0x3fff_ffff_ffff_ffff

  datatype Stat = Stat(issuer: Name, supply: int, maxSupply: int)

  datatype TokenState = TokenState(stat: Option<Stat>, accounts: map<Name, nat>)

  predicate IsValid(amount: int) {
    -MAX_AMOUNT <= amount <= MAX_AMOUNT
  }

  function SubBalance(accounts: map<Name, nat>, owner: Name, quantity: int): Result<map<Name, nat>>
    requires quantity >= 0
  {
    if owner !in accounts then Abort else
    :- Check(accounts[owner] >= quantity);
    Ok(accounts[owner := accounts[owner] - quantity])
  }

  /** Adding assets checks for overflow. */
  function AddBalance(accounts: map<Name, nat>, owner: Name, quantity: int): Result<map<Name, nat>>
    requires quantity >= 0
  {
    if owner in accounts && !IsValid(accounts[owner] + quantity) then Abort else
    Ok(accounts[owner := Holds(accounts, owner) + quantity])
  }

  function Create(s: TokenState, issuer: Name, maxSupply: int): Result<TokenState> {
    if !IsValid(maxSupply) then Abort else
    :- Check(maxSupply > 0);
    :- Check(s.stat.None?);
    Ok(s.(stat := Some(Stat(issuer, 0, maxSupply))))
  }

  function Move(s: TokenState, from: Name, to: Name, quantity: int, isAccount: bool): Result<TokenState> {
    if from == to then Abort else
    :- Check(isAccount);
    :- Check(s.stat.Some?);
    :- Check(IsValid(quantity));
    :- Check(quantity > 0);
    var debited :- SubBalance(s.accounts, from, quantity);
    var credited :- AddBalance(debited, to, quantity);
    Ok(s.(accounts := credited))
  }

  function Issue(s: TokenState, to: Name, quantity: int, isAccount: bool): Result<TokenState> {
    if s.stat.None? then Abort else
    var st := s.stat.value;
    :- Check(IsValid(quantity));
    :- Check(quantity > 0);
    :- Check(quantity <= st.maxSupply - st.supply);
    :- Check(IsValid(st.supply + quantity));
    var credited :- AddBalance(s.accounts, st.issuer, quantity);
    var s1 := TokenState(Some(st.(supply := st.supply + quantity)), credited);
    if to != st.issuer then Move(s1, st.issuer, to, quantity, isAccount) else Ok(s1)
  }

  function Retire(s: TokenState, quantity: int): Result<TokenState> {
    if s.stat.None? then Abort else
    var st := s.stat.value;
    :- Check(IsValid(quantity));
    :- Check(quantity > 0);
    :- Check(IsValid(st.supply - quantity));
    var debited :- SubBalance(s.accounts, st.issuer, quantity);
    Ok(TokenState(Some(st.(supply := st.supply - quantity)), debited))
  }

  function Open(s: TokenState, owner: Name): Result<TokenState> {
    if s.stat.None? then Abort else
    Ok(if owner in s.accounts then s else s.(accounts := s.accounts[owner := 0]))
  }

  function Close(s: TokenState, owner: Name): Result<TokenState> {
    if owner !in s.accounts then Abort else
    :- Check(s.accounts[owner] == 0);
    Ok(s.(accounts := s.accounts - {owner}))
  }

  datatype TokenAction =
    | DoCreate(issuer: Name, maxSupply: int)
    | DoIssue(to: Name, quantity: int, isAccount: bool)
    | DoRetire(quantity: int)
    | DoTransfer(from: Name, to: Name, quantity: int, isAccount: bool)
    | DoOpen(owner: Name)
    | DoClose(owner: Name)

  function Exec(s: TokenState, a: TokenAction): Result<TokenState> {
    match a
    case DoCreate(issuer, maxSupply) => Create(s, issuer, maxSupply)
    case DoIssue(to, quantity, isAccount) => Issue(s, to, quantity, isAccount)
    case DoRetire(quantity) => Retire(s, quantity)
    case DoTransfer(from, to, quantity, isAccount) => Move(s, from, to, quantity, isAccount)
    case DoOpen(owner) => Open(s, owner)
    case DoClose(owner) => Close(s, owner)
  }

  function Run(s: TokenState, actions: seq<TokenAction>): TokenState {
    if actions == [] then s
    else
      var t := Run(s, actions[..|actions| - 1]);
      match Exec(t, actions[|actions| - 1])
      case Ok(r) => r
      case Abort => t
  }

  // ---------- the supply is the sum of the balances ----------

  ghost predicate TokenInv(s: TokenState) {
    match s.stat
    case None => s.accounts == map[]
    case Some(st) => st.supply == Supply(s.accounts) && 0 <= st.supply <= st.maxSupply <= MAX_AMOUNT
  }

  lemma Credited(accounts: map<Name, nat>, owner: Name, quantity: nat)
    requires AddBalance(accounts, owner, quantity).Ok?
    ensures Supply(AddBalance(accounts, owner, quantity).value) == Supply(accounts) + quantity
  {
    hide SumOf;
    SumStore<Name, nat>(accounts, Units, owner, Holds(accounts, owner) + quantity);
  }

  lemma Debited(accounts: map<Name, nat>, owner: Name, quantity: nat)
    requires SubBalance(accounts, owner, quantity).Ok?
    ensures Supply(SubBalance(accounts, owner, quantity).value) == Supply(accounts) - quantity
  {
    hide SumOf;
    SumStore<Name, nat>(accounts, Units, owner, accounts[owner] - quantity);
  }

  lemma MoveKeeps(s: TokenState, from: Name, to: Name, quantity: int, isAccount: bool)
    requires TokenInv(s) && Move(s, from, to, quantity, isAccount).Ok?
    ensures TokenInv(Move(s, from, to, quantity, isAccount).value)
  {
    hide SumOf, Supply;
    Debited(s.accounts, from, quantity);
    Credited(SubBalance(s.accounts, from, quantity).value, to, quantity);
  }

  lemma ExecKeeps(s: TokenState, a: TokenAction)
    requires TokenInv(s) && Exec(s, a).Ok?
    ensures TokenInv(Exec(s, a).value)
  {
    hide SumOf, Move, Supply;
    match a
    case DoCreate(_, _) => assert Supply(map[]) == 0 by { EmptySupply(); }
    case DoIssue(to, quantity, isAccount) =>
      var st := s.stat.value;
      Credited(s.accounts, st.issuer, quantity);
      var s1 := TokenState(Some(st.(supply := st.supply + quantity)),
        AddBalance(s.accounts, st.issuer, quantity).value);
      if to != st.issuer {
        MoveKeeps(s1, st.issuer, to, quantity, isAccount);
      }
    case DoRetire(quantity) =>
      var st := s.stat.value;
      HoldsAtMostSupply(s.accounts, st.issuer);
      Debited(s.accounts, st.issuer, quantity);
    case DoTransfer(from, to, quantity, isAccount) => MoveKeeps(s, from, to, quantity, isAccount);
    case DoOpen(owner) => OpenSupply(s.accounts, owner);
    case DoClose(owner) => CloseSupply(s.accounts, owner);
  }

  lemma EmptySupply()
    ensures Supply(map[]) == 0
  {
  }

  lemma OpenSupply(accounts: map<Name, nat>, owner: Name)
    ensures owner !in accounts ==> Supply(accounts[owner := 0]) == Supply(accounts)
  {
    hide SumOf;
    SumStore<Name, nat>(accounts, Units, owner, 0);
  }

  lemma CloseSupply(accounts: map<Name, nat>, owner: Name)
    ensures owner in accounts && accounts[owner] == 0 ==> Supply(accounts - {owner}) == Supply(accounts)
    ensures owner in accounts && accounts - {owner} == map[] ==> Supply(accounts) == accounts[owner]
  {
    SumErase<Name, nat>(accounts, Units, owner);
  }

  /** After any actions: the supply is the sum of all balances and within its maximum, so no balance
      exceeds it and no addition can overflow. */
  lemma {:induction false} SupplyIsSum(actions: seq<TokenAction>)
    ensures var s := Run(TokenState(None, map[]), actions);
      && TokenInv(s)
      && (forall n | n in s.accounts :: s.stat.Some? && s.accounts[n] <= s.stat.value.supply <= s.stat.value.maxSupply)
  {
    hide Exec, Supply, SumOf;
    var s := Run(TokenState(None, map[]), actions);
    if actions != [] {
      var rest := actions[..|actions| - 1];
      SupplyIsSum(rest);
      var t := Run(TokenState(None, map[]), rest);
      if Exec(t, actions[|actions| - 1]).Ok? {
        ExecKeeps(t, actions[|actions| - 1]);
      }
    }
    forall n | n in s.accounts
      ensures s.stat.Some? && s.accounts[n] <= s.stat.value.supply
    {
      HoldsAtMostSupply(s.accounts, n);
    }
  }

  /** The token's overflow checks never fire: a transfer is exactly the one the system contract's
      components assume. */
  lemma MoveIsTransfer(s: TokenState, from: Name, to: Name, quantity: int)
    requires TokenInv(s) && s.stat.Some?
    ensures Move(s, from, to, quantity, true).Ok? <==> Transfer(s.accounts, from, to, quantity).Ok?
    ensures Transfer(s.accounts, from, to, quantity).Ok? ==>
      Move(s, from, to, quantity, true).value == s.(accounts := Transfer(s.accounts, from, to, quantity).value)
  {
    hide SumOf;
    HoldsAtMostSupply(s.accounts, from);
    if Transfer(s.accounts, from, to, quantity).Ok? {
      TransferMoves(s.accounts, from, to, quantity);
      HoldsAtMostSupply(Transfer(s.accounts, from, to, quantity).value, to);
    }
  }

  /** What an action leaves of supply and balances, and what it demands. */
  ghost predicate Moved(s: TokenState, s1: TokenState, a: TokenAction) {
    match a
    case DoCreate(issuer, maxSupply) =>
      s.stat.None? && 0 < maxSupply <= 0x3fff_ffff_ffff_ffff && s1 == s.(stat := Some(Stat(issuer, 0, maxSupply)))
    case DoIssue(to, quantity, isAccount) =>
      && s.stat.Some? && 0 < quantity <= s.stat.value.maxSupply - s.stat.value.supply
      && s1.stat == Some(s.stat.value.(supply := s.stat.value.supply + quantity))
      && (forall n: Name :: Holds(s1.accounts, n) == Holds(s.accounts, n) + (if n == to then quantity else 0))
    case DoRetire(quantity) =>
      && s.stat.Some? && 0 < quantity <= Holds(s.accounts, s.stat.value.issuer)
      && s1.stat == Some(s.stat.value.(supply := s.stat.value.supply - quantity))
      && (forall n: Name ::
            Holds(s1.accounts, n) == Holds(s.accounts, n) - (if n == s.stat.value.issuer then quantity else 0))
    case DoTransfer(from, to, quantity, isAccount) =>
      && isAccount && from != to && 0 < quantity <= Holds(s.accounts, from) && s1.stat == s.stat
      && (forall n: Name ::
            Holds(s1.accounts, n)
              == Holds(s.accounts, n) - (if n == from then quantity else 0) + (if n == to then quantity else 0))
    case DoOpen(owner) =>
      && s.stat.Some? && s1.stat == s.stat && s1.accounts.Keys == s.accounts.Keys + {owner}
      && (forall n: Name :: Holds(s1.accounts, n) == Holds(s.accounts, n))
    case DoClose(owner) =>
      && owner in s.accounts && s1.stat == s.stat && s1.accounts.Keys == s.accounts.Keys - {owner}
      && (forall n: Name :: Holds(s1.accounts, n) == Holds(s.accounts, n))
  }

  /** Every action that succeeds moves exactly what it names, and asks first for what it needs. */
  lemma ExecMoves(s: TokenState, a: TokenAction)
    requires Exec(s, a).Ok?
    ensures Moved(s, Exec(s, a).value, a)
  {
  }

  // ---------- the contract's own form ----------

  class TokenContract {
    var stat: Option<Stat>
    var accounts: map<Name, nat>

    function Value(): TokenState
      reads this
    {
      TokenState(stat, accounts)
    }

    constructor (s: TokenState)
      ensures Value() == s
    {
      stat, accounts := s.stat, s.accounts;
    }

    method Subtract(owner: Name, quantity: nat) returns (ok: bool)
      modifies this`accounts
      ensures ok == SubBalance(old(accounts), owner, quantity).Ok?
      ensures ok ==> accounts == SubBalance(old(accounts), owner, quantity).value
    {
      if owner !in accounts || accounts[owner] < quantity {
        return false;
      }
      accounts := accounts[owner := accounts[owner] - quantity];
      return true;
    }

    method Add(owner: Name, quantity: nat) returns (ok: bool)
      modifies this`accounts
      ensures ok == AddBalance(old(accounts), owner, quantity).Ok?
      ensures ok ==> accounts == AddBalance(old(accounts), owner, quantity).value
    {
      if owner !in accounts {
        accounts := accounts[owner := quantity];
      } else {
        if !IsValid(accounts[owner] + quantity) {
          return false;
        }
        accounts := accounts[owner := accounts[owner] + quantity];
      }
      return true;
    }

    method MoveTokens(from: Name, to: Name, quantity: int, isAccount: bool) returns (ok: bool)
      modifies this
      ensures ok == Move(old(Value()), from, to, quantity, isAccount).Ok?
      ensures ok ==> Value() == Move(old(Value()), from, to, quantity, isAccount).value
    {
      hide SubBalance, AddBalance;
      if from == to || !isAccount || stat.None? || !IsValid(quantity) || quantity <= 0 {
        return false;
      }
      ok := Subtract(from, quantity);
      if ok {
        ok := Add(to, quantity);
      }
    }

    method IssueTokens(to: Name, quantity: int, isAccount: bool) returns (ok: bool)
      modifies this
      ensures ok == Issue(old(Value()), to, quantity, isAccount).Ok?
      ensures ok ==> Value() == Issue(old(Value()), to, quantity, isAccount).value
    {
      hide AddBalance, Move;
      if stat.None? || !IsValid(quantity) || quantity <= 0 || quantity > stat.value.maxSupply - stat.value.supply
         || !IsValid(stat.value.supply + quantity) {
        return false;
      }
      stat := Some(stat.value.(supply := stat.value.supply + quantity));
      ok := Add(stat.value.issuer, quantity);
      if ok && to != stat.value.issuer {
        ok := MoveTokens(stat.value.issuer, to, quantity, isAccount);
      }
    }

    method RetireTokens(quantity: int) returns (ok: bool)
      modifies this
      ensures ok == Retire(old(Value()), quantity).Ok?
      ensures ok ==> Value() == Retire(old(Value()), quantity).value
    {
      hide SubBalance;
      if stat.None? || !IsValid(quantity) || quantity <= 0 || !IsValid(stat.value.supply - quantity) {
        return false;
      }
      stat := Some(stat.value.(supply := stat.value.supply - quantity));
      ok := Subtract(stat.value.issuer, quantity);
    }
  }
}
