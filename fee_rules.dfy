/** The arithmetic of the fee-charging PSP22 token: caps taken as a percentage
    of the supply, the transfer tax, the ledger moves a transfer makes, and
    the whole effect of `transfer` on the balances. */
module FeeRules {
  import opened Types

  datatype Psp22Error = InsufficientBalance | CallerIsNotOwner

  /** The fungible ledger: an account missing from the map holds 0. */
  type Balances = map<AccountId, nat>

  function BalanceOf(b: Balances, a: AccountId): nat
  {
    if a in b then b[a] else 0
  }

  /** `supply * percent / 100` in u128 arithmetic; `None` when the product
      overflows (which traps). */
  function Cap(supply: U128, percent: U128): (r: Option<U128>)
    ensures r.Some? <==> supply * percent < U128_LIMIT
    ensures r.Some? ==> r.value * 100 <= supply * percent < r.value * 100 + 100
  {
    match CheckedMulU128(supply, percent)
    case Some(p) => Some(p / 100)
    case None => None
  }

  /** A cap of at most 100 percent never exceeds the supply. */
  lemma CapWithinSupply(supply: U128, percent: U128)
    requires percent <= 100
    requires Cap(supply, percent).Some?
    ensures Cap(supply, percent).value <= supply
  {
    MulMonotone(supply, percent, 100);
  }

  lemma MulMonotone(a: nat, x: nat, y: nat)
    requires x <= y
    ensures a * x <= a * y
  {
  }

  /** The tax on a transfer of `value` from `from` to `to` at `fee` percent:
      nothing when either side is the zero account, otherwise
      `value * fee / 100` rounded down; `None` when the product overflows u128. */
  function Tax(from: AccountId, to: AccountId, value: U128, fee: U8): (r: Option<nat>)
    ensures from == ZERO_ADDRESS || to == ZERO_ADDRESS ==> r == Some(0)
    ensures from != ZERO_ADDRESS && to != ZERO_ADDRESS ==>
              (r.Some? <==> value * fee < U128_LIMIT)
    ensures from != ZERO_ADDRESS && to != ZERO_ADDRESS && r.Some? ==>
              r.value * 100 <= value * fee < r.value * 100 + 100
  {
    if to != ZERO_ADDRESS && from != ZERO_ADDRESS then
      if value * fee < U128_LIMIT then Some(value * fee / 100) else None
    else
      Some(0)
  }

  /** With a fee of at most 100 percent the tax never exceeds the value, so
      `value - tax` cannot underflow. */
  lemma TaxWithinValue(from: AccountId, to: AccountId, value: U128, fee: U8)
    requires fee <= 100
    requires Tax(from, to, value, fee).Some?
    ensures Tax(from, to, value, fee).value <= value
  {
    if from != ZERO_ADDRESS && to != ZERO_ADDRESS {
      MulMonotone(value, fee, 100);
    }
  }

  /** A fee above 100 percent makes a taxed transfer of 100 units owe more
      tax than it carries. */
  lemma TaxAboveValue(from: AccountId, to: AccountId, fee: U8)
    requires 100 < fee
    requires from != ZERO_ADDRESS && to != ZERO_ADDRESS
    ensures Tax(from, to, 100, fee) == Some(fee)
    ensures Tax(from, to, 100, fee).value > 100
  {
  }

  /** The ledger's move of `amount` from `from` to `to`: the recipient's
      balance is read after the sender's is debited, so a move to oneself
      changes nothing. */
  function Move(b: Balances, from: AccountId, to: AccountId, amount: nat): (r: Balances)
    requires amount <= BalanceOf(b, from)
  {
    var debited := b[from := BalanceOf(b, from) - amount];
    debited[to := BalanceOf(debited, to) + amount]
  }

  /** What one move does to every account. */
  lemma MoveEffect(b: Balances, from: AccountId, to: AccountId, amount: nat, a: AccountId)
    requires amount <= BalanceOf(b, from)
    ensures BalanceOf(Move(b, from, to, amount), a) + (if a == from then amount else 0)
         == BalanceOf(b, a) + (if a == to then amount else 0)
  {
  }

  /** The sum of the balances of `keys`. */
  ghost function SumOver(b: Balances, keys: set<AccountId>): nat
    decreases keys
  {
    if keys == {} then 0
    else
      var a :| a in keys;
      BalanceOf(b, a) + SumOver(b, keys - {a})
  }

  /** The total of all balances. */
  ghost function Sum(b: Balances): nat
  {
    SumOver(b, b.Keys)
  }

  lemma {:induction false} SumOverPick(b: Balances, keys: set<AccountId>, a: AccountId)
    requires a in keys
    ensures SumOver(b, keys) == BalanceOf(b, a) + SumOver(b, keys - {a})
    decreases keys
  {
    var c :| c in keys && SumOver(b, keys) == BalanceOf(b, c) + SumOver(b, keys - {c});
    if c != a {
      SumOverPick(b, keys - {c}, a);
      SumOverPick(b, keys - {a}, c);
      assert keys - {c} - {a} == keys - {a} - {c};
    }
  }

  lemma {:induction false} SumOverFrame(b: Balances, b': Balances, keys: set<AccountId>)
    requires forall a | a in keys :: BalanceOf(b, a) == BalanceOf(b', a)
    ensures SumOver(b, keys) == SumOver(b', keys)
    decreases keys
  {
    if keys != {} {
      var a :| a in keys;
      SumOverPick(b, keys, a);
      SumOverPick(b', keys, a);
      SumOverFrame(b, b', keys - {a});
    }
  }

  /** Setting one balance changes the total by the difference. */
  lemma SumUpdate(b: Balances, a: AccountId, v: nat)
    ensures Sum(b[a := v]) + BalanceOf(b, a) == Sum(b) + v
  {
    var b' := b[a := v];
    var rest := b.Keys - {a};
    SumOverPick(b', b'.Keys, a);
    assert b'.Keys - {a} == rest;
    SumOverFrame(b', b, rest);
    if a in b {
      SumOverPick(b, b.Keys, a);
    } else {
      assert b.Keys == rest;
    }
  }

  /** A move neither creates nor destroys tokens. */
  lemma MoveConserves(b: Balances, from: AccountId, to: AccountId, amount: nat)
    requires amount <= BalanceOf(b, from)
    ensures Sum(Move(b, from, to, amount)) == Sum(b)
  {
    var debited := b[from := BalanceOf(b, from) - amount];
    SumUpdate(b, from, BalanceOf(b, from) - amount);
    SumUpdate(debited, to, BalanceOf(debited, to) + amount);
  }

  lemma SumSingleton(a: AccountId, v: nat)
    ensures Sum(map[a := v]) == v
  {
    var m := map[a := v];
    SumOverPick(m, m.Keys, a);
    assert m.Keys - {a} == {};
  }

  /** The outcome of `transfer(to, value)` called by `from`, and the balances
      it leaves: the transaction cap, then the recipient's wallet cap against
      its balance before the transfer, then the tax, then the move of the tax
      to the owner followed by the move of the rest to `to`. A trap leaves
      the balances as they were; an error from the second move keeps the
      first. */
  function TransferEffect(maxTx: U128, maxWallet: U128, fee: U8, owner: AccountId,
                          b: Balances, from: AccountId, to: AccountId, value: U128)
    : (r: (Outcome<Psp22Error>, Balances))
    ensures value > maxTx ==> r == (Err(InsufficientBalance), b)
    ensures value <= maxTx && value + BalanceOf(b, to) > maxWallet ==>
              r.0 != Ok && r.1 == b
    ensures value <= maxTx && maxWallet < value + BalanceOf(b, to) < U128_LIMIT ==>
              r == (Err(InsufficientBalance), b)
    ensures r.0 == Panic ==> r.1 == b
    ensures value <= maxTx && value + BalanceOf(b, to) <= maxWallet
            && Tax(from, to, value, fee).Some?
            && value < Tax(from, to, value, fee).value <= BalanceOf(b, from) ==>
              r == (Panic, b)
  {
    if value > maxTx then (Err(InsufficientBalance), b)
    else if value + BalanceOf(b, to) >= U128_LIMIT then (Panic, b)
    else if value + BalanceOf(b, to) > maxWallet then (Err(InsufficientBalance), b)
    else
      match Tax(from, to, value, fee)
      case None => (Panic, b)
      case Some(tax) =>
        if BalanceOf(b, from) < tax then (Err(InsufficientBalance), b)
        else
          var taxed := Move(b, from, owner, tax);
          if tax > value then (Panic, b)
          else if BalanceOf(taxed, from) < value - tax then (Err(InsufficientBalance), taxed)
          else (Ok, Move(taxed, from, to, value - tax))
  }

  /** Whatever its outcome, a transfer keeps the total of all balances. */
  lemma TransferConserves(maxTx: U128, maxWallet: U128, fee: U8, owner: AccountId,
                          b: Balances, from: AccountId, to: AccountId, value: U128)
    ensures Sum(TransferEffect(maxTx, maxWallet, fee, owner, b, from, to, value).1) == Sum(b)
  {
    if value <= maxTx && value + BalanceOf(b, to) <= maxWallet {
      var t := Tax(from, to, value, fee);
      if t.Some? && t.value <= BalanceOf(b, from) {
        var taxed := Move(b, from, owner, t.value);
        MoveConserves(b, from, owner, t.value);
        if t.value <= value && value - t.value <= BalanceOf(taxed, from) {
          MoveConserves(taxed, from, to, value - t.value);
        }
      }
    }
  }

  /** A successful transfer gives the owner the tax and `to` the rest, and
      takes `value` from the sender; every other account is unchanged. The
      statement holds when some of the three accounts coincide. */
  lemma TransferSuccess(maxTx: U128, maxWallet: U128, fee: U8, owner: AccountId,
                        b: Balances, from: AccountId, to: AccountId, value: U128, a: AccountId)
    requires TransferEffect(maxTx, maxWallet, fee, owner, b, from, to, value).0 == Ok
    ensures Tax(from, to, value, fee).Some?
    ensures Tax(from, to, value, fee).value <= value
    ensures var tax := Tax(from, to, value, fee).value;
            var after := TransferEffect(maxTx, maxWallet, fee, owner, b, from, to, value).1;
            BalanceOf(after, a) + (if a == from then value else 0)
            == BalanceOf(b, a) + (if a == owner then tax else 0) + (if a == to then value - tax else 0)
  {
    var tax := Tax(from, to, value, fee).value;
    var taxed := Move(b, from, owner, tax);
    MoveEffect(b, from, owner, tax, a);
    MoveEffect(taxed, from, to, value - tax, a);
  }

  /** Within both caps, with a fee of at most 100, a tax that fits in u128 and
      a sender holding the value, a transfer succeeds. */
  lemma TransferSucceeds(maxTx: U128, maxWallet: U128, fee: U8, owner: AccountId,
                         b: Balances, from: AccountId, to: AccountId, value: U128)
    requires value <= maxTx && value + BalanceOf(b, to) <= maxWallet
    requires fee <= 100 && Tax(from, to, value, fee).Some?
    requires value <= BalanceOf(b, from)
    ensures TransferEffect(maxTx, maxWallet, fee, owner, b, from, to, value).0 == Ok
  {
    TaxWithinValue(from, to, value, fee);
    var tax := Tax(from, to, value, fee).value;
    MoveEffect(b, from, owner, tax, from);
  }

  /** When the second move fails the tax has already reached the owner. */
  lemma TransferTaxMovesFirst(maxTx: U128, maxWallet: U128, fee: U8, owner: AccountId,
                              b: Balances, from: AccountId, to: AccountId, value: U128)
    requires TransferEffect(maxTx, maxWallet, fee, owner, b, from, to, value).0.Err?
    ensures var after := TransferEffect(maxTx, maxWallet, fee, owner, b, from, to, value).1;
            after == b ||
            (Tax(from, to, value, fee).Some? &&
             Tax(from, to, value, fee).value <= BalanceOf(b, from) &&
             after == Move(b, from, owner, Tax(from, to, value, fee).value) &&
             BalanceOf(after, from) < value - Tax(from, to, value, fee).value)
  {
  }
}
