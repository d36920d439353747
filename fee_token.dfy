/** The fee-charging PSP22 token contract: its storage (the ledger, the
    owner and the fee data `max_wallet`, `max_tx`, `fee`), the constructor,
    the owner-only setters, the getters and `transfer`. */
module FeeToken {
  import opened Types
  import opened FeeRules

  class Token {
    /** The contract owner, the only caller the setters accept. */
    var owner: AccountId
    /** The ledger's total supply and balances. */
    var supply: U128
    var balances: Balances
    /** The fee data: absolute caps and the fee percentage. */
    var maxWallet: U128
    var maxTx: U128
    var fee: U8

    /** The balances always add up to the supply. */
    ghost predicate Valid()
      reads this
    {
      Sum(balances) == supply
    }

    /** Mints the whole initial supply to the deployer, who becomes the owner,
        and turns the two percentages into absolute caps. A constructor that
        traps deploys nothing, so the caps must not overflow. */
    constructor (caller: AccountId, initialSupply: U128, maxWalletPercent: U128,
                 maxTxPercent: U128, fee: U8)
      requires Cap(initialSupply, maxWalletPercent).Some?
      requires Cap(initialSupply, maxTxPercent).Some?
      ensures Valid()
      ensures owner == caller && supply == initialSupply
      ensures balances == map[caller := initialSupply]
      ensures maxWallet == Cap(initialSupply, maxWalletPercent).value
      ensures maxTx == Cap(initialSupply, maxTxPercent).value
      ensures this.fee == fee
    {
      owner := caller;
      supply := initialSupply;
      balances := map[caller := initialSupply];
      maxWallet := Cap(initialSupply, maxWalletPercent).value;
      maxTx := Cap(initialSupply, maxTxPercent).value;
      this.fee := fee;
      SumSingleton(caller, initialSupply);
    }

    /** Owner only: the wallet cap becomes `percent` percent of the supply
        at the time of the call. */
    method SetMaxWallet(caller: AccountId, percent: U128) returns (r: Outcome<Psp22Error>)
      modifies this`maxWallet
      ensures caller != owner ==> r == Err(CallerIsNotOwner) && maxWallet == old(maxWallet)
      ensures caller == owner && Cap(supply, percent).None? ==>
                r == Panic && maxWallet == old(maxWallet)
      ensures caller == owner && Cap(supply, percent).Some? ==>
                r == Ok && maxWallet == Cap(supply, percent).value
    {
      if caller != owner {
        return Err(CallerIsNotOwner);
      }
      match Cap(supply, percent) {
        case None =>
          r := Panic;
        case Some(cap) =>
          maxWallet := cap;
          r := Ok;
      }
    }

    /** Owner only: the transaction cap becomes `percent` percent of the
        supply at the time of the call. */
    method SetMaxTx(caller: AccountId, percent: U128) returns (r: Outcome<Psp22Error>)
      modifies this`maxTx
      ensures caller != owner ==> r == Err(CallerIsNotOwner) && maxTx == old(maxTx)
      ensures caller == owner && Cap(supply, percent).None? ==>
                r == Panic && maxTx == old(maxTx)
      ensures caller == owner && Cap(supply, percent).Some? ==>
                r == Ok && maxTx == Cap(supply, percent).value
    {
      if caller != owner {
        return Err(CallerIsNotOwner);
      }
      match Cap(supply, percent) {
        case None =>
          r := Panic;
        case Some(cap) =>
          maxTx := cap;
          r := Ok;
      }
    }

    /** Owner only: stores the fee percentage as given; nothing bounds it by
        100. */
    method SetFee(caller: AccountId, fee: U8) returns (r: Outcome<Psp22Error>)
      modifies this`fee
      ensures caller != owner ==> r == Err(CallerIsNotOwner) && this.fee == old(this.fee)
      ensures caller == owner ==> r == Ok && this.fee == fee
    {
      if caller != owner {
        return Err(CallerIsNotOwner);
      }
      this.fee := fee;
      r := Ok;
    }

    method GetMaxWallet() returns (r: U128)
      ensures r == maxWallet
    {
      r := maxWallet;
    }

    method GetMaxTx() returns (r: U128)
      ensures r == maxTx
    {
      r := maxTx;
    }

    method GetFee() returns (r: U8)
      ensures r == fee
    {
      r := fee;
    }

    /** The ledger's `_transfer_from_to`: refuses when `from` holds less than
        `amount`. */
    method TransferFromTo(from: AccountId, to: AccountId, amount: nat)
      returns (r: Outcome<Psp22Error>)
      modifies this`balances
      ensures amount > BalanceOf(old(balances), from) ==>
                r == Err(InsufficientBalance) && balances == old(balances)
      ensures amount <= BalanceOf(old(balances), from) ==>
                r == Ok && balances == Move(old(balances), from, to, amount)
    {
      if BalanceOf(balances, from) < amount {
        return Err(InsufficientBalance);
      }
      balances := Move(balances, from, to, amount);
      r := Ok;
    }

    /** `transfer(to, value)` called by `caller`: checks the caps, computes the
        tax and makes the two ledger moves, tax first. */
    method Transfer(caller: AccountId, to: AccountId, value: U128)
      returns (r: Outcome<Psp22Error>)
      requires Valid()
      modifies this`balances
      ensures Valid()
      ensures (r, balances)
           == TransferEffect(maxTx, maxWallet, fee, owner, old(balances), caller, to, value)
    {
      var balanceWallet := BalanceOf(balances, to);
      if value > maxTx {
        return Err(InsufficientBalance);
      }
      if value + balanceWallet >= U128_LIMIT {
        return Panic;
      }
      if value + balanceWallet > maxWallet {
        return Err(InsufficientBalance);
      }
      var tax;
      match Tax(caller, to, value, fee) {
        case None =>
          return Panic;
        case Some(t) =>
          tax := t;
      }
      var before := balances;
      r := TransferFromTo(caller, owner, tax);
      if r != Ok {
        return;
      }
      MoveConserves(before, caller, owner, tax);
      if tax > value {
        // `value - tax` underflows: the call traps and its writes are discarded
        balances := before;
        return Panic;
      }
      var taxed := balances;
      r := TransferFromTo(caller, to, value - tax);
      if r == Ok {
        MoveConserves(taxed, caller, to, value - tax);
      }
    }
  }
}
