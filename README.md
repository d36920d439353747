# ink-contracts core in Dafny

This project models two ink! smart contracts built on OpenBrush. It proves properties of each.

- **The fee-charging PSP22 token** (`contracts/psp22`, `logics/impls/psp22_fee`).
  - Its `transfer` applies a per-transaction cap and a cap on the recipient's wallet.
  - It then charges a percentage tax, which goes to the contract owner, and moves the rest to the recipient.
  - The owner sets the caps as percentages of the current supply, and sets the fee percentage.
- **The PSP34 collection manager** (`contracts/psp34_artzero`, `logics/impls/psp34_artzero_support/psp34_traits`).
  - A paid `mint` of sequential `u64` ids, guarded by `check_amount` and `check_value`.
  - `burn` by the owner of record or an approved operator.
  - Per-token locks with a lock counter.
  - An attribute store of (id, name) → value, with a registry of every attribute name ever used, numbered from 1.
  - Collection metadata (name, symbol, base URI) under the collection-level id `U8(0)`.
  - `token_uri`, which is the base URI followed by the decimal id and `.json`.

## Layout

| file | module | contents |
|---|---|---|
| `types.dfy` | `Types` | Machine integer widths as subset types; bytes; account ids; `Option`; `Outcome` (`Ok`, `Err`, or `Panic` for a trap); checked add and checked multiply. |
| `fee_rules.dfy` | `FeeRules` | Caps, the tax, ledger moves, the total of all balances, and `TransferEffect`, the whole effect of a transfer as a function, with its lemmas. |
| `fee_token.dfy` | `FeeToken` | The token contract as a class: its storage, the constructor, the owner-only setters, the getters, and `Transfer`, proved equal to `TransferEffect`. |
| `collection_rules.dfy` | `CollectionRules` | Ids, errors and events; decimal text and its round trip; the attribute store and pair writes; the name registry; the ownership and events left by a run of mints. |
| `collection.dfy` | `Collection` | The collection contract as a class: the `Manager` record, the ledger's owners and approvals, the attribute store, and every message of the core. |

## How the model reads the program

- **Integers.** `Balance` is `u128`.
  - Every `+`, `*` and `-` that can overflow in the source is a trap, as Rust's checked arithmetic in contract builds makes it.
  - A trap is the outcome `Panic`, and the contract state is then left as it was.
  - The `checked_*` calls whose `None` is handled are modelled by `CheckedAddU64` and `CheckedMulU128`. These are the calls in `check_amount` and `check_value`.
  - The two `checked_add(1).unwrap()` calls are modelled as inline bound checks that end in `Panic`. One is `lock`'s counter, the other `add_attribute_name`'s count.
- **Errors.** The model follows the message bodies: a message that returns an error keeps the writes its body made before returning.
  - So in the model a transfer whose second ledger move fails has already paid its tax to the owner (`TransferTaxMovesFirst`).
  - Likewise, a mint that ends in "Cannot mint" keeps the units it minted before.
  - On chain, the ink! host reverts those writes; see "Left out".
- **Owner-only refusals.** `only_owner` refuses a caller that is not the owner with an `OwnableError`, converted into the message's error type.
  - For the psp22 messages, `Psp22Error.CallerIsNotOwner` stands for that converted error. OpenBrush's `PSP22Error` has no variant of that name.
- **The ledgers.** The fungible ledger is a map from account to balance. An account that is missing holds 0.
  - `_transfer_from_to` fails only when the sender holds too little.
  - It credits the recipient after debiting the sender, so a move to oneself changes nothing.
  - The NFT ledger is a map from id to owner. `_mint_to` refuses an id that already has an owner.
- **The fee's type.** The source is inconsistent about it.
  - The psp22 constructor takes `fee: u128` and assigns it to the `u8` field `fee` (`contracts/psp22/lib.rs:56`).
  - `transfer` multiplies the u128 `value` by that `u8` (`contracts/psp22/lib.rs:79`).
  - Neither line type-checks in Rust as written.
  - The model's interpretation: the fee is a `u8`, as the field declares. The constructor takes a `u8`, and the product is taken with the fee widened to u128.
- **A fee above 100.** Nothing bounds the fee by 100.
  - With a larger fee, a taxed transfer can owe more tax than it carries (`TaxAboveValue`).
  - When the sender can pay that tax, the tax move succeeds, then `value - tax` underflows and the transfer traps.
  - When the sender cannot pay it, the tax move itself returns InsufficientBalance first.
- **The attribute guard.** `set_multiple_attributes` rejects the id `U64(0)`. The collection-level attributes live under `U8(0)`, which is a different id.
- **Lock counter and minting limits.**
  - `lock` raises the lock counter on every successful call, including a call on a token that is already locked.
  - `mint` computes `last_token_id + 1 + mint_amount`. That sum traps when a mint fills a collection whose `max_supply` is `u64::MAX`.

## Model

| member | source | states |
|---|---|---|
| Types.CheckedAddU64 | logics/impls/psp34_artzero_support/psp34_traits/psp34_traits.rs:267-271 | Some exactly when the u64 sum fits, and then it is the sum |
| Types.CheckedMulU128 | logics/impls/psp34_artzero_support/psp34_traits/psp34_traits.rs:249-250 | Some exactly when the u128 product fits, and then it is the product |
| FeeRules.Cap | contracts/psp22/lib.rs:54-55 | a cap exists iff supply × percent fits in u128, and it is that product divided by 100 rounded down |
| FeeRules.CapWithinSupply | contracts/psp22/lib.rs:54-55 | a cap of at most 100 percent never exceeds the supply |
| FeeRules.Tax | contracts/psp22/lib.rs:77-79 | zero when either side is the zero account; otherwise defined iff value × fee fits in u128, and equal to it divided by 100 rounded down |
| FeeRules.TaxWithinValue | contracts/psp22/lib.rs:79-82 | with a fee of at most 100 the tax never exceeds the value, so `value - tax` cannot underflow |
| FeeRules.TaxAboveValue | contracts/psp22/lib.rs:79-82 | with a fee above 100, a taxed transfer of 100 owes a tax larger than 100 |
| FeeRules.MoveEffect | contracts/psp22/lib.rs:81-82 | one ledger move debits the sender and credits the recipient by the amount and changes no other account |
| FeeRules.MoveConserves | contracts/psp22/lib.rs:81-82 | a ledger move keeps the total of all balances |
| FeeRules.SumUpdate | contracts/psp22/lib.rs:81-82 | setting one balance changes the total by exactly the difference |
| FeeRules.TransferEffect | contracts/psp22/lib.rs:64-84 | a value above the transaction cap is InsufficientBalance with no change; past the wallet cap it is InsufficientBalance with no change when the sum fits in u128 and never Ok otherwise; a tax larger than the value (a fee above 100) traps at `value - tax` when the sender can pay the tax; otherwise the tax move returns InsufficientBalance; a trap leaves the balances unchanged |
| FeeRules.TransferConserves | contracts/psp22/lib.rs:64-84 | whatever the outcome, a transfer keeps the total of all balances |
| FeeRules.TransferSuccess | contracts/psp22/lib.rs:77-83 | on success the tax is at most the value; the sender loses the value, the owner gains the tax and the recipient gains the rest; this holds when the accounts coincide, and no other account changes |
| FeeRules.TransferSucceeds | contracts/psp22/lib.rs:64-84 | within both caps, with a fee of at most 100, a tax that fits in u128 and a sender holding the value, a transfer succeeds |
| FeeRules.TransferTaxMovesFirst | contracts/psp22/lib.rs:81-82 | a failed transfer either changed nothing, or paid the tax to the owner and then failed the second move for lack of funds |
| FeeToken.Token.constructor | contracts/psp22/lib.rs:37-58 | mints the whole supply to the deployer, who becomes the owner; the caps are the given percentages of the supply; the balances add up to the supply |
| FeeToken.Token.SetMaxWallet | logics/impls/psp22_fee/psp22_fee.rs:20-25 | owner only (otherwise CallerIsNotOwner and no change); the wallet cap becomes the percentage of the current supply; traps on overflow |
| FeeToken.Token.SetMaxTx | logics/impls/psp22_fee/psp22_fee.rs:27-32 | owner only; the transaction cap becomes the percentage of the current supply; traps on overflow |
| FeeToken.Token.GetMaxWallet | logics/impls/psp22_fee/psp22_fee.rs:34-36 | returns the stored wallet cap |
| FeeToken.Token.GetMaxTx | logics/impls/psp22_fee/psp22_fee.rs:38-40 | returns the stored transaction cap |
| FeeToken.Token.SetFee | logics/impls/psp22_fee/psp22_fee.rs:42-47 | owner only; stores the fee as given, with no bound |
| FeeToken.Token.GetFee | logics/impls/psp22_fee/psp22_fee.rs:49-51 | returns the stored fee |
| FeeToken.Token.TransferFromTo | contracts/psp22/lib.rs:81-82 | refuses with InsufficientBalance and no change when the sender holds too little; otherwise performs the ledger move |
| FeeToken.Token.Transfer | contracts/psp22/lib.rs:64-84 | the outcome and the new balances are exactly `TransferEffect` of the old ones, and the balances still add up to the supply |
| CollectionRules.DecimalRoundTrip | logics/impls/psp34_artzero_support/psp34_traits/psp34_traits.rs:173 | the decimal text of an id is non-empty, is all digits, has no leading zero and reads back as the id |
| CollectionRules.DecimalTextInjective | logics/impls/psp34_artzero_support/psp34_traits/psp34_traits.rs:173 | different ids have different decimal texts |
| CollectionRules.ApplyPairsLookup | logics/impls/psp34_artzero_support/psp34_traits/psp34_traits.rs:128-135 | after writing the pairs on an id, a name given in the pairs holds the value of its last pair, and every other (id, name) keeps its value |
| CollectionRules.RegisterValid | logics/impls/psp34_artzero_support/psp34_traits/psp34_traits.rs:219-240 | registering a name keeps indices 1..count used and names unique, leaves the name registered, grows the count by at most one and keeps every earlier entry |
| CollectionRules.RegisterIdempotent | logics/impls/psp34_artzero_support/psp34_traits/psp34_traits.rs:219-240 | registering the same name again changes nothing |
| CollectionRules.RegisterAllValid | logics/impls/psp34_artzero_support/psp34_traits/psp34_traits.rs:128-129 | registering the names of all pairs keeps the registry valid, keeps earlier entries, never lowers the count and registers every name given |
| CollectionRules.RegisterAllPrefixFails | logics/impls/psp34_artzero_support/psp34_traits/psp34_traits.rs:128-129 | once the names of a prefix of the pairs overflow the count, so do the names of all the pairs |
| CollectionRules.MintRunOwners | contracts/psp34_artzero/lib.rs:116-122 | a run of mints gives every id of the run to the minter and leaves every other id's owner as it was |
| CollectionRules.MintRunWithin | contracts/psp34_artzero/lib.rs:111-122 | minting right after the last id keeps every owned id within 1..last id |
| CollectionRules.MintEventsAscending | contracts/psp34_artzero/lib.rs:116-122 | a run of mints emits one transfer event per id, from nobody to the minter, in ascending id order |
| Collection.Psp34Nft.constructor | contracts/psp34_artzero/lib.rs:91-104 | the deployer is the owner; name, symbol and base URI are the only attributes, under `U8(0)`; last id 0, one token per mint, the given supply limit and price, no tokens, locks or names |
| Collection.Psp34Nft.CheckValue | logics/impls/psp34_artzero_support/psp34_traits/psp34_traits.rs:247-257 | Ok iff amount × price fits in u128 and equals the value paid; otherwise "Bad Mint Value" |
| Collection.Psp34Nft.CheckAmount | logics/impls/psp34_artzero_support/psp34_traits/psp34_traits.rs:259-277 | Ok iff 0 < amount ≤ max amount and last id + amount ≤ max supply; otherwise "Cannot Mint Zero Tokens", "Too Many Tokens To Mint" and "Collection Is Full", checked in that order |
| Collection.Psp34Nft.TokenExists | logics/impls/psp34_artzero_support/psp34_traits/psp34_traits.rs:279-285 | Ok iff the id has an owner, otherwise BidNotExist |
| Collection.Psp34Nft.SetMaxMintAmount | logics/impls/psp34_artzero_support/psp34_traits/psp34_traits.rs:196-201 | owner only (otherwise CallerIsNotOwner and no change); stores the per-call limit; keeps the invariants |
| Collection.Psp34Nft.MintTo | contracts/psp34_artzero/lib.rs:117 | the ledger's mint succeeds iff the id has no owner, and then gives it to the minter |
| Collection.Psp34Nft.MintIds | contracts/psp34_artzero/lib.rs:116-122 | mints ids in ascending order from last id + 1 and stops at the first id that already has an owner; the owners and events are those of the run so far, and it succeeds iff the run reached the end |
| Collection.Psp34Nft.Mint | contracts/psp34_artzero/lib.rs:107-127 | the guards' errors come first, in order; once both guards pass the outcome is Ok, "Cannot mint" or the trap, and it traps iff the id range reaches 2^64; on success exactly ids last+1..last+amount go to the caller, with one event each, and the last id rises by the amount; "Cannot mint" keeps the units minted before the clash; the supply limit and the invariants hold; with only minted ids owned, "Cannot mint" cannot happen |
| Collection.Psp34Nft.Burn | contracts/psp34_artzero/lib.rs:69-87 | traps on an id with no owner; "not token owner" when the account is not its owner; "caller is not token owner or approved" unless the caller is the account or approved for the id; on success removes exactly that id; keeps the invariants |
| Collection.Psp34Nft.IsLockedNft | logics/impls/psp34_artzero_support/psp34_traits/psp34_traits.rs:86-97 | true iff the id has a lock entry |
| Collection.Psp34Nft.Lock | logics/impls/psp34_artzero_support/psp34_traits/psp34_traits.rs:72-84 | traps on an id with no owner; only the token's owner may lock (NotTokenOwner); the counter rises by one, and the call traps at u64 overflow; afterwards the id is locked and nothing else changes |
| Collection.Psp34Nft.SetBaseUri | logics/impls/psp34_artzero_support/psp34_traits/psp34_traits.rs:104-113 | owner only; stores the base URI, after which every token URI is the new base, the id's decimal text and ".json"; keeps the invariants |
| Collection.Psp34Nft.AddAttributeName | logics/impls/psp34_artzero_support/psp34_traits/psp34_traits.rs:219-240 | the scan's outcome and new registry are exactly `Register`: a known name changes nothing, and a new name goes to the next index; traps on u32 overflow and keeps the registry valid |
| Collection.Psp34Nft.SetPairs | logics/impls/psp34_artzero_support/psp34_traits/psp34_traits.rs:128-135 | succeeds iff registering all names fits; then the store is `ApplyPairs` and the registry is `RegisterAll`; a trap leaves both as they were |
| Collection.Psp34Nft.SetMultipleAttributes | logics/impls/psp34_artzero_support/psp34_traits/psp34_traits.rs:115-137 | owner only, then `U64(0)` is InvalidInput, then a locked token is "Token is locked", all before any write; otherwise it writes every pair and registers every name, or traps with no change |
| Collection.Psp34Nft.GetAttributes | logics/impls/psp34_artzero_support/psp34_traits/psp34_traits.rs:139-153 | one value per requested name, in order; the empty string for a name not set on the id |
| Collection.Psp34Nft.GetAttributeName | logics/impls/psp34_artzero_support/psp34_traits/psp34_traits.rs:159-167 | the name stored at an index in 1..count; empty at index 0 and past the count |
| Collection.Psp34Nft.TokenUri | logics/impls/psp34_artzero_support/psp34_traits/psp34_traits.rs:169-175 | defined iff a base URI is stored; the URI splits into the base, a run of digits with no leading zero that reads back as the id, and ".json" |
| Collection.Psp34Nft.TokenUriInjective | logics/impls/psp34_artzero_support/psp34_traits/psp34_traits.rs:169-175 | two ids never share a token URI |

## Left out

- `withdraw` (`psp34_traits.rs:182-194`) and the admin trait (`admin.rs`) read the contract's native balance and call the host's transfer. Host balances and foreign calls are not part of this model.
- The ink! host reverts the storage writes of a message that returns `Err`. The model does not capture this revert: it states the writes the message body makes before it returns.
  - `TransferTaxMovesFirst` and the "Cannot mint" clauses of `Mint` describe those body-level writes. On chain, the tax move and the units minted before the clash are rolled back.
  - A trap is modelled with its revert: it leaves the state as it was.
- Event transport is not modelled. `mint`'s Transfer events are kept as a sequence. The events the ledgers emit themselves are not recorded.
- Storage layout, SCALE encoding and storage keys are not modelled. Every store is a map.
- Strings are their bytes, and UTF-8 decoding is the identity.
  - So the traps of `String::from_utf8(..).unwrap()` on bytes that are not UTF-8 are not modelled.
  - This affects `get_attributes`, `get_attribute_name` and `token_uri`.
- Collection.Psp34Nft.TokenUri: the trap of `token_uri` when no base URI is stored is the result `None`.
- Collection.Psp34Nft.Burn: models only the removal of the owner of record. It does not model the approvals and enumerable indexes that `_burn_from` also clears, or its event.
- Approvals are a set of (owner, operator, id) triples that no modelled message changes. `approve` belongs to the OpenBrush ledger, which is outside this model.
- The psp22 constructor's name, symbol and decimals are metadata fields that nothing reads. They are left out.
- FeeToken.Token.constructor: requires both caps to fit in u128. A constructor that traps deploys nothing, so the trap has no state to model.
- The `.expect("Should mint")` on the initial mint cannot fail on an empty ledger.
- The ledger's zero-address and receiver checks inside `_transfer_from_to` are OpenBrush code outside this model. The model's move fails only on an insufficient balance.
- The plain getters of the collection are field reads of the class and need no member of their own:
  - `get_last_token_id`, `get_locked_token_count`, `get_attribute_count`;
  - `max_supply`, `price`, `get_max_mint_amount`, `get_owner`.
- Reentrancy and concurrent calls are not modelled. Each message runs to completion on the state it starts from.
