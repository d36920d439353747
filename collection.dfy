/** The PSP34 collection contract: the `Manager` record (mint counters and
    limits, the attribute-name registry, the locked tokens), the pieces of
    the ledger it reads and writes (owners of record, approvals, the
    attribute store), the constructor, the mint guards and `mint`, the
    attribute operations, `lock`, `token_uri` and `burn`. */
module Collection {
  import opened Types
  import opened CollectionRules

  class Psp34Nft {
    /** The contract owner, whom `only_owner` compares the caller with. */
    var owner: AccountId
    /** The ledger: owner of record per token id, and approvals given by an
        owner to an operator for one id. */
    var tokenOwner: map<Id, AccountId>
    var approvals: set<(AccountId, AccountId, Id)>
    /** The metadata extension's attribute store. */
    var attributes: Attributes
    /** The `Manager` record. */
    var lastTokenId: U64
    var attributeCount: U32
    var attributeNames: map<U32, Bytes>
    var lockedTokens: map<Id, bool>
    var lockedTokenCount: U64
    var pricePerMint: U128
    var maxAmount: U64
    var maxSupply: U64
    /** The events the contract's own code emits, oldest first. */
    var events: seq<Event>

    /** No more than `max_supply` ids are ever minted; the registry uses
        exactly the indices 1..attribute_count and holds each name once; a
        lock entry is always `true`, and the lock counter is at least the
        number of locked ids. */
    ghost predicate Valid()
      reads this
    {
      && lastTokenId <= maxSupply
      && RegistryValid(attributeNames, attributeCount)
      && (forall id | id in lockedTokens :: lockedTokens[id])
      && |lockedTokens| <= lockedTokenCount
    }

    /** Every id with an owner is one this contract minted: `U64(j)` with
        1 <= j <= last_token_id. */
    ghost predicate MintedWithin()
      reads this
    {
      forall id | id in tokenOwner :: id.U64? && 1 <= id.u64 <= lastTokenId
    }

    /** The deployer becomes the owner; name, symbol and base URI are stored
        as collection-level attributes under `U8(0)`; minting starts after id
        0, one token per call. */
    constructor (caller: AccountId, name: Bytes, symbol: Bytes, baseUri: Bytes,
                 maxSupply: U64, pricePerMint: U128)
      ensures Valid() && MintedWithin()
      ensures owner == caller
      ensures attributes == map[(COLLECTION_ID, NAME_KEY) := name,
                                (COLLECTION_ID, SYMBOL_KEY) := symbol,
                                (COLLECTION_ID, BASE_URI_KEY) := baseUri]
      ensures this.maxSupply == maxSupply && this.pricePerMint == pricePerMint
      ensures lastTokenId == 0 && maxAmount == 1
      ensures tokenOwner == map[] && approvals == {} && events == []
      ensures attributeCount == 0 && attributeNames == map[]
      ensures lockedTokens == map[] && lockedTokenCount == 0
    {
      owner, tokenOwner, approvals, events := caller, map[], {}, [];
      lastTokenId, attributeCount, attributeNames := 0, 0, map[];
      lockedTokens, lockedTokenCount := map[], 0;
      this.maxSupply, this.pricePerMint, maxAmount := maxSupply, pricePerMint, 1;
      // the three collection attributes, written one after another
      var attrs: Attributes := map[(COLLECTION_ID, NAME_KEY) := name];
      attrs := attrs[(COLLECTION_ID, SYMBOL_KEY) := symbol];
      attributes := attrs[(COLLECTION_ID, BASE_URI_KEY) := baseUri];
    }

    // ------------------------------------------------------------ mint guards

    /** `check_value`: the payment must be exactly `mint_amount` times the
        price, and that product must fit in u128. */
    function CheckValue(transferredValue: U128, mintAmount: U64): (r: Outcome<Error>)
      reads this
      ensures r == Ok <==> mintAmount * pricePerMint < U128_LIMIT
                           && transferredValue == mintAmount * pricePerMint
      ensures r != Ok ==> r == Err(Custom("Bad Mint Value"))
    {
      match CheckedMulU128(mintAmount, pricePerMint)
      case Some(value) =>
        if transferredValue == value then Ok else Err(Custom("Bad Mint Value"))
      case None => Err(Custom("Bad Mint Value"))
    }

    /** `check_amount`: at least one token, no more than `max_amount`, and
        the collection must not grow past `max_supply`. Given that
        `max_supply` is itself a u64, the overflow check is subsumed by the
        supply check. */
    function CheckAmount(mintAmount: U64): (r: Outcome<Error>)
      reads this
      ensures r == Ok <==> 0 < mintAmount <= maxAmount && lastTokenId + mintAmount <= maxSupply
      ensures mintAmount == 0 ==> r == Err(Custom("Cannot Mint Zero Tokens"))
      ensures 0 < mintAmount && mintAmount > maxAmount ==> r == Err(Custom("Too Many Tokens To Mint"))
      ensures 0 < mintAmount <= maxAmount && lastTokenId + mintAmount > maxSupply ==>
                r == Err(Custom("Collection Is Full"))
    {
      if mintAmount == 0 then Err(Custom("Cannot Mint Zero Tokens"))
      else if mintAmount > maxAmount then Err(Custom("Too Many Tokens To Mint"))
      else
        match CheckedAddU64(lastTokenId, mintAmount)
        case Some(amount) =>
          if amount <= maxSupply then Ok else Err(Custom("Collection Is Full"))
        case None => Err(Custom("Collection Is Full"))
    }

    /** `token_exists`: whether the ledger has an owner for `id`. */
    function TokenExists(id: Id): (r: Outcome<Error>)
      reads this
      ensures r == Ok <==> id in tokenOwner
      ensures r != Ok ==> r == Err(BidNotExist)
    {
      if id in tokenOwner then Ok else Err(BidNotExist)
    }

    /** Owner only: the number of tokens one `mint` call may create. */
    method SetMaxMintAmount(caller: AccountId, maxAmount: U64) returns (r: Outcome<Error>)
      requires Valid()
      modifies this`maxAmount
      ensures Valid()
      ensures caller != owner ==>
                r == Err(OwnableError(CallerIsNotOwner)) && this.maxAmount == old(this.maxAmount)
      ensures caller == owner ==> r == Ok && this.maxAmount == maxAmount
    {
      if caller != owner {
        return Err(OwnableError(CallerIsNotOwner));
      }
      this.maxAmount := maxAmount;
      r := Ok;
    }

    // ------------------------------------------------------------ mint

    /** The ledger's `_mint_to`: refuses an id that already has an owner. */
    method MintTo(to: AccountId, id: Id) returns (ok: bool)
      modifies this`tokenOwner
      ensures ok <==> id !in old(tokenOwner)
      ensures ok ==> tokenOwner == old(tokenOwner)[id := to]
      ensures !ok ==> tokenOwner == old(tokenOwner)
    {
      if id in tokenOwner {
        return false;
      }
      tokenOwner := tokenOwner[id := to];
      ok := true;
    }

    /** The loop of `mint`: mints ids last+1, last+2, ... up to `offset - 1`
        to `to`, each followed by its transfer event and a bump of
        `last_token_id`, and stops at the first id that already has an
        owner, keeping what it minted before it. */
    method MintIds(to: AccountId, offset: U64) returns (ok: bool)
      requires lastTokenId < offset
      modifies this`lastTokenId, this`tokenOwner, this`events
      ensures old(lastTokenId) <= lastTokenId < offset
      ensures tokenOwner == MintRun(old(tokenOwner), to, old(lastTokenId) + 1, lastTokenId - old(lastTokenId))
      ensures events == old(events) + MintEvents(to, old(lastTokenId) + 1, lastTokenId - old(lastTokenId))
      ensures forall j: U64 | old(lastTokenId) < j <= lastTokenId :: U64(j) !in old(tokenOwner)
      ensures ok <==> lastTokenId == offset - 1
      ensures !ok ==> U64(lastTokenId + 1) in old(tokenOwner)
    {
      var first := lastTokenId + 1;
      var mintId := first;
      while mintId < offset
        invariant first <= mintId <= offset
        invariant lastTokenId == mintId - 1
        invariant tokenOwner == MintRun(old(tokenOwner), to, first, mintId - first)
        invariant events == old(events) + MintEvents(to, first, mintId - first)
        invariant forall j: U64 | first <= j < mintId :: U64(j) !in old(tokenOwner)
      {
        MintRunOwners(old(tokenOwner), to, first, mintId - first, U64(mintId));
        var minted := MintTo(to, U64(mintId));
        if !minted {
          return false;
        }
        lastTokenId := lastTokenId + 1;
        events := events + [Transfer(None, Some(to), U64(mintId))];
        mintId := mintId + 1;
      }
      ok := true;
    }

    /** `mint(mint_amount)`, paid with `transferredValue`: both guards run
        before anything changes; then ids last+1, last+2, ... are minted to
        the caller one by one, each followed by a transfer event and a bump
        of `last_token_id`. A refused unit mint ends the call with
        "Cannot mint" and keeps the units minted before it. Computing the end
        of the id range traps when it reaches 2^64. */
    method Mint(caller: AccountId, transferredValue: U128, mintAmount: U64)
      returns (r: Outcome<Error>)
      requires Valid()
      modifies this`lastTokenId, this`tokenOwner, this`events
      ensures Valid()
      ensures old(CheckAmount(mintAmount)) != Ok ==> r == old(CheckAmount(mintAmount))
      ensures old(CheckAmount(mintAmount)) == Ok && CheckValue(transferredValue, mintAmount) != Ok ==>
                r == CheckValue(transferredValue, mintAmount)
      ensures old(CheckAmount(mintAmount)) == Ok && CheckValue(transferredValue, mintAmount) == Ok ==>
                (r == Panic <==> old(lastTokenId) + 1 + mintAmount >= U64_LIMIT)
      ensures old(CheckAmount(mintAmount)) == Ok && CheckValue(transferredValue, mintAmount) == Ok ==>
                r == Ok || r == Panic || r == Err(Custom("Cannot mint"))
      ensures r == Ok || r == Err(Custom("Cannot mint")) || lastTokenId == old(lastTokenId)
      ensures old(lastTokenId) <= lastTokenId <= old(lastTokenId) + mintAmount
      ensures tokenOwner == MintRun(old(tokenOwner), caller, old(lastTokenId) + 1, lastTokenId - old(lastTokenId))
      ensures events == old(events) + MintEvents(caller, old(lastTokenId) + 1, lastTokenId - old(lastTokenId))
      ensures forall j: U64 | old(lastTokenId) < j <= lastTokenId :: U64(j) !in old(tokenOwner)
      ensures r == Ok ==> lastTokenId == old(lastTokenId) + mintAmount
      ensures r == Err(Custom("Cannot mint")) ==>
                lastTokenId < old(lastTokenId) + mintAmount && U64(lastTokenId + 1) in old(tokenOwner)
      ensures old(MintedWithin()) ==> MintedWithin() && r != Err(Custom("Cannot mint"))
    {
      var amountCheck := CheckAmount(mintAmount);
      if amountCheck != Ok {
        return amountCheck;
      }
      var valueCheck := CheckValue(transferredValue, mintAmount);
      if valueCheck != Ok {
        return valueCheck;
      }
      var nextToMint := lastTokenId + 1;
      if nextToMint + mintAmount >= U64_LIMIT {
        return Panic;
      }
      var ok := MintIds(caller, nextToMint + mintAmount);
      if !ok {
        return Err(Custom("Cannot mint"));
      }
      if old(MintedWithin()) {
        MintRunWithin(old(tokenOwner), caller, old(lastTokenId), mintAmount);
      }
      r := Ok;
    }

    // ------------------------------------------------------------ burn

    /** The ledger's approval of `operator` by `holder` for `id`. */
    predicate Allowance(holder: AccountId, operator: AccountId, id: Id)
      reads this
    {
      (holder, operator, id) in approvals
    }

    /** `burn(account, id)`: `account` must be the owner of record of `id`,
        and the caller must be `account` or approved by it for `id`. */
    method Burn(caller: AccountId, account: AccountId, id: Id) returns (r: Outcome<Psp34Error>)
      requires Valid()
      modifies this`tokenOwner
      ensures Valid()
      ensures id !in old(tokenOwner) ==> r == Panic
      ensures id in old(tokenOwner) && old(tokenOwner)[id] != account ==>
                r == Err(Psp34Custom("not token owner"))
      ensures (id in old(tokenOwner) && old(tokenOwner)[id] == account
               && caller != account && !Allowance(account, caller, id)) ==>
                r == Err(Psp34Custom("caller is not token owner or approved"))
      ensures (id in old(tokenOwner) && old(tokenOwner)[id] == account
               && (caller == account || Allowance(account, caller, id))) ==> r == Ok
      ensures r == Ok ==> tokenOwner == old(tokenOwner) - {id}
      ensures r != Ok ==> tokenOwner == old(tokenOwner)
      ensures old(MintedWithin()) ==> MintedWithin()
    {
      if id !in tokenOwner {
        // `owner_of(id).unwrap()` on a token nobody owns
        return Panic;
      }
      var holder := tokenOwner[id];
      if holder != account {
        return Err(Psp34Custom("not token owner"));
      }
      var allowance := Allowance(account, caller, id);
      if caller == account || allowance {
        tokenOwner := tokenOwner - {id};
        r := Ok;
      } else {
        r := Err(Psp34Custom("caller is not token owner or approved"));
      }
    }

    // ------------------------------------------------------------ locking

    /** `is_locked_nft`: whether `id` has a lock entry. */
    function IsLockedNft(id: Id): (r: bool)
      reads this
      ensures r <==> id in lockedTokens
    {
      id in lockedTokens
    }

    /** `lock(id)`: only the token's owner of record may lock it; the lock
        counter rises by one on every successful call, even for an id that
        is already locked. No operation removes a lock. */
    method Lock(caller: AccountId, id: Id) returns (r: Outcome<Error>)
      requires Valid()
      modifies this`lockedTokens, this`lockedTokenCount
      ensures Valid()
      ensures id !in tokenOwner ==> r == Panic
      ensures id in tokenOwner && tokenOwner[id] != caller ==> r == Err(NotTokenOwner)
      ensures id in tokenOwner && tokenOwner[id] == caller ==>
                (r == Ok <==> old(lockedTokenCount) + 1 < U64_LIMIT) && (r == Ok || r == Panic)
      ensures r == Ok ==> (lockedTokenCount == old(lockedTokenCount) + 1
                           && lockedTokens == old(lockedTokens)[id := true]
                           && IsLockedNft(id))
      ensures r != Ok ==> lockedTokenCount == old(lockedTokenCount) && lockedTokens == old(lockedTokens)
    {
      if id !in tokenOwner {
        // `owner_of(id).unwrap()` in the modifier's argument
        return Panic;
      }
      if tokenOwner[id] != caller {
        return Err(NotTokenOwner);
      }
      if lockedTokenCount + 1 >= U64_LIMIT {
        return Panic;
      }
      lockedTokenCount := lockedTokenCount + 1;
      lockedTokens := lockedTokens[id := true];
      r := Ok;
    }

    // ------------------------------------------------------------ attributes

    /** Owner only: stores the base URI as the collection-level attribute
        "baseURI"; every token URI then starts with it. */
    method SetBaseUri(caller: AccountId, uri: Bytes) returns (r: Outcome<Error>)
      requires Valid()
      modifies this`attributes
      ensures Valid()
      ensures caller != owner ==> r == Err(OwnableError(CallerIsNotOwner)) && attributes == old(attributes)
      ensures caller == owner ==> r == Ok && attributes == old(attributes)[(COLLECTION_ID, BASE_URI_KEY) := uri]
      ensures caller == owner ==>
                forall n: U64 :: TokenUri(n) == Some(uri + DecimalText(n) + JSON_SUFFIX)
    {
      if caller != owner {
        return Err(OwnableError(CallerIsNotOwner));
      }
      attributes := attributes[(COLLECTION_ID, BASE_URI_KEY) := uri];
      r := Ok;
    }

    /** `add_attribute_name`: a linear scan of indices 1..attribute_count for
        `name`; a name not found is stored at the next index. Traps when the
        count would pass u32. */
    method AddAttributeName(name: Bytes) returns (r: Outcome<Error>)
      requires RegistryValid(attributeNames, attributeCount)
      modifies this`attributeNames, this`attributeCount
      ensures RegistryValid(attributeNames, attributeCount)
      ensures r == Ok || r == Panic
      ensures r == Ok <==> Register(old(attributeNames), old(attributeCount), name).Some?
      ensures r == Ok ==> (attributeNames, attributeCount)
                          == Register(old(attributeNames), old(attributeCount), name).value
      ensures r == Panic ==> attributeNames == old(attributeNames) && attributeCount == old(attributeCount)
    {
      var exist := false;
      var index := 0;
      while index < attributeCount
        invariant 0 <= index <= attributeCount
        invariant forall j: U32 | 1 <= j <= index && j in attributeNames :: attributeNames[j] != name
      {
        var key: U32 := index + 1;
        if key in attributeNames && attributeNames[key] == name {
          exist := true;
          break;
        }
        index := index + 1;
      }
      if !exist {
        if attributeCount + 1 >= U32_LIMIT {
          // `checked_add(1).unwrap()` on a full registry
          return Panic;
        }
        attributeCount := attributeCount + 1;
        attributeNames := attributeNames[attributeCount := name];
      }
      RegisterValid(old(attributeNames), old(attributeCount), name);
      r := Ok;
    }

    /** The loop of `set_multiple_attributes`: registers each name and writes
        its value on `id`, pair by pair. A trap while registering discards all
        the call's writes. */
    method SetPairs(id: Id, pairs: seq<(Bytes, Bytes)>) returns (ok: bool)
      requires RegistryValid(attributeNames, attributeCount)
      modifies this`attributes, this`attributeNames, this`attributeCount
      ensures RegistryValid(attributeNames, attributeCount)
      ensures ok <==> RegisterAll(old(attributeNames), old(attributeCount), pairs).Some?
      ensures ok ==> (attributes == ApplyPairs(old(attributes), id, pairs)
                      && (attributeNames, attributeCount)
                         == RegisterAll(old(attributeNames), old(attributeCount), pairs).value)
      ensures !ok ==> (attributes == old(attributes) && attributeNames == old(attributeNames)
                       && attributeCount == old(attributeCount))
    {
      var savedAttributes, savedNames, savedCount := attributes, attributeNames, attributeCount;
      var i := 0;
      while i < |pairs|
        invariant 0 <= i <= |pairs|
        invariant RegistryValid(attributeNames, attributeCount)
        invariant RegisterAll(savedNames, savedCount, pairs[..i]) == Some((attributeNames, attributeCount))
        invariant attributes == ApplyPairs(savedAttributes, id, pairs[..i])
      {
        var (name, value) := pairs[i];
        RegisterAllStep(savedNames, savedCount, pairs, i);
        ApplyPairsStep(savedAttributes, id, pairs, i);
        var added := AddAttributeName(name);
        if added != Ok {
          RegisterAllPrefixFails(savedNames, savedCount, pairs, i + 1);
          attributes, attributeNames, attributeCount := savedAttributes, savedNames, savedCount;
          return false;
        }
        attributes := attributes[(id, name) := value];
        i := i + 1;
      }
      assert pairs[..i] == pairs;
      ok := true;
    }

    /** Owner only: writes each (name, value) pair on token `id`, registering
        each name first. Rejects `U64(0)` and locked tokens before writing
        anything. A trap while registering discards all the call's writes. */
    method SetMultipleAttributes(caller: AccountId, id: Id, pairs: seq<(Bytes, Bytes)>)
      returns (r: Outcome<Error>)
      requires Valid()
      modifies this`attributes, this`attributeNames, this`attributeCount
      ensures Valid()
      ensures caller != owner ==> r == Err(OwnableError(CallerIsNotOwner))
      ensures caller == owner && id == U64(0) ==> r == Err(InvalidInput)
      ensures caller == owner && id != U64(0) && IsLockedNft(id) ==>
                r == Err(Custom("Token is locked"))
      ensures caller == owner && id != U64(0) && !IsLockedNft(id) ==>
                (r == Ok <==> RegisterAll(old(attributeNames), old(attributeCount), pairs).Some?)
                && (r == Ok || r == Panic)
      ensures r == Ok ==> (attributes == ApplyPairs(old(attributes), id, pairs)
                           && (attributeNames, attributeCount)
                              == RegisterAll(old(attributeNames), old(attributeCount), pairs).value)
      ensures r != Ok ==> (attributes == old(attributes) && attributeNames == old(attributeNames)
                           && attributeCount == old(attributeCount))
    {
      if caller != owner {
        return Err(OwnableError(CallerIsNotOwner));
      }
      if id == U64(0) {
        return Err(InvalidInput);
      }
      if IsLockedNft(id) {
        return Err(Custom("Token is locked"));
      }
      var ok := SetPairs(id, pairs);
      r := if ok then Ok else Panic;
    }

    /** `get_attributes(id, names)`: one value per requested name, in order,
        the empty string for a name not set on `id`. */
    method GetAttributes(id: Id, names: seq<Bytes>) returns (r: seq<Bytes>)
      ensures |r| == |names|
      ensures forall k | 0 <= k < |names| :: r[k] == AttributeOrEmpty(attributes, id, names[k])
    {
      r := [];
      var i := 0;
      while i < |names|
        invariant 0 <= i <= |names|
        invariant |r| == i
        invariant forall k | 0 <= k < i :: r[k] == AttributeOrEmpty(attributes, id, names[k])
      {
        var key := (id, names[i]);
        if key in attributes {
          r := r + [attributes[key]];
        } else {
          r := r + [[]];
        }
        i := i + 1;
      }
    }

    /** `get_attribute_name(index)`: the name at `index`, or the empty string.
        Index 0 and indices past the count never hold a name. */
    function GetAttributeName(index: U32): (r: Bytes)
      reads this
      ensures Valid() && 1 <= index <= attributeCount ==> r == attributeNames[index]
      ensures Valid() && (index == 0 || index > attributeCount) ==> r == []
    {
      if index in attributeNames then attributeNames[index] else []
    }

    /** `token_uri(id)`: the base URI, the decimal text of `id`, then
        ".json"; `None` when no base URI is stored (the source unwraps it).
        The URI splits back into exactly those three parts. */
    function TokenUri(tokenId: U64): (r: Option<Bytes>)
      reads this
      ensures r.Some? <==> (COLLECTION_ID, BASE_URI_KEY) in attributes
      ensures r.Some? ==>
                var base := attributes[(COLLECTION_ID, BASE_URI_KEY)];
                && |base| + |JSON_SUFFIX| < |r.value|
                && r.value[..|base|] == base
                && (r.value[|base|] == '0' as int ==> tokenId == 0)
                && r.value[|r.value| - |JSON_SUFFIX|..] == JSON_SUFFIX
                && (forall i | |base| <= i < |r.value| - |JSON_SUFFIX| :: IsDigit(r.value[i]))
                && DecimalValue(r.value[|base|..|r.value| - |JSON_SUFFIX|]) == tokenId
    {
      var key := (COLLECTION_ID, BASE_URI_KEY);
      if key in attributes then
        var base := attributes[key];
        DecimalRoundTrip(tokenId);
        var uri := base + DecimalText(tokenId) + JSON_SUFFIX;
        assert uri[|base|..|uri| - |JSON_SUFFIX|] == DecimalText(tokenId);
        Some(uri)
      else
        None
    }

    /** Different ids never share a token URI. */
    lemma TokenUriInjective(m: U64, n: U64)
      requires TokenUri(m).Some? && TokenUri(m) == TokenUri(n)
      ensures m == n
    {
    }
  }
}
