/** The value-level part of the PSP34 collection: token ids, errors and
    events, the decimal text of an id used in token URIs, the attribute store
    and how a list of (name, value) pairs updates it, the attribute-name
    registry, and the ownership and events a run of sequential mints leaves. */
module CollectionRules {
  import opened Types

  /** A PSP34 token id. The collection-level attributes live under `U8(0)`,
      which is a different id from `U64(0)`. */
  datatype Id = U8(u8: U8) | U16(u16: U16) | U32(u32: U32) | U64(u64: U64)
              | U128(u128: U128) | Bytes(bytes: Bytes)

  datatype OwnableError = CallerIsNotOwner

  /** The contract's error type (the variants the collection uses). */
  datatype Error = Custom(message: string) | NotTokenOwner | InvalidInput | BidNotExist
                 | OwnableError(ownable: OwnableError)

  /** The ledger's error type, as `burn` returns it. */
  datatype Psp34Error = Psp34Custom(text: string)

  /** A transfer event; a mint has no `from`. */
  datatype Event = Transfer(from: Option<AccountId>, to: Option<AccountId>, id: Id)

  /** The attribute store of the metadata extension. */
  type Attributes = map<(Id, Bytes), Bytes>

  const COLLECTION_ID: Id := U8(0)
  /** "name", "symbol", "baseURI" and ".json" as bytes. */
  const NAME_KEY: Bytes := [0x6e, 0x61, 0x6d, 0x65]
  const SYMBOL_KEY: Bytes := [0x73, 0x79, 0x6d, 0x62, 0x6f, 0x6c]
  const BASE_URI_KEY: Bytes := [0x62, 0x61, 0x73, 0x65, 0x55, 0x52, 0x49]
  const JSON_SUFFIX: Bytes := [0x2e, 0x6a, 0x73, 0x6f, 0x6e]

  // ---------------------------------------------------------------- decimal text

  predicate IsDigit(c: U8)
  {
    '0' as int <= c <= '9' as int
  }

  /** The decimal text of `n`, as `to_string` writes it. */
  function DecimalText(n: nat): Bytes
    decreases n
  {
    if n < 10 then [('0' as int) + n]
    else DecimalText(n / 10) + [('0' as int) + n % 10]
  }

  /** The number a string of decimal digits denotes. */
  function DecimalValue(s: Bytes): nat
    requires forall i | 0 <= i < |s| :: IsDigit(s[i])
    decreases |s|
  {
    if s == [] then 0
    else
      var d := s[|s| - 1];
      assert IsDigit(d);
      DecimalValue(s[..|s| - 1]) * 10 + (d - '0' as int)
  }

  /** The decimal text is made of digits, has no leading zero, and reads back
      as the number it was made from. */
  lemma {:induction false} DecimalRoundTrip(n: nat)
    ensures |DecimalText(n)| > 0
    ensures forall i | 0 <= i < |DecimalText(n)| :: IsDigit(DecimalText(n)[i])
    ensures DecimalText(n)[0] == '0' as int ==> n == 0
    ensures DecimalValue(DecimalText(n)) == n
    decreases n
  {
    if n >= 10 {
      DecimalRoundTrip(n / 10);
      var s := DecimalText(n);
      assert s[..|s| - 1] == DecimalText(n / 10);
    }
  }

  /** Different ids have different decimal texts. */
  lemma DecimalTextInjective(m: nat, n: nat)
    requires DecimalText(m) == DecimalText(n)
    ensures m == n
  {
    DecimalRoundTrip(m);
    DecimalRoundTrip(n);
  }

  // ---------------------------------------------------------------- attributes

  /** The stored value of `name` on `id`, or the empty string when unset. */
  function AttributeOrEmpty(attrs: Attributes, id: Id, name: Bytes): Bytes
  {
    if (id, name) in attrs then attrs[(id, name)] else []
  }

  /** The store after writing each pair under `id`, in order. */
  function ApplyPairs(attrs: Attributes, id: Id, pairs: seq<(Bytes, Bytes)>): Attributes
    decreases |pairs|
  {
    if pairs == [] then attrs
    else
      var last := pairs[|pairs| - 1];
      ApplyPairs(attrs, id, pairs[..|pairs| - 1])[(id, last.0) := last.1]
  }

  /** Writing one more pair on top of a prefix of the pairs. */
  lemma ApplyPairsStep(attrs: Attributes, id: Id, pairs: seq<(Bytes, Bytes)>, i: nat)
    requires i < |pairs|
    ensures ApplyPairs(attrs, id, pairs[..i + 1])
         == ApplyPairs(attrs, id, pairs[..i])[(id, pairs[i].0) := pairs[i].1]
  {
    assert pairs[..i + 1][..i] == pairs[..i];
  }

  /** The value of the last pair named `name`, if any. */
  function LastValue(pairs: seq<(Bytes, Bytes)>, name: Bytes): Option<Bytes>
    decreases |pairs|
  {
    if pairs == [] then None
    else if pairs[|pairs| - 1].0 == name then Some(pairs[|pairs| - 1].1)
    else LastValue(pairs[..|pairs| - 1], name)
  }

  /** Reading back after writing pairs under `id`: a name given in the pairs
      holds the value of its last pair; every other (id, name) keeps what it
      had. */
  lemma {:induction false} ApplyPairsLookup(attrs: Attributes, id: Id, pairs: seq<(Bytes, Bytes)>,
                                            id': Id, name: Bytes)
    ensures id' == id && LastValue(pairs, name).Some? ==>
              AttributeOrEmpty(ApplyPairs(attrs, id, pairs), id', name) == LastValue(pairs, name).value
    ensures id' != id || LastValue(pairs, name).None? ==>
              AttributeOrEmpty(ApplyPairs(attrs, id, pairs), id', name) == AttributeOrEmpty(attrs, id', name)
    decreases |pairs|
  {
    if pairs != [] {
      ApplyPairsLookup(attrs, id, pairs[..|pairs| - 1], id', name);
    }
  }

  // ---------------------------------------------------------------- name registry

  /** `name` is stored at some index 1..count. */
  ghost predicate Registered(names: map<U32, Bytes>, count: U32, name: Bytes)
  {
    exists i: U32 :: 1 <= i <= count && i in names && names[i] == name
  }

  /** The registry's invariant: exactly the indices 1..count are used and no
      name is stored twice. */
  ghost predicate RegistryValid(names: map<U32, Bytes>, count: U32)
  {
    && (forall i: U32 :: i in names <==> 1 <= i <= count)
    && (forall i: U32, j: U32 | i in names && j in names :: names[i] == names[j] ==> i == j)
  }

  /** Registering a name: a name already present changes nothing; a new one
      is stored at index count + 1; `None` when the count would overflow u32. */
  ghost function Register(names: map<U32, Bytes>, count: U32, name: Bytes)
    : (r: Option<(map<U32, Bytes>, U32)>)
  {
    if Registered(names, count, name) then Some((names, count))
    else if count + 1 >= U32_LIMIT then None
    else Some((names[count + 1 := name], count + 1))
  }

  /** Registering keeps the registry valid, leaves the name registered and
      grows the count by at most one. */
  lemma RegisterValid(names: map<U32, Bytes>, count: U32, name: Bytes)
    requires RegistryValid(names, count)
    requires Register(names, count, name).Some?
    ensures var (names', count') := Register(names, count, name).value;
            && RegistryValid(names', count')
            && Registered(names', count', name)
            && (count' == count || count' == count + 1)
            && (forall i | i in names :: i in names' && names'[i] == names[i])
  {
    var (names', count') := Register(names, count, name).value;
    if !Registered(names, count, name) {
      assert names'[count'] == name;
    }
  }

  /** Registering the same name a second time changes nothing. */
  lemma RegisterIdempotent(names: map<U32, Bytes>, count: U32, name: Bytes)
    requires Register(names, count, name).Some?
    ensures var (names', count') := Register(names, count, name).value;
            Register(names', count', name) == Some((names', count'))
  {
    var (names', count') := Register(names, count, name).value;
    if !Registered(names, count, name) {
      assert 1 <= count' <= count' && count' in names' && names'[count'] == name;
    }
  }

  /** Registering the names of all pairs, in order; `None` on overflow. */
  ghost function RegisterAll(names: map<U32, Bytes>, count: U32, pairs: seq<(Bytes, Bytes)>)
    : Option<(map<U32, Bytes>, U32)>
    decreases |pairs|
  {
    if pairs == [] then Some((names, count))
    else
      match RegisterAll(names, count, pairs[..|pairs| - 1])
      case None => None
      case Some((n, c)) => Register(n, c, pairs[|pairs| - 1].0)
  }

  /** Registering the name of one more pair on top of a prefix of the pairs. */
  lemma RegisterAllStep(names: map<U32, Bytes>, count: U32, pairs: seq<(Bytes, Bytes)>, i: nat)
    requires i < |pairs|
    requires RegisterAll(names, count, pairs[..i]).Some?
    ensures var (n, c) := RegisterAll(names, count, pairs[..i]).value;
            RegisterAll(names, count, pairs[..i + 1]) == Register(n, c, pairs[i].0)
  {
    assert pairs[..i + 1][..i] == pairs[..i];
  }

  /** After registering the names of all pairs, the registry is valid, every
      name given is registered and the earlier entries are untouched. */
  lemma {:induction false} RegisterAllValid(names: map<U32, Bytes>, count: U32,
                                            pairs: seq<(Bytes, Bytes)>)
    requires RegistryValid(names, count)
    requires RegisterAll(names, count, pairs).Some?
    ensures var (names', count') := RegisterAll(names, count, pairs).value;
            && RegistryValid(names', count')
            && count <= count'
            && (forall i | i in names :: i in names' && names'[i] == names[i])
            && (forall k | 0 <= k < |pairs| :: Registered(names', count', pairs[k].0))
    decreases |pairs|
  {
    if pairs != [] {
      var prefix := pairs[..|pairs| - 1];
      RegisterAllValid(names, count, prefix);
      var (n, c) := RegisterAll(names, count, prefix).value;
      var name := pairs[|pairs| - 1].0;
      RegisterValid(n, c, name);
      var (names', count') := Register(n, c, name).value;
      forall k | 0 <= k < |pairs|
        ensures Registered(names', count', pairs[k].0)
      {
        if k < |pairs| - 1 {
          assert pairs[k] == prefix[k];
          var i: U32 :| 1 <= i <= c && i in n && n[i] == pairs[k].0;
          assert 1 <= i <= count' && i in names' && names'[i] == pairs[k].0;
        }
      }
    }
  }

  /** Once the names of a prefix of the pairs overflow the count, so do the
      names of all the pairs. */
  lemma {:induction false} RegisterAllPrefixFails(names: map<U32, Bytes>, count: U32,
                                                  pairs: seq<(Bytes, Bytes)>, k: nat)
    requires k <= |pairs|
    requires RegisterAll(names, count, pairs[..k]).None?
    ensures RegisterAll(names, count, pairs).None?
    decreases |pairs|
  {
    if k < |pairs| {
      var prefix := pairs[..|pairs| - 1];
      assert prefix[..k] == pairs[..k];
      RegisterAllPrefixFails(names, count, prefix, k);
    } else {
      assert pairs[..k] == pairs;
    }
  }

  // ---------------------------------------------------------------- sequential mint

  /** The owners of record after minting ids `first .. first + k - 1` to
      `to`, one after another. */
  function MintRun(owners: map<Id, AccountId>, to: AccountId, first: nat, k: nat)
    : map<Id, AccountId>
    requires first + k <= U64_LIMIT
    decreases k
  {
    if k == 0 then owners else MintRun(owners, to, first, k - 1)[U64(first + k - 1) := to]
  }

  /** The transfer events of minting ids `first .. first + k - 1` to `to`. */
  function MintEvents(to: AccountId, first: nat, k: nat): seq<Event>
    requires first + k <= U64_LIMIT
    decreases k
  {
    if k == 0 then [] else MintEvents(to, first, k - 1) + [Transfer(None, Some(to), U64(first + k - 1))]
  }

  /** A run of mints gives every id of the run to `to` and leaves every other
      id as it was. */
  lemma {:induction false} MintRunOwners(owners: map<Id, AccountId>, to: AccountId, first: nat,
                                         k: nat, id: Id)
    requires first + k <= U64_LIMIT
    ensures id.U64? && first <= id.u64 < first + k ==>
              id in MintRun(owners, to, first, k) && MintRun(owners, to, first, k)[id] == to
    ensures !(id.U64? && first <= id.u64 < first + k) ==>
              (id in MintRun(owners, to, first, k) <==> id in owners) &&
              (id in owners ==> MintRun(owners, to, first, k)[id] == owners[id])
    decreases k
  {
    if k > 0 {
      MintRunOwners(owners, to, first, k - 1, id);
    }
  }

  /** A run of mints that starts right after `last`, over a ledger whose ids
      are all `U64` within 1..last, leaves every id within 1..last + k. */
  lemma {:induction false} MintRunWithin(owners: map<Id, AccountId>, to: AccountId, last: nat, k: nat)
    requires last + 1 + k <= U64_LIMIT
    requires forall id | id in owners :: id.U64? && 1 <= id.u64 <= last
    ensures forall id | id in MintRun(owners, to, last + 1, k) :: id.U64? && 1 <= id.u64 <= last + k
    decreases k
  {
    if k > 0 {
      MintRunWithin(owners, to, last, k - 1);
    }
  }

  /** A run of mints emits exactly one event per id, in ascending id order. */
  lemma {:induction false} MintEventsAscending(to: AccountId, first: nat, k: nat)
    requires first + k <= U64_LIMIT
    ensures |MintEvents(to, first, k)| == k
    ensures forall i | 0 <= i < k :: MintEvents(to, first, k)[i] == Transfer(None, Some(to), U64(first + i))
    decreases k
  {
    if k > 0 {
      MintEventsAscending(to, first, k - 1);
    }
  }
}
