/** The cache that resolves the owner of a token wallet.

    `OwnersCache` keeps two maps: token wallet to owner (persisted under the
    storage key "owners_cache" as a list of address-string pairs), and root
    token contract to its state and detected wallet version (memory only).
    Locks, the resolver semaphore and asynchrony are not modelled: every
    operation runs to completion on its own. */
module Owners {
  import opened Base
  import opened External

  /** The storage key of the persisted owners list (`STORAGE_OWNERS_CACHE`). */
  const StorageKey: string := "owners_cache"

  type OwnersMap = map<MsgAddressInt, MsgAddressInt>

  datatype OwnersCacheError = InvalidRootTokenContract

  /** The errors the cache's operations report: its own, and those of its collaborators. */
  datatype Error =
    | Cache(cacheError: OwnersCacheError)
    | StorageFailed
    | MalformedRecord
    | InvalidAddress(text: string)
    | TransportFailed(transportError: TransportError)
    | TokenContractUnreadable

  /** Whether the owner's token wallet already exists on chain. */
  datatype RecipientWallet = NotExists | Exists(address: MsgAddressInt)

  /** A root token contract's cached state and detected wallet version. */
  datatype RootTokenEntry = RootTokenEntry(state: ExistingContract, version: TokenWalletVersion)

  // ---------------------------------------------------------------------------
  // Decoding the persisted record

  /** `MsgAddressInt::from_str`, with the text that failed as the error. */
  function ParseAddress(codec: AddressCodec, text: string): (r: Result<MsgAddressInt, Error>)
    ensures r.Success? <==> codec.parse(text).Some?
    ensures r.Success? ==> r.value == codec.parse(text).value
    ensures r.Failure? ==> r.error == InvalidAddress(text)
  {
    match codec.parse(text)
    case Some(a) => Success(a)
    case None => Failure(InvalidAddress(text))
  }

  /** One stored pair: the token wallet is parsed first, then the owner. */
  function DecodeItem(codec: AddressCodec, item: (string, string)): Result<(MsgAddressInt, MsgAddressInt), Error>
  {
    var tokenWallet :- ParseAddress(codec, item.0);
    var ownerWallet :- ParseAddress(codec, item.1);
    Success((tokenWallet, ownerWallet))
  }

  /** Decodes every pair in order, stopping at the first failure. */
  function DecodeItems(codec: AddressCodec, items: seq<(string, string)>): (r: Result<seq<(MsgAddressInt, MsgAddressInt)>, Error>)
    ensures r.Success? <==> forall i :: 0 <= i < |items| ==> DecodeItem(codec, items[i]).Success?
    ensures r.Success? ==>
      && |r.value| == |items|
      && forall i :: 0 <= i < |items| ==> r.value[i] == DecodeItem(codec, items[i]).value
    ensures r.Failure? ==>
      exists i :: 0 <= i < |items| && DecodeItem(codec, items[i]) == Failure(r.error)
        && forall j :: 0 <= j < i ==> DecodeItem(codec, items[j]).Success?
  {
    if items == [] then Success([])
    else
      var first :- DecodeItem(codec, items[0]);
      var rest :- DecodeItems(codec, items[1..]);
      assert forall i :: 1 <= i < |items| ==> items[i] == items[1..][i - 1];
      Success([first] + rest)
  }

  /** Whether `pairs[i]` is the last pair with its key. */
  predicate LastOfKey(pairs: seq<(MsgAddressInt, MsgAddressInt)>, i: int)
    requires 0 <= i < |pairs|
  {
    forall j :: i < j < |pairs| ==> pairs[j].0 != pairs[i].0
  }

  /** Inserts the pairs one after the other (`HashMap::extend`, and the
      `HashMap` a `collect` builds): later pairs win. */
  function Extend(m: OwnersMap, pairs: seq<(MsgAddressInt, MsgAddressInt)>): (r: OwnersMap)
    ensures forall k :: k in r <==> k in m || exists i :: 0 <= i < |pairs| && pairs[i].0 == k
    ensures forall k :: k in m && (forall i :: 0 <= i < |pairs| ==> pairs[i].0 != k) ==> r[k] == m[k]
    ensures forall i :: 0 <= i < |pairs| && LastOfKey(pairs, i) ==> pairs[i].0 in r && r[pairs[i].0] == pairs[i].1
    decreases |pairs|
  {
    if pairs == [] then m
    else
      var rest := pairs[1..];
      assert forall i :: 1 <= i < |pairs| ==> pairs[i] == rest[i - 1];
      Extend(m[pairs[0].0 := pairs[0].1], rest)
  }

  /** The owners map held in a storage read (`load`): an absent record is an
      empty map; a failing read, an unparsable record or an unparsable address
      is an error. */
  function DecodeRecord(codec: AddressCodec, stored: Result<Option<Document>, StorageError>): (r: Result<OwnersMap, Error>)
    ensures stored == Success(None) ==> r == Success(map[])
    ensures stored.Failure? ==> r == Failure(StorageFailed)
    ensures stored == Success(Some(Unparsable)) ==> r == Failure(MalformedRecord)
    ensures stored.Success? && stored.value.Some? && stored.value.value.PairList? ==>
      var items := stored.value.value.items;
      && (r.Success? <==> forall i :: 0 <= i < |items| ==> DecodeItem(codec, items[i]).Success?)
      && (r.Failure? ==> exists i :: 0 <= i < |items| && DecodeItem(codec, items[i]) == Failure(r.error))
      && (r.Success? ==> r.value == Extend(map[], DecodeItems(codec, items).value))
  {
    match stored
    case Failure(_) => Failure(StorageFailed)
    case Success(None) => Success(map[])
    case Success(Some(Unparsable)) => Failure(MalformedRecord)
    case Success(Some(PairList(items))) =>
      var pairs :- DecodeItems(codec, items);
      Success(Extend(map[], pairs))
  }

  // ---------------------------------------------------------------------------
  // Encoding the owners map (`save`)

  /** The stored pair for key `k` of `m`: both addresses printed. */
  function Entry(codec: AddressCodec, m: OwnersMap, k: MsgAddressInt): (string, string)
    requires k in m
  {
    (codec.render(k), codec.render(m[k]))
  }

  /** `items` lists every entry of `m` once, in some order. */
  ghost predicate IsEncodingOf(codec: AddressCodec, m: OwnersMap, items: seq<(string, string)>)
  {
    && |items| == |m|
    && (forall k :: k in m ==> Entry(codec, m, k) in items)
    && (forall i :: 0 <= i < |items| ==> exists k :: k in m && items[i] == Entry(codec, m, k))
  }

  /** Lists the map's entries as printed pairs, in the map's iteration order
      (here: any order). */
  method EncodeOwners(codec: AddressCodec, owners: OwnersMap) returns (items: seq<(string, string)>)
    ensures IsEncodingOf(codec, owners, items)
  {
    items := [];
    var remaining := owners.Keys;
    while remaining != {}
      invariant remaining <= owners.Keys
      invariant |items| + |remaining| == |owners|
      invariant forall k :: k in owners && k !in remaining ==> Entry(codec, owners, k) in items
      invariant forall i :: 0 <= i < |items| ==>
        exists k :: k in owners && k !in remaining && items[i] == Entry(codec, owners, k)
      decreases remaining
    {
      var k :| k in remaining;
      items := items + [Entry(codec, owners, k)];
      remaining := remaining - {k};
    }
  }

  /** Inserting pairs that agree with `m` into a map that agrees with `m` gives a
      map that agrees with `m`. */
  lemma {:induction false} ExtendAgrees(m0: OwnersMap, pairs: seq<(MsgAddressInt, MsgAddressInt)>, m: OwnersMap)
    requires forall k :: k in m0 ==> k in m && m0[k] == m[k]
    requires forall i :: 0 <= i < |pairs| ==> pairs[i].0 in m && pairs[i].1 == m[pairs[i].0]
    ensures forall k :: k in Extend(m0, pairs) ==> k in m && Extend(m0, pairs)[k] == m[k]
    decreases |pairs|
  {
    if pairs != [] {
      var rest := pairs[1..];
      assert forall i :: 0 <= i < |rest| ==> rest[i] == pairs[i + 1];
      ExtendAgrees(m0[pairs[0].0 := pairs[0].1], rest, m);
    }
  }

  /** A stored entry decodes to the key and value it was printed from. */
  lemma EntryDecodes(codec: AddressCodec, m: OwnersMap, k: MsgAddressInt)
    requires RoundTrips(codec) && k in m
    ensures DecodeItem(codec, Entry(codec, m, k)) == Success((k, m[k]))
  {
    assert codec.parse(codec.render(k)) == Some(k);
    assert codec.parse(codec.render(m[k])) == Some(m[k]);
  }

  /** Every stored entry decodes, to a pair that agrees with the map it was printed from. */
  lemma EncodedItemsDecode(codec: AddressCodec, m: OwnersMap, items: seq<(string, string)>)
    requires RoundTrips(codec)
    requires forall i :: 0 <= i < |items| ==> exists k :: k in m && items[i] == Entry(codec, m, k)
    ensures DecodeItems(codec, items).Success?
    ensures var pairs := DecodeItems(codec, items).value;
      forall i :: 0 <= i < |pairs| ==> pairs[i].0 in m && pairs[i].1 == m[pairs[i].0]
  {
    forall i | 0 <= i < |items|
      ensures DecodeItem(codec, items[i]).Success?
      ensures DecodeItem(codec, items[i]).value.0 in m
      ensures DecodeItem(codec, items[i]).value.1 == m[DecodeItem(codec, items[i]).value.0]
    {
      assert exists k :: k in m && items[i] == Entry(codec, m, k);
      var k :| k in m && items[i] == Entry(codec, m, k);
      EntryDecodes(codec, m, k);
    }
  }

  /** Every key of the map is the key of some decoded pair. */
  lemma EncodedKeysDecode(codec: AddressCodec, m: OwnersMap, items: seq<(string, string)>, k: MsgAddressInt)
    requires RoundTrips(codec)
    requires DecodeItems(codec, items).Success?
    requires k in m && Entry(codec, m, k) in items
    ensures exists i :: 0 <= i < |items| && DecodeItems(codec, items).value[i].0 == k
  {
    var i :| 0 <= i < |items| && items[i] == Entry(codec, m, k);
    EntryDecodes(codec, m, k);
    assert DecodeItems(codec, items).value[i].0 == k;
  }

  /** Pairs that mention each key of `m` build a map holding every key of `m`. */
  lemma ExtendCovers(pairs: seq<(MsgAddressInt, MsgAddressInt)>, m: OwnersMap)
    requires forall k :: k in m ==> exists i :: 0 <= i < |pairs| && pairs[i].0 == k
    ensures m.Keys <= Extend(map[], pairs).Keys
  {
    forall k | k in m ensures k in Extend(map[], pairs) {
      var i :| 0 <= i < |pairs| && pairs[i].0 == k;
    }
  }

  /** Pairs that agree with `m` and mention each of its keys rebuild exactly `m`. */
  lemma ExtendRebuilds(pairs: seq<(MsgAddressInt, MsgAddressInt)>, m: OwnersMap)
    requires forall i :: 0 <= i < |pairs| ==> pairs[i].0 in m && pairs[i].1 == m[pairs[i].0]
    requires forall k :: k in m ==> exists i :: 0 <= i < |pairs| && pairs[i].0 == k
    ensures Extend(map[], pairs) == m
  {
    ExtendAgrees(map[], pairs, m);
    ExtendCovers(pairs, m);
  }

  /** Saving then loading gives back the same owners map, provided that addresses
      survive printing and parsing. */
  lemma SavedOwnersDecode(codec: AddressCodec, m: OwnersMap, items: seq<(string, string)>)
    requires RoundTrips(codec)
    requires IsEncodingOf(codec, m, items)
    ensures DecodeRecord(codec, Success(Some(PairList(items)))) == Success(m)
  {
    EncodedItemsDecode(codec, m, items);
    var pairs := DecodeItems(codec, items).value;
    forall k | k in m ensures exists i :: 0 <= i < |pairs| && pairs[i].0 == k {
      EncodedKeysDecode(codec, m, items, k);
    }
    ExtendRebuilds(pairs, m);
  }

  // ---------------------------------------------------------------------------
  // Resolution over the transport

  /** The owner a token wallet's own contract names, when the transport finds the
      contract and its version and details parse; `None` otherwise. */
  function FetchedOwner(reply: Result<ContractState, TransportError>, parsers: TokenContractParsers)
    : (r: Option<MsgAddressInt>)
    ensures r.Some? <==>
      && reply.Success? && reply.value.Exists?
      && parsers.walletVersion(reply.value.contract).Some?
      && parsers.walletOwner(reply.value.contract, parsers.walletVersion(reply.value.contract).value).Some?
    ensures r.Some? ==>
      r == parsers.walletOwner(reply.value.contract, parsers.walletVersion(reply.value.contract).value)
  {
    match reply
    case Failure(_) => None
    case Success(NotExists) => None
    case Success(Exists(contract)) =>
      match parsers.walletVersion(contract)
      case None => None
      case Some(version) => parsers.walletOwner(contract, version)
  }

  /** What `resolve_owners` answers for a set of token wallets: the cached owner
      of each cached wallet, the fetched owner of each other wallet whose
      resolution succeeds, nothing for the rest. */
  ghost function ResolvedOwners(
    wallets: set<MsgAddressInt>, cached: OwnersMap,
    chain: MsgAddressInt -> Result<ContractState, TransportError>, parsers: TokenContractParsers)
    : OwnersMap
  {
    map tw | tw in wallets && (tw in cached || FetchedOwner(chain(tw), parsers).Some?)
      :: if tw in cached then cached[tw] else FetchedOwner(chain(tw), parsers).value
  }

  /** The wallets `resolve_owners` sends to the transport: the uncached ones. */
  ghost function Misses(wallets: set<MsgAddressInt>, cached: OwnersMap): set<MsgAddressInt>
  {
    set tw | tw in wallets && tw !in cached
  }

  /** Resolving one more wallet adds at most that wallet's answer. */
  lemma ResolvedOwnersStep(
    done: set<MsgAddressInt>, tw: MsgAddressInt, cached: OwnersMap,
    chain: MsgAddressInt -> Result<ContractState, TransportError>, parsers: TokenContractParsers)
    requires tw !in done
    ensures ResolvedOwners(done + {tw}, cached, chain, parsers) ==
      if tw in cached then ResolvedOwners(done, cached, chain, parsers)[tw := cached[tw]]
      else if FetchedOwner(chain(tw), parsers).Some? then
        ResolvedOwners(done, cached, chain, parsers)[tw := FetchedOwner(chain(tw), parsers).value]
      else ResolvedOwners(done, cached, chain, parsers)
  {
  }

  /** Recording an owner in the merged map is recording it in the resolved part. */
  lemma MergeRecord(cached: OwnersMap, resolved: OwnersMap, tw: MsgAddressInt, owner: MsgAddressInt)
    ensures (cached + resolved)[tw := owner] == cached + resolved[tw := owner]
  {
  }

  /** Answering a cached wallet from the cache leaves the merged map unchanged. */
  lemma MergeCached(cached: OwnersMap, resolved: OwnersMap, tw: MsgAddressInt)
    requires tw in cached && tw !in resolved
    ensures cached + resolved[tw := cached[tw]] == cached + resolved
  {
  }

  /** Resolving one more wallet adds it to the fetched wallets exactly when it is uncached. */
  lemma MissesStep(done: set<MsgAddressInt>, tw: MsgAddressInt, cached: OwnersMap)
    requires tw !in done
    ensures multiset(Misses(done + {tw}, cached))
         == multiset(Misses(done, cached)) + (if tw in cached then multiset{} else multiset{tw})
  {
    if tw !in cached {
      assert Misses(done + {tw}, cached) == Misses(done, cached) + {tw};
      assert tw !in Misses(done, cached);
    } else {
      assert Misses(done + {tw}, cached) == Misses(done, cached);
    }
  }

  /** Resolution answers only for wallets asked about, keeps cached owners, and
      answers an uncached wallet exactly when fetching it succeeds; recording the
      answers never overwrites a cached owner. */
  lemma ResolvedOwnersMeaning(
    wallets: set<MsgAddressInt>, cached: OwnersMap,
    chain: MsgAddressInt -> Result<ContractState, TransportError>, parsers: TokenContractParsers)
    ensures var r := ResolvedOwners(wallets, cached, chain, parsers);
      && r.Keys <= wallets
      && (forall tw :: tw in wallets && tw in cached ==> tw in r && r[tw] == cached[tw])
      && (forall tw :: tw in wallets && tw !in cached ==>
            (tw in r <==> FetchedOwner(chain(tw), parsers).Some?)
            && (tw in r ==> r[tw] == FetchedOwner(chain(tw), parsers).value))
      && (forall tw :: tw in cached ==> tw in cached + r && (cached + r)[tw] == cached[tw])
  {
  }

  /** Resolving the same wallets again, after the first answers were recorded,
      gives the same answers; the second round fetches only the wallets whose
      first resolution failed (none, when every wallet resolved). */
  lemma ResolveOwnersIdempotent(
    wallets: set<MsgAddressInt>, cached: OwnersMap,
    chain: MsgAddressInt -> Result<ContractState, TransportError>, parsers: TokenContractParsers)
    ensures var first := ResolvedOwners(wallets, cached, chain, parsers);
      && ResolvedOwners(wallets, cached + first, chain, parsers) == first
      && Misses(wallets, cached + first) == Misses(wallets, cached) - first.Keys
      && Misses(wallets, cached + first) == wallets - first.Keys
  {
    var first := ResolvedOwners(wallets, cached, chain, parsers);
    var second := ResolvedOwners(wallets, cached + first, chain, parsers);
    assert second.Keys == first.Keys;
  }

  /** The entry `check_recipient_wallet` caches for a root token contract: its
      state, when the transport finds it, with the version detected from it. */
  function RootEntryFrom(reply: Result<ContractState, TransportError>, parsers: TokenContractParsers)
    : (r: Result<RootTokenEntry, Error>)
    ensures r == Failure(Cache(InvalidRootTokenContract)) <==> reply == Success(ContractState.NotExists)
    ensures reply.Failure? ==> r == Failure(TransportFailed(reply.error))
    ensures r.Success? <==>
      reply.Success? && reply.value.Exists? && parsers.rootVersion(reply.value.contract).Some?
    ensures r.Success? ==>
      r.value.state == reply.value.contract && r.value.version == parsers.rootVersion(r.value.state).value
  {
    match reply
    case Failure(e) => Failure(TransportFailed(e))
    case Success(NotExists) => Failure(Cache(InvalidRootTokenContract))
    case Success(Exists(state)) =>
      match parsers.rootVersion(state)
      case None => Failure(TokenContractUnreadable)
      case Some(version) => Success(RootTokenEntry(state, version))
  }

  /** The answer of the existence check on a derived token wallet. */
  function WalletExistence(reply: Result<ContractState, TransportError>, tokenWallet: MsgAddressInt)
    : (r: Result<RecipientWallet, Error>)
    ensures r == Success(RecipientWallet.Exists(tokenWallet)) <==> reply.Success? && reply.value.Exists?
    ensures r == Success(RecipientWallet.NotExists) <==> reply == Success(ContractState.NotExists)
    ensures r.Failure? <==> reply.Failure?
    ensures r.Failure? ==> r.error == TransportFailed(reply.error)
  {
    match reply
    case Failure(e) => Failure(TransportFailed(e))
    case Success(NotExists) => Success(RecipientWallet.NotExists)
    case Success(Exists(_)) => Success(RecipientWallet.Exists(tokenWallet))
  }

  class OwnersCache {
    const storage: Storage
    const transport: Transport
    const codec: AddressCodec
    const parsers: TokenContractParsers
    /** The size of the resolver semaphore; it bounds concurrency only. */
    const concurrentResolvers: nat
    var owners: OwnersMap
    var tokenContractStates: map<MsgAddressInt, RootTokenEntry>

    constructor (
      storage: Storage, transport: Transport, codec: AddressCodec, parsers: TokenContractParsers,
      concurrentResolvers: nat, owners: OwnersMap)
      ensures this.storage == storage && this.transport == transport
      ensures this.codec == codec && this.parsers == parsers
      ensures this.concurrentResolvers == concurrentResolvers
      ensures this.owners == owners && tokenContractStates == map[]
    {
      this.storage := storage;
      this.transport := transport;
      this.codec := codec;
      this.parsers := parsers;
      this.concurrentResolvers := concurrentResolvers;
      this.owners := owners;
      tokenContractStates := map[];
    }

    /** The storage holds exactly the current owners map under `StorageKey`. */
    ghost predicate Persisted()
      reads this, storage
    {
      && StorageKey in storage.records
      && storage.records[StorageKey].PairList?
      && IsEncodingOf(codec, owners, storage.records[StorageKey].items)
    }

    /** `load`: a cache over the stored owners map, with no root states; fails
      when the record cannot be read or decoded. */
    static method Load(
      storage: Storage, transport: Transport, codec: AddressCodec, parsers: TokenContractParsers,
      concurrentResolvers: nat)
      returns (r: Result<OwnersCache, Error>)
      ensures var decoded := DecodeRecord(codec, storage.Get(StorageKey));
        && (r.Success? <==> decoded.Success?)
        && (r.Failure? ==> r.error == decoded.error)
        && (r.Success? ==>
              && fresh(r.value)
              && r.value.owners == decoded.value
              && r.value.tokenContractStates == map[]
              && r.value.storage == storage && r.value.transport == transport
              && r.value.codec == codec && r.value.parsers == parsers
              && r.value.concurrentResolvers == concurrentResolvers)
    {
      match DecodeRecord(codec, storage.Get(StorageKey))
      case Failure(e) =>
        r := Failure(e);
      case Success(data) =>
        var cache := new OwnersCache(storage, transport, codec, parsers, concurrentResolvers, data);
        r := Success(cache);
    }

    /** `load_unchecked`: as `load`, but any failure gives an empty cache. */
    static method LoadUnchecked(
      storage: Storage, transport: Transport, codec: AddressCodec, parsers: TokenContractParsers,
      concurrentResolvers: nat)
      returns (cache: OwnersCache)
      ensures fresh(cache)
      ensures var decoded := DecodeRecord(codec, storage.Get(StorageKey));
        cache.owners == (if decoded.Success? then decoded.value else map[])
      ensures cache.tokenContractStates == map[]
      ensures cache.storage == storage && cache.transport == transport
      ensures cache.codec == codec && cache.parsers == parsers
      ensures cache.concurrentResolvers == concurrentResolvers
    {
      var loaded := Load(storage, transport, codec, parsers, concurrentResolvers);
      match loaded
      case Success(c) =>
        cache := c;
      case Failure(_) =>
        cache := new OwnersCache(storage, transport, codec, parsers, concurrentResolvers, map[]);
    }

    /** `get_owner`: the cached owner of a token wallet, without network access. */
    function GetOwner(tokenWallet: MsgAddressInt): (r: Option<MsgAddressInt>)
      reads this
      ensures r.Some? <==> tokenWallet in owners
      ensures r.Some? ==> r.value == owners[tokenWallet]
    {
      if tokenWallet in owners then Some(owners[tokenWallet]) else None
    }

    /** `save`: writes the owners map as one printed pair per entry. */
    method Save()
      modifies storage`records
      ensures Persisted()
      ensures storage.records == old(storage.records)[StorageKey := storage.records[StorageKey]]
    {
      var items := EncodeOwners(codec, owners);
      storage.SetUnchecked(StorageKey, PairList(items));
    }

    /** `add_entry`: records one owner, overwriting any previous one, and persists. */
    method AddEntry(tokenWallet: MsgAddressInt, ownerWallet: MsgAddressInt)
      modifies this`owners, storage`records
      ensures owners == old(owners)[tokenWallet := ownerWallet]
      ensures Persisted()
      ensures storage.records == old(storage.records)[StorageKey := storage.records[StorageKey]]
    {
      owners := owners[tokenWallet := ownerWallet];
      Save();
    }

    /** `add_owners_list`: records the pairs in order (later pairs win) and persists. */
    method AddOwnersList(newOwners: seq<(MsgAddressInt, MsgAddressInt)>)
      modifies this`owners, storage`records
      ensures owners == Extend(old(owners), newOwners)
      ensures Persisted()
      ensures storage.records == old(storage.records)[StorageKey := storage.records[StorageKey]]
    {
      owners := Extend(owners, newOwners);
      Save();
    }

    /** `resolve_owners`: answers each distinct wallet from the cache or, failing
      that, from its contract over the transport; records what it fetches and
      drops what fails. It does not persist. */
    method ResolveOwners(tokenWallets: seq<MsgAddressInt>) returns (resolved: OwnersMap)
      modifies this`owners, transport`requests
      ensures resolved == ResolvedOwners(set tw | tw in tokenWallets, old(owners), transport.chain, parsers)
      ensures owners == old(owners) + resolved
      ensures |old(transport.requests)| <= |transport.requests|
      ensures transport.requests[..|old(transport.requests)|] == old(transport.requests)
      ensures multiset(transport.requests[|old(transport.requests)|..])
           == multiset(Misses(set tw | tw in tokenWallets, old(owners)))
      ensures storage.records == old(storage.records)
    {
      var wallets := set tw | tw in tokenWallets;
      ghost var cached := owners;
      ghost var before := transport.requests;
      var pending := wallets;
      resolved := map[];
      ghost var fetched: seq<MsgAddressInt> := [];
      while pending != {}
        invariant pending <= wallets
        invariant resolved == ResolvedOwners(wallets - pending, cached, transport.chain, parsers)
        invariant owners == cached + resolved
        invariant resolved.Keys <= wallets - pending
        invariant transport.requests == before + fetched
        invariant multiset(fetched) == multiset(Misses(wallets - pending, cached))
        decreases pending
      {
        var tw :| tw in pending;
        ghost var done := wallets - pending;
        ResolvedOwnersStep(done, tw, cached, transport.chain, parsers);
        MissesStep(done, tw, cached);
        assert tw !in resolved;
        assert (tw in owners) == (tw in cached);
        if tw in owners {
          MergeCached(cached, resolved, tw);
          resolved := resolved[tw := owners[tw]];
        } else {
          var reply := transport.GetContractState(tw);
          fetched := fetched + [tw];
          match FetchedOwner(reply, parsers)
          case Some(ownerWallet) =>
            MergeRecord(cached, resolved, tw, ownerWallet);
            owners := owners[tw := ownerWallet];
            resolved := resolved[tw := ownerWallet];
          case None =>
        }
        pending := pending - {tw};
        assert wallets - pending == done + {tw};
      }
      assert transport.requests[|before|..] == fetched;
    }

    /** `check_token_wallet`: derives the owner's token wallet from the root entry,
      records it as owned by `ownerWallet` (before, and whatever the outcome of,
      the existence check), then asks the transport whether it exists. It does
      not persist. */
    method CheckTokenWallet(entry: RootTokenEntry, ownerWallet: MsgAddressInt) returns (r: Result<RecipientWallet, Error>)
      modifies this`owners, transport`requests
      ensures var derived := parsers.walletAddress(entry.state, entry.version, ownerWallet);
        && (derived.None? ==>
              && r == Failure(TokenContractUnreadable)
              && owners == old(owners)
              && transport.requests == old(transport.requests))
        && (derived.Some? ==>
              && owners == old(owners)[derived.value := ownerWallet]
              && transport.requests == old(transport.requests) + [derived.value]
              && r == WalletExistence(transport.chain(derived.value), derived.value))
      ensures storage.records == old(storage.records)
    {
      match parsers.walletAddress(entry.state, entry.version, ownerWallet)
      case None =>
        r := Failure(TokenContractUnreadable);
      case Some(tokenWallet) =>
        owners := owners[tokenWallet := ownerWallet];
        var reply := transport.GetContractState(tokenWallet);
        r := WalletExistence(reply, tokenWallet);
    }

    /** `check_recipient_wallet`: checks the owner's token wallet under a root token
      contract, fetching and caching the root's state and version on first use. */
    method CheckRecipientWallet(rootTokenContract: MsgAddressInt, ownerWallet: MsgAddressInt)
      returns (r: Result<RecipientWallet, Error>)
      modifies this`owners, this`tokenContractStates, transport`requests
      ensures rootTokenContract in old(tokenContractStates) ==>
        var entry := old(tokenContractStates)[rootTokenContract];
        var derived := parsers.walletAddress(entry.state, entry.version, ownerWallet);
        && tokenContractStates == old(tokenContractStates)
        && (derived.None? ==>
              r == Failure(TokenContractUnreadable) && owners == old(owners)
              && transport.requests == old(transport.requests))
        && (derived.Some? ==>
              && owners == old(owners)[derived.value := ownerWallet]
              && transport.requests == old(transport.requests) + [derived.value]
              && r == WalletExistence(transport.chain(derived.value), derived.value))
      ensures rootTokenContract !in old(tokenContractStates) ==>
        var root := RootEntryFrom(transport.chain(rootTokenContract), parsers);
        && (root.Failure? ==>
              && r == Failure(root.error)
              && tokenContractStates == old(tokenContractStates)
              && owners == old(owners)
              && transport.requests == old(transport.requests) + [rootTokenContract])
        && (root.Success? ==>
              var derived := parsers.walletAddress(root.value.state, root.value.version, ownerWallet);
              && tokenContractStates == old(tokenContractStates)[rootTokenContract := root.value]
              && (derived.None? ==>
                    r == Failure(TokenContractUnreadable) && owners == old(owners)
                    && transport.requests == old(transport.requests) + [rootTokenContract])
              && (derived.Some? ==>
                    && owners == old(owners)[derived.value := ownerWallet]
                    && transport.requests == old(transport.requests) + [rootTokenContract, derived.value]
                    && r == WalletExistence(transport.chain(derived.value), derived.value)))
      ensures storage.records == old(storage.records)
    {
      if rootTokenContract in tokenContractStates {
        r := CheckTokenWallet(tokenContractStates[rootTokenContract], ownerWallet);
      } else {
        var reply := transport.GetContractState(rootTokenContract);
        match RootEntryFrom(reply, parsers)
        case Failure(e) =>
          r := Failure(e);
        case Success(entry) =>
          tokenContractStates := tokenContractStates[rootTokenContract := entry];
          r := CheckTokenWallet(entry, ownerWallet);
      }
    }
  }

  /** After a save, reading the record back and decoding it gives the owners map. */
  lemma PersistedReloads(cache: OwnersCache)
    requires cache.Persisted() && cache.storage.readable && RoundTrips(cache.codec)
    ensures DecodeRecord(cache.codec, cache.storage.Get(StorageKey)) == Success(cache.owners)
  {
    SavedOwnersDecode(cache.codec, cache.owners, cache.storage.records[StorageKey].items);
  }

  /** Two checks under the same root: the first fetches the root at most once
      (not at all when it was cached), and once it has cached the root's state,
      the second fetches only its own derived token wallet, never the root.
      `mid` is the request log between the two calls. */
  method CheckRecipientWalletTwice(
    cache: OwnersCache, rootTokenContract: MsgAddressInt, owner1: MsgAddressInt, owner2: MsgAddressInt)
    returns (r1: Result<RecipientWallet, Error>, r2: Result<RecipientWallet, Error>, ghost mid: seq<MsgAddressInt>)
    modifies cache`owners, cache`tokenContractStates, cache.transport`requests
    ensures var before := old(cache.transport.requests);
      && |before| <= |mid|
      && mid[..|before|] == before
      && |mid| <= |before| + (if rootTokenContract in old(cache.tokenContractStates) then 1 else 2)
    ensures r1.Success? ==> rootTokenContract in cache.tokenContractStates
    ensures r1.Success? ==>
      var entry := cache.tokenContractStates[rootTokenContract];
      var derived := cache.parsers.walletAddress(entry.state, entry.version, owner2);
      cache.transport.requests == mid + (if derived.Some? then [derived.value] else [])
  {
    r1 := cache.CheckRecipientWallet(rootTokenContract, owner1);
    mid := cache.transport.requests;
    r2 := cache.CheckRecipientWallet(rootTokenContract, owner2);
  }
}
