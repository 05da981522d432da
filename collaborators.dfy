/** The collaborators the owners cache is handed: the network transport, the
    key-value storage, address printing and parsing, and the token contract
    parsers. They are specified only at the boundary the cache uses. */
module External {
  import opened Base

  /** A contract snapshot as the transport returns it (`ExistingContract`). */
  datatype ExistingContract = ExistingContract(account: Cell, lastTransactionLt: u64)

  /** `ContractState`: what the transport knows of an address. */
  datatype ContractState = NotExists | Exists(contract: ExistingContract)

  datatype TransportError = TransportError(reason: string)

  /** The network. Its answers are fixed for the duration of a model run, and
      every request is logged so that calls can be counted. */
  class Transport {
    /** The answer `get_contract_state` gives for each address. */
    const chain: MsgAddressInt -> Result<ContractState, TransportError>
    /** Every address passed to `get_contract_state`, in call order (a ghost
        log that only lets contracts count requests). */
    ghost var requests: seq<MsgAddressInt>

    constructor (chain: MsgAddressInt -> Result<ContractState, TransportError>)
      ensures this.chain == chain && requests == []
    {
      this.chain := chain;
      requests := [];
    }

    /** `get_contract_state`: answers from `chain` and logs the request. */
    method GetContractState(address: MsgAddressInt) returns (r: Result<ContractState, TransportError>)
      modifies this`requests
      ensures r == chain(address)
      ensures requests == old(requests) + [address]
    {
      r := chain(address);
      requests := requests + [address];
    }
  }

  /** What can be stored under a key: a JSON list of string pairs, or text that
      does not deserialise to one. */
  datatype Document = PairList(items: seq<(string, string)>) | Unparsable

  datatype StorageError = StorageError

  /** The key-value storage. */
  class Storage {
    /** Whether reads succeed; a failing backend makes `get` return an error. */
    const readable: bool
    var records: map<string, Document>

    constructor (readable: bool, records: map<string, Document>)
      ensures this.readable == readable && this.records == records
    {
      this.readable := readable;
      this.records := records;
    }

    /** `get`: the record under `key`, `None` when there is none. */
    function Get(key: string): (r: Result<Option<Document>, StorageError>)
      reads this
      ensures r.Failure? <==> !readable
      ensures r.Success? ==> (r.value.Some? <==> key in records)
      ensures r.Success? && r.value.Some? ==> r.value.value == records[key]
    {
      if !readable then Failure(StorageError)
      else if key in records then Success(Some(records[key]))
      else Success(None)
    }

    /** `set_unchecked`: best-effort write; it never reports failure. */
    method SetUnchecked(key: string, value: Document)
      modifies this`records
      ensures records == old(records)[key := value]
    {
      records := records[key := value];
    }
  }

  /** `MsgAddressInt::to_string` and `MsgAddressInt::from_str`. */
  datatype AddressCodec = AddressCodec(
    render: MsgAddressInt -> string,
    parse: string -> Option<MsgAddressInt>)

  /** Parsing a printed address gives the address back. */
  ghost predicate RoundTrips(codec: AddressCodec)
  {
    forall a: MsgAddressInt :: codec.parse(codec.render(a)) == Some(a)
  }

  /** The wallet-schema version a token contract was detected to follow
      (`TokenWalletVersion`; its variants are defined outside this model). */
  datatype TokenWalletVersion = TokenWalletVersion(tag: nat)

  /** Parsers of token contract snapshots; `None` is their error. */
  datatype TokenContractParsers = TokenContractParsers(
    // RootTokenContractState::guess_details, its `version` field
    rootVersion: ExistingContract -> Option<TokenWalletVersion>,
    // RootTokenContractState::get_wallet_address
    walletAddress: (ExistingContract, TokenWalletVersion, MsgAddressInt) -> Option<MsgAddressInt>,
    // TokenWalletContractState::get_version
    walletVersion: ExistingContract -> Option<TokenWalletVersion>,
    // TokenWalletContractState::get_details, its `owner_address` field
    walletOwner: (ExistingContract, TokenWalletVersion) -> Option<MsgAddressInt>)
}
