/** Preparation of deploy and transfer messages for the multisig wallet
    contracts, and address computation from their state init.

    The cell hashing, ABI encoding and signature filling belong to TVM
    libraries; they are the function fields of `TvmLibrary`, about which the
    model assumes nothing. What is built around them (which state init,
    which destination, which call, which arguments, which header, which
    branch) is modelled; state inits and messages keep only the fields the
    wallet code sets. */
module Multisig {
  import opened Base

  /** The workchain every new wallet is deployed to (`DEFAULT_WORKCHAIN`). */
  const DefaultWorkchain: i8 := 0

  /** Required confirmations passed to the constructor (`reqConfirms`). */
  const RequiredConfirmations: u8 := 1

  /** Send flags of `sendTransaction`: pay fees separately (1) and ignore errors (2). */
  const TransferFlags: u8 := 3

  /** ABI version passed to `fill_sign`. */
  const AbiVersion: nat := 2

  datatype MultisigType =
    | SafeMultisigWallet
    | SafeMultisigWallet24h
    | SetcodeMultisigWallet
    | SurfWallet

  /** `ton_block::StateInit`, reduced to its code and data. */
  datatype StateInit = StateInit(code: Option<Cell>, data: Option<Cell>)

  /** `ton_block::AccountState`: the three states an existing account can be in. */
  datatype AccountState =
    | AccountUninit
    | AccountActive(stateInit: StateInit)
    | AccountFrozen(stateHash: UInt256)

  /** `ton_block::AccountStuff`: the account's address and its storage state. */
  datatype AccountStuff = AccountStuff(addr: MsgAddressInt, state: AccountState)

  /** An inbound external message: destination, optional state init, optional body. */
  datatype Message = Message(dst: MsgAddressInt, stateInit: Option<StateInit>, body: Option<Cell>)

  /** `Message::with_ext_in_header` with only `dst` set: no state init, no body. */
  function ExternalInbound(dst: MsgAddressInt): (m: Message)
    ensures m.dst == dst && m.stateInit.None? && m.body.None?
  {
    Message(dst, None, None)
  }

  /** ABI values (`ton_abi::TokenValue`) used by the wallet calls and headers. */
  datatype TokenValue =
    | Uint8(u8Value: u8)
    | Uint128(u128Value: u128)
    | Uint256(bytes: UInt256)
    | Bool(flag: bool)
    | Address(addr: MsgAddressInt)
    | CellValue(cell: Cell)
    | Array(itemType: ParamType, items: seq<TokenValue>)
    | Time(ms: u64)
    | Expire(at: u32)
    | PubKey(key: Option<PublicKey>)

  /** ABI parameter types (`ton_abi::ParamType`) of the values above. */
  datatype ParamType =
    | Uint8Type
    | Uint128Type
    | Uint256Type
    | BoolType
    | AddressType
    | CellType
    | ArrayType(item: ParamType)
    | TimeType
    | ExpireType
    | PubKeyType

  /** An ABI parameter: its name and type. */
  datatype Param = Param(name: string, kind: ParamType)

  /** Whether a value is of an ABI type; array items must all be of the item type. */
  predicate HasType(v: TokenValue, t: ParamType)
  {
    match v
    case Uint8(_) => t == Uint8Type
    case Uint128(_) => t == Uint128Type
    case Uint256(_) => t == Uint256Type
    case Bool(_) => t == BoolType
    case Address(_) => t == AddressType
    case CellValue(_) => t == CellType
    case Array(itemType, items) =>
      t == ArrayType(itemType) && forall x | x in items :: HasType(x, itemType)
    case Time(_) => t == TimeType
    case Expire(_) => t == ExpireType
    case PubKey(_) => t == PubKeyType
  }

  /** Whether an argument list matches a function's inputs, position by position. */
  predicate Conforms(args: seq<TokenValue>, params: seq<Param>)
  {
    |args| == |params| && forall i :: 0 <= i < |args| ==> HasType(args[i], params[i].kind)
  }

  /** Inputs of the wallet's `constructor`, as the SafeMultisigWallet ABI declares them. */
  const ConstructorParams: seq<Param> :=
    [Param("owners", ArrayType(Uint256Type)), Param("reqConfirms", Uint8Type)]

  /** Inputs of the wallet's `sendTransaction`, as the SafeMultisigWallet ABI declares them. */
  const SendTransactionParams: seq<Param> :=
    [Param("dest", AddressType), Param("value", Uint128Type), Param("bounce", BoolType),
     Param("flags", Uint8Type), Param("payload", CellType)]

  /** Header parameters of the SafeMultisigWallet ABI. */
  const HeaderParams: seq<Param> :=
    [Param("pubkey", PubKeyType), Param("time", TimeType), Param("expire", ExpireType)]

  /** A function call before encoding: the ABI function's name and its arguments. */
  datatype FunctionCall = FunctionCall(name: string, inputs: seq<TokenValue>)

  type Header = map<string, TokenValue>

  /** What `create_unsigned_call` returns: the payload with room for the signature,
      and the hash to be signed. */
  datatype UnsignedCall = UnsignedCall(payload: Cell, hash: seq<byte>)

  /** The TVM library calls the wallet code delegates to. A `None` result is the
      library's error; calls the source unwraps with `trust_me` are total. */
  datatype TvmLibrary = TvmLibrary(
    codeTemplate: MultisigType -> Cell,                       // contracts::code::*
    stateInitFromCode: Cell -> StateInit,                     // StateInit::construct_from
    insertPubkey: (Cell, PublicKey) -> Cell,                  // Contract::insert_pubkey
    stateInitHash: StateInit -> UInt256,                      // StateInit::hash
    serializeBody: Cell -> Option<Cell>,                      // SliceData::serialize
    createUnsignedCall: (FunctionCall, Header) -> Option<UnsignedCall>,
    fillSign: (nat, Cell, Signature) -> Option<Cell>          // Function::fill_sign
  )

  /** Errors of message preparation. Only `AccountIsFrozen` is `MultisigError`; the
      others are library errors the source propagates with `?`. */
  datatype Error =
    | AccountIsFrozen
    | BodySerializationFailed
    | CallEncodingFailed
    | SigningFailed

  /** The finalised message handed to the broadcaster. */
  datatype SignedMessage = SignedMessage(message: Message, expireAt: u32)

  /** A prepared message waiting for its signature. */
  datatype UnsignedMultisigMessage = UnsignedMultisigMessage(
    hash: seq<byte>, payload: Cell, expireAt: u32, message: Message)
  {
    /** The bytes to be signed. */
    function Hash(): seq<byte>
    {
      hash
    }

    /** Fills the signature into the payload and attaches it as the message body.
        `this` is a value: signing never changes it, and may be repeated. */
    function Sign(lib: TvmLibrary, signature: Signature): (r: Result<SignedMessage, Error>)
      ensures r.Success? <==> lib.fillSign(AbiVersion, payload, signature).Some?
      ensures r.Failure? ==> r.error == SigningFailed
      ensures r.Success? ==>
        && r.value.expireAt == expireAt
        && r.value.message.dst == message.dst
        && r.value.message.stateInit == message.stateInit
        && r.value.message.body == lib.fillSign(AbiVersion, payload, signature)
    {
      match lib.fillSign(AbiVersion, payload, signature)
      case None => Failure(SigningFailed)
      case Some(body) => Success(SignedMessage(message.(body := Some(body)), expireAt))
    }
  }

  /** The outcome of planning a transfer. */
  datatype TransferAction = DeployFirst | Sign(unsigned: UnsignedMultisigMessage)

  /** `Utc::now().timestamp_millis() as u64`: the two's-complement reinterpretation
      of a signed 64-bit millisecond count. */
  function TimestampMillisAsU64(ms: i64): (r: u64)
    ensures 0 <= ms ==> r as int == ms as int
    ensures ms < 0 ==> r as int == ms as int + 0x1_0000_0000_0000_0000
  {
    (ms as int % 0x1_0000_0000_0000_0000) as u64
  }

  /** The three headers stamped on every wallet call. */
  function CallHeader(time: u64, expireAt: u32, publicKey: PublicKey): (h: Header)
    ensures h.Keys == {"time", "expire", "pubkey"}
    ensures h["time"] == Time(time)
    ensures h["expire"] == Expire(expireAt)
    ensures h["pubkey"] == PubKey(Some(publicKey))
  {
    map["time" := Time(time), "expire" := Expire(expireAt), "pubkey" := PubKey(Some(publicKey))]
  }

  lemma HeaderMatchesAbi(time: u64, expireAt: u32, publicKey: PublicKey)
    ensures var h := CallHeader(time, expireAt, publicKey);
      && h.Keys == (set p | p in HeaderParams :: p.name)
      && forall p | p in HeaderParams :: HasType(h[p.name], p.kind)
  {
  }

  /** Arguments of `constructor`: the owner list holding only the public key, and
      one required confirmation. */
  function ConstructorArgs(publicKey: PublicKey): (args: seq<TokenValue>)
    ensures |args| == 2
    ensures args[0] == Array(Uint256Type, [Uint256(publicKey)])
    ensures args[1] == Uint8(RequiredConfirmations) && RequiredConfirmations == 1
  {
    [Array(Uint256Type, [Uint256(publicKey)]), Uint8(RequiredConfirmations)]
  }

  lemma ConstructorArgsMatchAbi(publicKey: PublicKey)
    ensures Conforms(ConstructorArgs(publicKey), ConstructorParams)
  {
  }

  /** Arguments of `sendTransaction`: destination, the amount widened to 128 bits,
      the bounce flag, flags 3 and the serialised body. */
  function SendTransactionArgs(destination: MsgAddressInt, amount: u64, bounce: bool, payload: Cell)
    : (args: seq<TokenValue>)
    ensures |args| == 5
    ensures args[0] == Address(destination)
    ensures args[1].Uint128? && args[1].u128Value as int == amount as int
    ensures args[2] == Bool(bounce)
    ensures args[3] == Uint8(TransferFlags) && TransferFlags == 3
    ensures args[4] == CellValue(payload)
  {
    [Address(destination), Uint128(amount as int as u128), Bool(bounce), Uint8(TransferFlags), CellValue(payload)]
  }

  lemma SendTransactionArgsMatchAbi(destination: MsgAddressInt, amount: u64, bounce: bool, payload: Cell)
    ensures Conforms(SendTransactionArgs(destination, amount, bounce, payload), SendTransactionParams)
  {
  }

  /** The wallet's state init: the code template of its type with the public key
      inserted into the data (an empty cell when the template has no data). */
  function PrepareStateInit(lib: TvmLibrary, publicKey: PublicKey, multisigType: MultisigType)
    : (r: StateInit)
    ensures var template := lib.stateInitFromCode(lib.codeTemplate(multisigType));
      && r.code == template.code
      && r.data == Some(lib.insertPubkey(if template.data.Some? then template.data.value else EmptyCell, publicKey))
  {
    var stateInit := lib.stateInitFromCode(lib.codeTemplate(multisigType));
    var data := match stateInit.data case Some(d) => d case None => EmptyCell;
    stateInit.(data := Some(lib.insertPubkey(data, publicKey)))
  }

  /** The address a wallet of this key and type has, or will have, in `workchainId`. */
  function ComputeContractAddress(lib: TvmLibrary, publicKey: PublicKey, multisigType: MultisigType, workchainId: i8)
    : (r: MsgAddressInt)
    ensures r.workchainId == workchainId
    ensures r.address == lib.stateInitHash(PrepareStateInit(lib, publicKey, multisigType))
  {
    AddrStd(workchainId, lib.stateInitHash(PrepareStateInit(lib, publicKey, multisigType)))
  }

  /** The account id depends on the key and the type only: two workchains give
      addresses that differ in the workchain field and nowhere else. */
  lemma AccountIdIgnoresWorkchain(lib: TvmLibrary, publicKey: PublicKey, multisigType: MultisigType, w1: i8, w2: i8)
    ensures ComputeContractAddress(lib, publicKey, multisigType, w1).address
         == ComputeContractAddress(lib, publicKey, multisigType, w2).address
    ensures (ComputeContractAddress(lib, publicKey, multisigType, w1)
             == ComputeContractAddress(lib, publicKey, multisigType, w2)) <==> w1 == w2
  {
  }

  /** A deploy message: to the computed address in the default workchain, carrying
      the state init, calling `constructor(publicKey, 1)`. */
  function PrepareDeploy(lib: TvmLibrary, publicKey: PublicKey, multisigType: MultisigType, expireAt: u32, nowMillis: i64)
    : (r: Result<UnsignedMultisigMessage, Error>)
    ensures var call := lib.createUnsignedCall(
        FunctionCall("constructor", ConstructorArgs(publicKey)),
        CallHeader(TimestampMillisAsU64(nowMillis), expireAt, publicKey));
      && (r.Success? <==> call.Some?)
      && (r.Failure? ==> r.error == CallEncodingFailed)
      && (r.Success? ==>
            && r.value.hash == call.value.hash
            && r.value.payload == call.value.payload)
    ensures r.Success? ==>
      && r.value.message.dst == ComputeContractAddress(lib, publicKey, multisigType, DefaultWorkchain)
      && r.value.message.stateInit == Some(PrepareStateInit(lib, publicKey, multisigType))
      && r.value.message.body.None?
      && r.value.expireAt == expireAt
  {
    var stateInit := PrepareStateInit(lib, publicKey, multisigType);
    var dst := AddrStd(DefaultWorkchain, lib.stateInitHash(stateInit));
    var message := ExternalInbound(dst).(stateInit := Some(stateInit));
    var call := FunctionCall("constructor", ConstructorArgs(publicKey));
    var header := CallHeader(TimestampMillisAsU64(nowMillis), expireAt, publicKey);
    match lib.createUnsignedCall(call, header)
    case None => Failure(CallEncodingFailed)
    case Some(unsigned) => Success(UnsignedMultisigMessage(unsigned.hash, unsigned.payload, expireAt, message))
  }

  /** Plans a transfer from the wallet in `current`: refused when frozen, deploy
      first when uninitialised, otherwise a `sendTransaction` call to sign. */
  function PrepareTransfer(
    lib: TvmLibrary, publicKey: PublicKey, current: AccountStuff, destination: MsgAddressInt,
    amount: u64, bounce: bool, body: Option<Cell>, expireAt: u32, nowMillis: i64)
    : (r: Result<TransferAction, Error>)
    ensures r == Failure(AccountIsFrozen) <==> current.state.AccountFrozen?
    ensures r == Success(DeployFirst) <==> current.state.AccountUninit?
    ensures current.state.AccountActive? ==>
      var payload := lib.serializeBody(if body.Some? then body.value else EmptyCell);
      && (payload.None? ==> r == Failure(BodySerializationFailed))
      && (payload.Some? ==>
            var call := lib.createUnsignedCall(
              FunctionCall("sendTransaction", SendTransactionArgs(destination, amount, bounce, payload.value)),
              CallHeader(TimestampMillisAsU64(nowMillis), expireAt, publicKey));
            && (call.None? ==> r == Failure(CallEncodingFailed))
            && (call.Some? ==>
                  && r.Success? && r.value.Sign?
                  && r.value.unsigned.hash == call.value.hash
                  && r.value.unsigned.payload == call.value.payload))
    ensures r.Success? && r.value.Sign? ==>
      && r.value.unsigned.message == ExternalInbound(current.addr)
      && r.value.unsigned.expireAt == expireAt
  {
    match current.state
    case AccountFrozen(_) => Failure(AccountIsFrozen)
    case AccountUninit => Success(DeployFirst)
    case AccountActive(_) =>
      var message := ExternalInbound(current.addr);
      match lib.serializeBody(match body case Some(b) => b case None => EmptyCell)
      case None => Failure(BodySerializationFailed)
      case Some(payload) =>
        var call := FunctionCall("sendTransaction", SendTransactionArgs(destination, amount, bounce, payload));
        var header := CallHeader(TimestampMillisAsU64(nowMillis), expireAt, publicKey);
        match lib.createUnsignedCall(call, header)
        case None => Failure(CallEncodingFailed)
        case Some(unsigned) =>
          Success(Sign(UnsignedMultisigMessage(unsigned.hash, unsigned.payload, expireAt, message)))
  }

  /** Frozen and uninitialised accounts are answered before any library call:
      the outcome is the same whatever the library, the clock or the call. */
  lemma PlanningPrecedesEncoding(
    lib1: TvmLibrary, lib2: TvmLibrary, publicKey: PublicKey, current: AccountStuff,
    destination1: MsgAddressInt, destination2: MsgAddressInt, amount1: u64, amount2: u64,
    bounce: bool, body: Option<Cell>, expireAt: u32, now1: i64, now2: i64)
    requires !current.state.AccountActive?
    ensures PrepareTransfer(lib1, publicKey, current, destination1, amount1, bounce, body, expireAt, now1)
         == PrepareTransfer(lib2, publicKey, current, destination2, amount2, !bounce, None, expireAt, now2)
  {
  }

  /** The hash a prepared message exposes for signing, and the payload it carries,
      are the ones the ABI library computed over the encoded call and its headers. */
  lemma PreparedHashIsSigningHash(
    lib: TvmLibrary, publicKey: PublicKey, multisigType: MultisigType, current: AccountStuff,
    destination: MsgAddressInt, amount: u64, bounce: bool, body: Option<Cell>, expireAt: u32, nowMillis: i64)
    ensures var header := CallHeader(TimestampMillisAsU64(nowMillis), expireAt, publicKey);
      var deploy := PrepareDeploy(lib, publicKey, multisigType, expireAt, nowMillis);
      deploy.Success? ==>
        lib.createUnsignedCall(FunctionCall("constructor", ConstructorArgs(publicKey)), header)
          == Some(UnsignedCall(deploy.value.payload, deploy.value.Hash()))
    ensures var header := CallHeader(TimestampMillisAsU64(nowMillis), expireAt, publicKey);
      var transfer := PrepareTransfer(lib, publicKey, current, destination, amount, bounce, body, expireAt, nowMillis);
      var payload := lib.serializeBody(if body.Some? then body.value else EmptyCell);
      transfer.Success? && transfer.value.Sign? ==>
        && payload.Some?
        && lib.createUnsignedCall(FunctionCall("sendTransaction", SendTransactionArgs(destination, amount, bounce, payload.value)), header)
             == Some(UnsignedCall(transfer.value.unsigned.payload, transfer.value.unsigned.Hash()))
  {
  }

  /** Signing only fills in the body: two signatures of one message give messages
      equal in destination, state init and expiry. */
  lemma SignOnlySetsBody(unsigned: UnsignedMultisigMessage, lib: TvmLibrary, s1: Signature, s2: Signature)
    requires unsigned.Sign(lib, s1).Success? && unsigned.Sign(lib, s2).Success?
    ensures var m1 := unsigned.Sign(lib, s1).value;
      var m2 := unsigned.Sign(lib, s2).value;
      && m1.message.(body := None) == m2.message.(body := None) == unsigned.message.(body := None)
      && m1.expireAt == m2.expireAt == unsigned.expireAt
      && (s1 == s2 ==> m1 == m2)
  {
  }

  /** Signing a prepared deploy message yields a message to the computed address
      that still carries the state init, with the requested expiry. */
  lemma SignedDeployMessage(
    lib: TvmLibrary, publicKey: PublicKey, multisigType: MultisigType, expireAt: u32, nowMillis: i64,
    signature: Signature)
    requires PrepareDeploy(lib, publicKey, multisigType, expireAt, nowMillis).Success?
    requires PrepareDeploy(lib, publicKey, multisigType, expireAt, nowMillis).value.Sign(lib, signature).Success?
    ensures var unsigned := PrepareDeploy(lib, publicKey, multisigType, expireAt, nowMillis).value;
      var signed := unsigned.Sign(lib, signature).value;
      && signed.message.dst == ComputeContractAddress(lib, publicKey, multisigType, DefaultWorkchain)
      && signed.message.stateInit == Some(PrepareStateInit(lib, publicKey, multisigType))
      && signed.message.body.Some?
      && signed.expireAt == expireAt
  {
  }

  /** Signing a planned transfer yields a body-carrying message to the wallet's own
      address, without a state init, with the requested expiry. */
  lemma SignedTransferMessage(
    lib: TvmLibrary, publicKey: PublicKey, current: AccountStuff, destination: MsgAddressInt,
    amount: u64, bounce: bool, body: Option<Cell>, expireAt: u32, nowMillis: i64, signature: Signature)
    requires var r := PrepareTransfer(lib, publicKey, current, destination, amount, bounce, body, expireAt, nowMillis);
      r.Success? && r.value.Sign? && r.value.unsigned.Sign(lib, signature).Success?
    ensures var unsigned := PrepareTransfer(lib, publicKey, current, destination, amount, bounce, body, expireAt, nowMillis).value.unsigned;
      var signed := unsigned.Sign(lib, signature).value;
      && current.state.AccountActive?
      && signed.message.dst == current.addr
      && signed.message.stateInit.None?
      && signed.message.body.Some?
      && signed.expireAt == expireAt
  {
  }
}
