/** The data the bridge stores, sends and receives. */
module Types {

  datatype Option<+T> = None | Some(value: T)

  datatype Result<+T> = Success(value: T) | Failure(error: Error)

  /** `ContractError`, with the `StdError` cases the handlers can meet kept apart. */
  datatype Error =
    | Paused
    | Unauthorized
    | EmptyClassId
    | EmptyOptional
    | NoTokens
    | TokenInfoLenMismatch
    | ParseFailed
    | InvalidAddress
    | NotFound
    | QueryFailed

  type Addr = string
  type ChannelId = string
  type ClassId = string
  type TokenId = string
  newtype Byte = b: int | 0 <= b < 256
  type Binary = seq<Byte>

  /** One end of an IBC channel, as it appears in a packet. */
  datatype Endpoint = Endpoint(port: string, channel: ChannelId)

  datatype Class = Class(id: ClassId, uri: Option<string>, data: Option<Binary>)

  datatype Token = Token(id: TokenId, uri: Option<string>, data: Option<Binary>)

  /** The (class ID, token ID) pairs that key the bridge's token maps. */
  datatype Key = Key(classId: ClassId, tokenId: TokenId)

  /** `NonFungibleTokenPacketData`, without the memo. */
  datatype PacketData = PacketData(
    classId: ClassId,
    classUri: Option<string>,
    classData: Option<Binary>,
    tokenIds: seq<TokenId>,
    tokenUris: Option<seq<string>>,
    tokenData: Option<seq<Binary>>,
    sender: Addr,
    receiver: Addr)

  /** A packet; `data` is `None` when its bytes do not parse. */
  datatype Packet = Packet(src: Endpoint, dest: Endpoint, data: Option<PacketData>)

  datatype Ack = AckSuccess | AckFail

  /** `IbcOutgoingMsg`, without timeout and memo. */
  datatype OutgoingMsg = OutgoingMsg(receiver: Addr, channel: ChannelId)

  /** What the chain tells the bridge: its own address and port, and `addr_validate`. */
  datatype Env = Env(self: Addr, port: string, valid: Addr -> bool)

  /** The state of a `PauseOrchestrator`. */
  datatype PauseState = PauseState(pauser: Option<Addr>, paused: bool)

  /** The bridge's storage. */
  datatype Storage = Storage(
    proxy: Option<Addr>,
    po: PauseState,
    classToNft: map<ClassId, Addr>,
    nftToClass: map<Addr, ClassId>,
    classes: map<ClassId, Class>,
    outgoing: map<Key, ChannelId>,
    incoming: map<Key, ChannelId>,
    metadata: map<Key, Option<Binary>>)

  datatype Nft = Nft(owner: Addr, uri: Option<string>)

  /** Messages the bridge sends to cw721 contracts. */
  datatype NftMsg =
    | Transfer(contract: Addr, token: TokenId, recipient: Addr)
    | Burn(contract: Addr, token: TokenId)
    | Mint(contract: Addr, token: TokenId, uri: Option<string>, owner: Addr)
    | Instantiate(contract: Addr, name: string, minter: Addr)

  /** `Option<Option<T>>::flatten` of a map lookup. */
  function FlatLookup<K, V>(m: map<K, Option<V>>, k: K): Option<V> {
    if k in m then m[k] else None
  }
}
