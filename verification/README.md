# cw-ics721: a verified model of the NFT bridge

`cw-ics721-bridge` moves cw721 NFTs between chains over IBC. It locks an NFT, sends a packet, and the
bridge at the other end mints a debt voucher; a voucher that comes back is burned and the original is
unlocked. This project models the bridge in Dafny 4.11, from its storage items up to a network of any
number of chains and channels, and proves what the design promises its users.

`dafny verify dfyconfig.toml` checks everything.

## What is proved

For every run of a network of honest bridges (any number of chains, any channels between them,
self-loops and shared port names included) and for every interleaving of sends, deliveries, acks,
timeouts, pauses, migrations, user transfers, user mints and user burns:

- **Single claim.** All claims on one NFT, counting its vouchers on all chains, are one claim
  (`Guarantees.SingleClaim`). If no user burns anything or drops it on a bridge, there is exactly one
  (`Guarantees.ExactlyOneClaim`).
- **Backing.** Every voucher that someone holds or that is in transit has its parent locked, with
  OUTGOING naming the paired channel (`Guarantees.Backing`); a return to an unpaused bridge with a valid
  receiver is always redeemed (`Settlement.ReturnsAreRedeemed`).
- **Settlement.** Acks and timeouts never fail, and a success ack burns exactly the returned vouchers.
- **Undo.** Whatever happened in between, a refund gives the NFT back to the sender of the packet (the
  owner before the send, or someone the owner had approved), with INCOMING and the metadata as before the
  send and no OUTGOING entry, not even a stale one from before; the class stays registered, and the same
  send makes the same packet again (`Undo.RefundIsUndo`).
- **Unwinding.** From any reachable state in which no voucher of the path is on its way back, a journey
  along any path without immediate backtracking makes a new voucher at each hop, and the way back redeems
  them all and gives back the original. Anything may happen between any two moves of the journey, as long
  as nobody else acts on the token or its packet in flight; a bridge has to be unpaused only when it sends
  or receives the token. The acks of the journey's own packets may come at any time or not at all: a
  voucher is left exactly where the ack that burns it has not been relayed (`Journeys.JourneyUnwinds`).
- **The way home.** Whoever has a voucher, in any reachable state, whatever its history and however many
  acks are outstanding, can send it back hop by hop, as long as the bridges on the way are not paused when
  it passes, and gets the original, with its uri (`Journeys.WayHome`); the class ID spells out the hops
  (`Journeys.ThereIsAWayHome`).
- **Fidelity.** Vouchers and packets carry the uri and data of the NFT at the origin.

For every run of one bridge with arbitrary callers, arbitrary cw721 behaviour and arbitrary packets:

- Inverse class maps that never change an entry, no dangling keys, INCOMING true to class IDs, every
  OUTGOING entry the mark of a send, and redemptions bounded by sends.
- Each nomination buys at most one pause, and the pauser's call goes through in every reachable state that
  has a pauser; from then on the bridge only settles (`Runs.PauseStopsTheBridge`).
- Once a migration has set the proxy, the calls that send are exactly those the setting allows
  (`Runs.SendsAreGoverned`).

For one chain with packets, acks and timeouts of any contents, mixed with sends, user trades, pauses and
migrations:

- For every packet, with any number of tokens, it is decided beforehand whether it succeeds
  (`Outcome.SucceedsIff`), what it changes if it does (`Outcome.SuccessChangesOnly`), and when an error ack
  is not the end of it (`Outcome.ErrorAckIsCleanIff`, `Outcome.StrandedIff`). The same goes for acks and
  timeouts (`Closing.RefundIff`, `Closing.AckIff`).
- It is decided what frees a locked token (`Escrow.FreedIff`): only packets on the channel it went out by,
  and acks and timeouts that name it (`Escrow.FreedThroughItsChannel`).
- A voucher is sent on with the class uri, class data and token data that came with it
  (`Provenance.ClassDataIsPassedOn`, `Provenance.TokenDataIsPassedOn`).
- The bridge's storage goes through a run of the bridge alone (`Projection.ChainRunIsRun`), so all of the
  above about runs of one bridge holds on the chain.

## How it is built

1. `Types`, `ClassIds`, `Receive`, `PauseOnce`, `Handlers`: the data and what each entry point computes;
   `EntryPoints`: when each call goes through and what it leaves and answers, said outright.
   `ZipOptional`, `PauseOnce.PauseOrchestrator` and `Bridge` are the stateful forms: classes with the
   source's storage items as fields and its loops as loops, each method proved to do what the function
   of its role says.
2. `Invariants`, `Runs`: one bridge's storage over every run.
3. `Cw721`, `Chain`, `Delivery`, `Isolation`, `Effects`, `Outcome`, `Closing`: a bridge with the cw721
   contracts of its chain, one transaction at a time, with the rollback of the submessage only. `Escrow`,
   `Provenance`, `Projection`: runs of such a chain.
4. `Custody`, `Claims`: an abstract custody protocol over locations (a class ID and token ID on a chain)
   with its inductive invariant, and what the invariant says about claims.
5. `Network`, `Views`, `Simulation`, `Reachable`: the network of chains and packets. Every move of the
   network is a step of the custody protocol (`Reachable.MoveIsStep`), so the invariant holds in every
   reachable state (`Reachable.ReachableInv`).
6. `Guarantees`, `Settlement`, `Records`, `Undo`, `Journeys`: what follows for users. `Example` gives a
   network of two chains of which all assumptions hold together (`Example.AssumptionsHold`).

Assumptions: addresses, ports and channel identifiers contain no `/` (ICS-24 identifiers); the chain
gives new contracts unused addresses; in the network, IBC core delivers a packet at most once and
settles it once, and cw721 contracts mint an id once and let only the owner (or someone the owner
approved) move or burn it. On one chain, `Runs`,
`Delivery`, `Isolation`, `Outcome`, `Closing`, `Escrow` and `Provenance` assume nothing about packets.

Two things the code does that a reader may not expect:

- A success ack that burns a returned voucher leaves the voucher's own OUTGOING entry, so "OUTGOING
  implies locked" is false after every return. `Example.StaleOutgoing` is a run that shows it,
  `Settlement.AcksGoThrough` says that it happens on every return, and `Guarantees.OutgoingIsLockedIff`
  says exactly where the property holds.
- A packet that passes the handler's checks but whose submessage fails keeps the handler's own writes, so
  "an error ack changes nothing" is false. `Example.Stranding` is a run of three transactions after which
  the bridge keeps an NFT that it no longer has in OUTGOING; `Outcome.ErrorAckIsCleanIff` and
  `Outcome.StrandedIff` say exactly when a packet does this, and `Outcome.StrandedForGood` that no later
  packet undoes it. Between honest bridges it takes a user who names the home bridge as the receiver
  (`Settlement.ReturnsAreRedeemed`).

The comment on `query_paused` in packages/cw-pause-once/src/lib.rs:84-85 speaks of a time; the code
returns a flag. The model follows the code.

## Model

| member | source | states |
|---|---|---|
| ClassIds.PopIsInverse | contracts/cw-ics721-bridge/src/ibc_helpers.rs:14-28 | stripping a prefix succeeds with a remainder exactly on the strings built by adding that prefix to it |
| ClassIds.PrefixInjective | contracts/cw-ics721-bridge/src/ibc_helpers.rs:26-28 | endpoint prefixes are prefix-free: a prefixed class ID names one endpoint and one remainder |
| ClassIds.PopIsUnique | contracts/cw-ics721-bridge/src/ibc_helpers.rs:14-24 | at most one endpoint's prefix can be stripped from a class ID |
| ClassIds.EncodeInjective | contracts/cw-ics721-bridge/src/ibc_helpers.rs:14-28 | a class ID of any depth decodes to one hop path and one base class |
| Receive.Zip | packages/zip-optional/src/lib.rs:15-39 | draining the iterator pairs item i with item i, or with nothing, and stops at the shorter side |
| ZipOptional.ZipOptional.Next | packages/zip-optional/src/lib.rs:15-24 | yields the remaining pairs one by one and stays ended, although `a` moves on when `b` has run out |
| ZipOptional.ZipOptional.Drain | packages/zip-optional/src/lib.rs:15-39 | repeated `next` yields exactly the zipped sequence |
| Receive.TokensOfValid | contracts/cw-ics721-bridge/src/ibc_helpers.rs:132-164 | on a validated packet, zipping twice loses no token and gives each its own uri and data |
| Receive.SelectActions | contracts/cw-ics721-bridge/src/ibc_packet_receive.rs:58-104 | one action per token, in order: the first occurrence of a token that is out on the packet's channel is redeemed, all others, duplicates included, are created with their own uri and data |
| Receive.SelectOutgoing | contracts/cw-ics721-bridge/src/ibc_packet_receive.rs:66-85 | the fold removes from OUTGOING exactly the returning keys that the packet names |
| Receive.SelectIncoming | contracts/cw-ics721-bridge/src/ibc_packet_receive.rs:86-94 | the fold adds to INCOMING exactly the created keys, under the packet's channel |
| Receive.AggregateKeepsAll | contracts/cw-ics721-bridge/src/ibc_packet_receive.rs:127-224 | storing one class per side loses nothing: both sides come out whole and in order |
| Invariants.PacketIsPartitioned | contracts/cw-ics721-bridge/src/ibc_packet_receive.rs:58-111 | every packet's tokens are an interleaving of those it redeems and those it creates, each side in order, none lost and none invented |
| Invariants.SubmessageRuns | contracts/cw-ics721-bridge/src/ibc_packet_receive.rs:226-246 | the submessage redeems the one side and creates the other, in that order, whether it is a conjunction or not |
| Runs.PausesAreNominated | packages/cw-pause-once/src/lib.rs:40-75 | over every run, paused implies no pauser, and pauses never outnumber the nominations that took effect |
| Runs.PausedRunSettlesOnly | contracts/cw-ics721-bridge/src/contract.rs:55 | until governance steps in, a paused bridge goes exactly where an unpaused one would go on the acks, the timeouts and the proxy's reply of the run alone |
| Runs.PauseStopsTheBridge | contracts/cw-ics721-bridge/src/contract.rs:133-136 | in every reachable state with a pauser, the pauser's call pauses the bridge and changes nothing else, and until governance steps in the bridge then goes where its acks, its timeouts and the proxy's reply alone take it |
| Runs.SendsAreGoverned | contracts/cw-ics721-bridge/src/contract.rs:97-136 | after a migration or a proxy reply, and until the next one, a call sends a packet exactly if it is the proxy's when there is one or a direct call when there is none, the bridge is not paused, and its addresses, message and token query are in order |
| EntryPoints.DirectSendIs | contracts/cw-ics721-bridge/src/contract.rs:121-214 | exactly when a direct send goes through, with a true reason when it does not; the packet carries the class record, the token's uri and its saved data, OUTGOING gains the entry, an unknown contract becomes a native class, and nothing else changes |
| EntryPoints.ProxySendIs | contracts/cw-ics721-bridge/src/contract.rs:97-119 | the same for a send through the proxy, which goes through for the proxy only |
| EntryPoints.CallbackIs | contracts/cw-ics721-bridge/src/contract.rs:70-95 | a callback goes through exactly for the bridge itself, while it is not paused and the callback succeeds |
| EntryPoints.RedeemIs | contracts/cw-ics721-bridge/src/contract.rs:311-338 | a redemption goes through exactly for a mapped class and a valid receiver; one transfer per token, in order, from the class's contract to the receiver |
| EntryPoints.MintIs | contracts/cw-ics721-bridge/src/contract.rs:216-251 | a mint goes through exactly for a mapped class and a valid receiver; one mint per token, in order, each with its own uri |
| PauseOnce.PauseOrchestrator.Nominate | packages/cw-pause-once/src/lib.rs:40-50 | sets the pauser and unpauses, or fails on an invalid address and changes nothing |
| PauseOnce.PauseOrchestrator.PauseBy | packages/cw-pause-once/src/lib.rs:62-75 | succeeds only for the pauser of an unpaused contract, and uses the nomination up |
| Bridge.Bridge.Instantiate | contracts/cw-ics721-bridge/src/contract.rs:24-46 | empty maps, no proxy, the given pauser; fails on an invalid one |
| Bridge.Bridge.Execute | contracts/cw-ics721-bridge/src/contract.rs:49-117 | every guard and branch of `execute`, with all changes rolled back on an error |
| Bridge.Bridge.ReceiveNft | contracts/cw-ics721-bridge/src/contract.rs:138-214 | registers an unknown contract as a native class, records the channel in OUTGOING and sends the packet, or fails with the first error |
| Bridge.Bridge.MintVouchers | contracts/cw-ics721-bridge/src/contract.rs:216-251 | saves each token's metadata and asks for one mint per token, in order |
| Bridge.Bridge.CreateVouchers | contracts/cw-ics721-bridge/src/contract.rs:256-309 | overwrites the class record, instantiates and registers a collection when the class has none, and mints |
| Bridge.Bridge.RunCallback | contracts/cw-ics721-bridge/src/contract.rs:70-95 | runs a callback, a conjunction operand by operand, and stops at the first error |
| Bridge.Bridge.Migrate | contracts/cw-ics721-bridge/src/contract.rs:428-442 | goes through exactly if proxy and pauser are absent or addresses, then replaces both, unpauses and touches nothing else; otherwise changes nothing |
| Bridge.Bridge.RegisterCollection | contracts/cw-ics721-bridge/src/ibc.rs:250-263 | the reply to an instantiated cw721 adds the pair of map entries |
| Bridge.Bridge.RegisterProxy | contracts/cw-ics721-bridge/src/ibc.rs:270-274 | the reply to an instantiated proxy stores its address |
| Bridge.Bridge.ReceivePacket | contracts/cw-ics721-bridge/src/ibc_packet_receive.rs:44-125 | the loop over tokens leaves the OUTGOING and INCOMING maps and the submessage that the fold's specification gives; it fails exactly if the bridge is paused or the packet is not in order, and then changes nothing |
| Bridge.Bridge.SelectToken | contracts/cw-ics721-bridge/src/ibc_packet_receive.rs:66-104 | one turn of the fold: remove from OUTGOING and redeem, or save to INCOMING and create |
| Bridge.Bridge.PacketAck | contracts/cw-ics721-bridge/src/ibc.rs:143-190 | the burn loop removes INCOMING and metadata of exactly the tokens that came in on the channel, one burn message each; an ack that is anything but a success, one that does not parse included, does what a timeout does |
| Bridge.Bridge.PacketFail | contracts/cw-ics721-bridge/src/ibc.rs:202-237 | the refund loop removes each token from OUTGOING and sends it back to the sender |
| Runs.RunKeepsValid | contracts/cw-ics721-bridge/src/state.rs:15-35 | in every reachable state the class maps are inverse bijections, mapped classes have records with their own id and no empty uri or data, no key dangles, and INCOMING names the channel of the class ID's outermost prefix |
| Runs.MappingsAreForever | contracts/cw-ics721-bridge/src/contract.rs:148-170 | a class and a contract once mapped stay mapped to each other for the rest of the run, so a voucher contract is never re-registered |
| Runs.SentPacketsSettle | contracts/cw-ics721-bridge/src/ibc.rs:143-237 | every packet any run sends passes validation, and at any later point its ack and its refund find everything they load |
| Runs.DebugAssertHolds | contracts/cw-ics721-bridge/src/contract.rs:375-409 | the `debug_assert!` of the metadata query is unreachable |
| Runs.RedemptionsAreSent | contracts/cw-ics721-bridge/src/ibc_packet_receive.rs:69-84 | over every run, redemptions of a token plus one if it is still out never exceed its sends |
| Runs.EntriesWereSent | contracts/cw-ics721-bridge/src/contract.rs:49-206 | every OUTGOING entry of every run is the mark of a call that went through while unpaused, from the proxy if there was one and from a cw721 otherwise, and sent the token over the entry's channel; the entry has stood since |
| Invariants.SentPacketIsValid | contracts/cw-ics721-bridge/src/contract.rs:172-195 | a sent packet passes the counterparty's validation, names a mapped class and carries the token's uri and stored metadata |
| Outcome.SucceedsIff | contracts/cw-ics721-bridge/src/ibc_packet_receive.rs:44-246 | a packet with any contents succeeds exactly when the bridge is not paused, its fields are in order (each written out), the bridge owns all it redeems, nothing it creates exists, and it creates nothing twice |
| Outcome.PassesIff | contracts/cw-ics721-bridge/src/ibc_helpers.rs:132-164 | the checks let a packet pass exactly if the bridge is not paused, the packet parses, has a class and tokens, no empty class uri or data, as many uris and data as tokens where it has any, and a receiver that is an address; the error names something that is wrong |
| Outcome.ErrorAckIsCleanIff | contracts/cw-ics721-bridge/src/ibc_packet_receive.rs:66-94 | an error ack leaves the chain as it was except exactly for packets that pass the checks, have something to write and are not deliverable |
| Outcome.StrandedIff | contracts/cw-ics721-bridge/src/ibc_packet_receive.rs:69-84 | exactly which packets take a token out of OUTGOING while the bridge keeps its NFT |
| Outcome.StrandedForGood | contracts/cw-ics721-bridge/src/ibc_packet_receive.rs:69-84 | no sequence of packets brings such a token back |
| Example.Stranding | contracts/cw-ics721-bridge/src/ibc_packet_receive.rs:78-84 | instantiation, one send and one packet that does this |
| Outcome.SuccessChangesOnly | contracts/cw-ics721-bridge/src/contract.rs:216-338 | a successful packet with any number of tokens moves what it redeems, mints what it creates, and leaves every other NFT of the chain as it was |
| Delivery.SuccessAckIsTruthful | contracts/cw-ics721-bridge/src/ibc.rs:281-290 | after a success ack each token of the packet was unlocked for, or newly minted to, the receiver, with its own uri and metadata |
| Delivery.DeliverKeepsValid | contracts/cw-ics721-bridge/src/ibc.rs:125-140 | a packet with any contents leaves a valid chain |
| Isolation.OtherChannelsKeepOut | contracts/cw-ics721-bridge/src/ibc_packet_receive.rs:66-102 | a token that is out on a channel keeps its entry and its owner through any sequence of arbitrary packets on other channels |
| Isolation.MintsStayInPrefix | contracts/cw-ics721-bridge/src/contract.rs:216-251 | whatever a packet mints is in the contract of the class prefixed by the receiving endpoint |
| Escrow.FreedIff | contracts/cw-ics721-bridge/src/ibc.rs:125-237 | a token that is locked with an OUTGOING entry stays so through a transaction, NFT and entry unchanged, unless it is one of three: a packet that passes the checks and redeems it, a refund that goes through and names it, or a success ack that goes through and names it on the channel its INCOMING entry has; each of these does end it |
| Escrow.FreedThroughItsChannel | contracts/cw-ics721-bridge/src/ibc_packet_receive.rs:66-85 | over any run with packets, acks and timeouts of any contents, sends, user trades, pauses and migrations: a locked token is the same until the transaction that frees it, and that one is a packet on the channel the token went out by that names it under the sender's prefix, or an ack or timeout that names it |
| Closing.RefundIff | contracts/cw-ics721-bridge/src/ibc.rs:193-237 | a timeout, or an ack that is anything but a success, goes through exactly when the packet parses and names a mapped class and a valid sender, and the bridge owns all its tokens, each named once unless they go to the bridge itself |
| Closing.RefundGivesBack | contracts/cw-ics721-bridge/src/ibc.rs:202-237 | it gives every named token to the packet's sender and removes its OUTGOING entry; every other token and entry stays as it was |
| Closing.AckIff | contracts/cw-ics721-bridge/src/ibc.rs:143-190 | a success ack goes through exactly when the packet parses and names a mapped class and the bridge owns the tokens that came in on the packet's channel |
| Closing.AckBurnsReturned | contracts/cw-ics721-bridge/src/ibc.rs:153-180 | it burns exactly those tokens, with their INCOMING and metadata entries; every other token and entry stays as it was |
| Provenance.ClassDataIsPassedOn | contracts/cw-ics721-bridge/src/contract.rs:172-195 | after a packet that created tokens of a class, each token of the class is sent with that packet's class uri and class data, whatever happens in between, until another packet creates tokens of it |
| Provenance.TokenDataIsPassedOn | contracts/cw-ics721-bridge/src/contract.rs:216-251 | a token that a packet created is sent with that packet's token data, whatever happens in between, until it is burned or created again |
| Provenance.NativesCarryNone | contracts/cw-ics721-bridge/src/contract.rs:148-170 | in every run from instantiation on, tokens of native classes are sent without class uri and class data |
| Projection.ChainRunIsRun | contracts/cw-ics721-bridge/src/ibc.rs:125-237 | the bridge's storage at the end of any run of its chain is that of a run of the bridge alone, event by event |
| Effects.UserSendEffect | contracts/cw-ics721-bridge/src/contract.rs:138-214 | a send changes the owner of one NFT and one OUTGOING entry, and nothing else about any token |
| Effects.RefundEffect | contracts/cw-ics721-bridge/src/ibc.rs:202-237 | a refund of a locked token cannot fail, by timeout or by error ack, and touches that token only |
| Effects.AckEffect | contracts/cw-ics721-bridge/src/ibc.rs:153-180 | a success ack burns the token if it came in on the channel it left by, and changes nothing otherwise |
| Example.StaleOutgoing | contracts/cw-ics721-bridge/src/ibc.rs:165-177 | a run after which OUTGOING has an entry for a voucher that was burned on return |
| Custody.StepKeepsInv | README.md:23-46 | every step of the custody protocol keeps its invariant |
| Custody.HoldFreezes | README.md:43-46 | while a packet holds an NFT, no step changes what is recorded about it |
| Custody.FreedomFreezes | README.md:23-46 | while a user owns an NFT, no step but the user's own changes what is recorded about it |
| Claims.AtMostOneClaim | README.md:30-37 | under the custody invariant, two claims with one origin are at one place |
| Claims.SomeClaim | README.md:30-37 | under the custody invariant, every live NFT has a claim at the end of its chain of vouchers, or a user let go of it |
| Claims.FaithfulToOrigin | README.md:30-32 | under the custody invariant, a live voucher has its origin's uri and data |
| Network.GraphIsValid | contracts/cw-ics721-bridge/src/ibc_helpers.rs:14-28 | class-ID prefixes give every voucher one parent and one channel end, on any topology |
| Network.GovernanceIs | contracts/cw-ics721-bridge/src/contract.rs:428-442 | in the network, the pauser of a running bridge can pause it, and governance can replace proxy and pauser of any bridge, one bridge at a time |
| Network.UsersDo | README.md:30-32 | a user can give away or destroy an NFT that no bridge owns, vouchers included |
| Network.UsersMake | README.md:30-32 | users can found collections and issue NFTs that do not exist in collections that are not the bridge's |
| Reachable.MoveIsStep | contracts/cw-ics721-bridge/src/ibc.rs:125-237 | every move of the network (user, governance, send, delivery, ack, timeout) is a step of the custody protocol |
| Reachable.ReachableInv | contracts/cw-ics721-bridge/src/ibc.rs:125-237 | the custody invariant holds in every reachable state of the network |
| Guarantees.SingleClaim | contracts/cw-ics721-bridge/src/contract.rs:138-214 | in every reachable state any two claims on an NFT or its vouchers (held by a non-bridge, or in an undelivered or failed packet) are the same claim |
| Guarantees.SomeClaim | README.md:23-46 | in every reachable state a native NFT has a claim, or a user burned or misplaced it or one of its vouchers |
| Guarantees.ExactlyOneClaim | README.md:23-46 | with careful users every native NFT has exactly one claim |
| Guarantees.Backing | contracts/cw-ics721-bridge/src/ibc_packet_receive.rs:66-85 | each voucher held or in transit has its parent in OUTGOING under the paired channel and owned by the parent's bridge |
| Guarantees.Fidelity | contracts/cw-ics721-bridge/src/contract.rs:172-195 | every claim has the uri and data of the NFT at its origin, any number of hops away |
| Guarantees.PacketFidelity | contracts/cw-ics721-bridge/src/contract.rs:181-195 | so does the packet of a claim in transit |
| Guarantees.VouchersAreOnRecord | contracts/cw-ics721-bridge/src/ibc_packet_receive.rs:88-94 | an existing voucher has its metadata entry and an INCOMING entry naming the channel its class ID names |
| Guarantees.QueriesAreFaithful | contracts/cw-ics721-bridge/src/contract.rs:375-409 | the metadata query about a voucher that a user has answers with the uri and data of the original |
| Guarantees.ClearedOnlyByBurn | contracts/cw-ics721-bridge/src/ibc.rs:165-168 | a metadata entry disappears only in the step that burns its voucher |
| Guarantees.OutgoingIsLocked | contracts/cw-ics721-bridge/src/contract.rs:202-206 | an OUTGOING entry whose channel is not the class ID's own means that the bridge owns the NFT |
| Guarantees.OutgoingIsLockedIff | contracts/cw-ics721-bridge/src/ibc.rs:165-177 | an OUTGOING entry means locked exactly if its channel is not the class ID's own, or an open packet holds the token, or a user dropped it on the bridge |
| Settlement.PacketsAreWellFormed | contracts/cw-ics721-bridge/src/ibc_helpers.rs:132-164 | every open packet passes validation, and its class is mapped at its source |
| Settlement.ReturnsAreRedeemed | contracts/cw-ics721-bridge/src/ibc_packet_receive.rs:66-85 | a voucher delivered home to an unpaused bridge with a valid receiver is redeemed: success ack, the receiver owns the NFT, OUTGOING forgets it |
| Settlement.OutboundCreates | contracts/cw-ics721-bridge/src/ibc_packet_receive.rs:86-104 | an outbound delivery creates its voucher exactly when none is left from the last trip, and one is left only while its burning ack is on the way |
| Settlement.RefundsGoThrough | contracts/cw-ics721-bridge/src/ibc.rs:193-237 | every timeout and error ack goes through and gives the NFT to its sender |
| Settlement.AcksGoThrough | contracts/cw-ics721-bridge/src/ibc.rs:143-190 | every success ack goes through; it burns the token exactly when the packet left on the channel its class ID names, and then only OUTGOING keeps an entry |
| Records.PlainRun | contracts/cw-ics721-bridge/src/contract.rs:148-170 | in a network of honest bridges class records and packets never carry class uri or data |
| Undo.RefundIsUndo | contracts/cw-ics721-bridge/src/ibc.rs:202-237 | after any run, a send, and any run in which its packet stays pending, the refund gives the NFT to the sender, so the NFT is as before exactly if the sender was its owner; its key is not in OUTGOING, its INCOMING and metadata entries are as before, its class stays registered, and the same send makes the same packet |
| Journeys.HopOut | contracts/cw-ics721-bridge/src/ibc_packet_receive.rs:86-104 | a hop by a channel the token did not come from, with other moves before and during its flight and no ack awaited, lands as a voucher that did not exist, in the receiver's hands and with the token's uri |
| Journeys.HopBack | contracts/cw-ics721-bridge/src/ibc_packet_receive.rs:66-85 | a hop by the channel the token came from, with other moves before and during its flight and any acks outstanding, gives the receiver what the voucher stood for, and leaves a voucher that waits for its burning ack |
| Journeys.OutwardDelivers | e2e/suite_test.go:355-498 | along any path without immediate backtracking every hop delivers, and the last receiver has the last voucher with the original's uri |
| Journeys.JourneyUnwinds | e2e/suite_test.go:355-498 | from every reachable state with no voucher of the path on its way back, with any other moves in between, acks of earlier hops included: no voucher of the path existed before, each has a class of its own, the way back redeems them all, the last receiver has the original, and a voucher is left exactly while the ack that burns it is open |
| Journeys.WayHome | README.md:30-33 | in every reachable state, whoever has a voucher can return it hop by hop, with any other moves in between and any acks outstanding: the last receiver has the NFT the hops lead to, with the voucher's uri, and it is the original once no hop is left |
| Journeys.ThereIsAWayHome | README.md:30-33 | every voucher's class ID spells out channel ends that lead to its origin |
| Journeys.ClassIdSpellsPath | contracts/cw-ics721-bridge/src/ibc_packet_receive.rs:86-88 | the class ID of the last voucher spells out the path, latest hop first |

## Left out

- JSON and base64 encodings, bech32 address checks and storage key bytes: library code; a packet that does not parse is `None`, `addr_validate` is a parameter.
- The channel handshake and close handlers: each is settled by reading one branch.
- Gas, clocks, heights, memo, labels and event attributes: a timeout is a step that may happen to any undelivered packet.
- Queries other than the assertion in the token-metadata query.
- Contracts that are not cw721-base in the network: `Runs` allows any callers and answers, and `Runs`, `Delivery`, `Isolation`, `Outcome`, `Closing`, `Escrow` and `Provenance` allow any packets, the network theorems do not; a contract that calls back into the bridge during a message is not modelled.
- A dishonest bridge in the network: what it can do to one chain is in `Isolation`, `Outcome`, `Closing` and `Escrow`; that claims stay single for tokens that never touched its channels is not stated.
- More than one bridge on a chain, and cw721 approvals: a user move stands for the owner or anyone the owner approved.
- The proxy's filtering policy: the proxy is an address that forwards genuine sends.
- When `callback_create_vouchers` runs, the mint message it sends to itself runs at once, as part of it; the mint callback also exists on its own.
- Messages of a callback run in the order the chain runs them, as one sequence; the submessage tree itself is not modelled.
- Laziness of chained iterators: the first zip is drained before the second starts, which no caller can observe.
- Custody.StepKeepsInv: speaks of single-token packets, because that is what the bridge sends; packets with several tokens, which only a counterparty that is not this bridge sends, are covered by `Delivery`, `Isolation`, `Outcome`, `Closing`, `Escrow`, `Provenance` and `Runs`.
