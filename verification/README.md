# A verified model of vlink

vlink is an overlay network that speaks WireGuard between its peers. This
project models the parts of it that are hard to get right and proves what they
promise:

- the replay filter of a session, a ring bitmap, against the plain list of
  accepted counters (`ReplayWindow.dfy`, `NonceFilter.dfy`, `InboundData.dfy`);
- sessions, the index shared by all peers and the four slots of a peer
  (`Sessions.dfy`, `PeerObjects.dfy`);
- the Noise IKpsk2 handshake over symbolic cryptography (`Noise.dfy`,
  `Handshakes.dfy`);
- the protocol as a whole: any number of devices and peers, every interleaving
  of their tasks, over a network that drops, duplicates, reorders and misdirects
  (`Protocol*.dfy`);
- the two stream decoders, fed in arbitrary pieces (`Streaming.dfy`,
  `FrpCodec.dfy`, `FrpObjects.dfy`, `DerpCodec.dfy`) and the packet formats
  (`Bytes.dfy`, `Packets.dfy`);
- the rekey timer, the peer table and the address allocator
  (`RekeyMonitor.dfy`, `PeerList.dfy`, `AddressPool.dfy`).

`dafny verify dfyconfig.toml` checks everything.

## How the protocol is modelled

An action is a stretch of code between two lock acquisitions, taken from the
handshake, inbound and outbound loops of a peer and the inbound loop of the
device. A run is any sequence of actions from the empty world; an action that is
not enabled does nothing. So the theorems of `ProtocolTheorems.dfy`,
`ProtocolAgreement.dfy` and `ProtocolStream.dfy`, which speak about
`Run(cfg, actions)` for all `actions`, speak about every interleaving.

- Hash, key derivation, sealing and MAC are free constructors, a Diffie-Hellman
  value is the unordered pair of private keys, and every ephemeral key is drawn
  once. The model therefore assumes that these primitives do not collide and that
  the random generator does not repeat itself.
- Handshake packets and transport packets may be delivered to any device, the
  addressee or not, any number of times and in any order. They are not forged.
- A device draws fewer than 2^32 session indices and a session sends fewer than
  2^64 packets in a run; beyond that the counters of the source wrap around.
- A session value carries a `cell`, the name of the send counter and replay
  filter that all its clones share.
- The world also records histories (what was drawn, created, installed, held,
  sent and written). No action reads more of them than the code could know.

## Findings

- `handle_transport_data` promotes the `next` session before it decrypts the
  packet. So a transport packet that strays to a device where its index number
  happens to be that of a `next` session makes this session current, although the
  other end may never have read the answer: `ProtocolStray.StrayBreaksAgreement`
  gives such a run for any two devices whose counters are one apart, and
  `StrayExample` a concrete one. `ProtocolAgreement.CurrentMirrorExactly` says
  exactly when a current session has a mirror at the other end, on every run. With
  the check that is missing, that the packet opens under the session, or on a
  network where no transport packet strays, agreement always holds
  (`ProtocolAgreement.CurrentHasMirror`, `AgreementWithoutStrays`). The other
  theorems hold in spite of stray packets.
- Counter 1024 can be refused although it never arrived: `advance` clears a slot
  only when `next > 1024`, so counter 0's bit survives in the slot of 1024.
  `ReplayWindow.Stale` says exactly when, `RefusedNewCounter` proves that this is
  the only never-accepted counter inside the window that is refused, and
  `RefusalExample` gives a run.
- `finalize` never compares the response's receiver index with the pending
  initiation. Agreement holds all the same: it follows from the transcript
  (`Noise.ReadingBinds`, `ProtocolSteps.FinalizeGood`).
- Keepalives are never passed to `accept`, so the replay rule covers data packets
  only (`InboundData.LoopInbound`).
- The attempt deadline (REKEY_ATTEMPT_TIME) does not influence whether a handshake
  is started (`RekeyMonitor.DecisionExactly`).
- A transport packet of 4 to 15 bytes makes the parser slice out of range
  (`Packets.TransportWritesBack`).

## Model

| member | source | states |
|---|---|---|
| ReplayWindow.NeverTwice | vlink-tun/src/device/peer/session.rs:124-154 | in every run of guarded accepts, over all arrival orders and all jumps, no counter is accepted twice |
| ReplayWindow.OnlyArrivals | vlink-tun/src/device/peer/session.rs:124-154 | nothing is accepted that did not arrive, and what is accepted stays accepted |
| ReplayWindow.AdmitsExactly | vlink-tun/src/device/peer/session.rs:125-135 | a counter is admitted if and only if it is new, no accepted one is 1023 or more above it, and it is not 1024 with a stale slot |
| ReplayWindow.LateArrivalIsKept | vlink-tun/src/device/peer/session.rs:125-135 | a counter other than 1024 that arrives while all accepted ones lie less than a window above it ends up accepted |
| ReplayWindow.RefusedNewCounter | vlink-tun/src/device/peer/session.rs:157-163 | a never-accepted counter inside the window is refused if and only if it is 1024 and the slot is stale |
| ReplayWindow.RefusalExample | vlink-tun/src/device/peer/session.rs:157-163 | after 0, 1023, 1025 the counter 1024 is refused; after 1, 1023, 1025 it is not |
| NonceFilters.NonceFilter.CanAccept | vlink-tun/src/device/peer/session.rs:125-135 | the bitmap takes exactly the decision of the rule on the list of accepted counters; no u64 operation wraps |
| NonceFilters.NonceFilter.Accept | vlink-tun/src/device/peer/session.rs:138-154 | the history grows by the counter, the bitmap still spells its window, `accepted` counts it, no operation wraps, at most 1024 ring steps |
| NonceFilters.NonceFilter.CatchUp | vlink-tun/src/device/peer/session.rs:142-151 | by wipe or by steps the window moves so that the counter is its last slot and its contents stay right |
| NonceFilters.NonceFilter.Advance | vlink-tun/src/device/peer/session.rs:157-163 | one ring step keeps the window's contents, except that slot 1024 inherits counter 0's bit |
| NonceFilters.NonceFilter.BitmapIndex | vlink-tun/src/device/peer/session.rs:166-179 | word and bit are in range and name the slot that many places before the phase |
| InboundData.HandleTransportData | vlink-tun/src/device/peer/inbound.rs:102-122 | a packet is written if and only if its counter is within the limit, it is admitted, decrypts and is not empty, and only then enters the filter |
| InboundData.LoopInbound | vlink-tun/src/device/peer/handler.rs:65-80 | over every sequence of packets the writes are those of the replay rule on the data packets alone, each counter at most once |
| Noise.InitiationAgrees | vlink-tun/src/noise/handshake/initiation.rs:23-125 | an initiation is readable by its addressee only, who ends with the sender's hash and chaining key |
| Noise.ResponseAgrees | vlink-tun/src/noise/handshake/response.rs:23-115 | a response is readable by the initiator if and only if the pre-shared keys agree; then hash and chaining key agree |
| Noise.InitiationHashIsInjective | vlink-tun/src/noise/handshake/initiation.rs:33-56 | the transcript hash determines the ephemeral key, both identities and the timestamp |
| Noise.ReadingBinds | vlink-tun/src/noise/handshake/response.rs:78-115 | reading a response forces the transcripts, chaining keys and pre-shared keys of the two ends to be equal |
| Noise.KeysDependOnAllSecrets | vlink-tun/src/noise/handshake/response.rs:36-48 | the final chaining key depends on all four Diffie-Hellman values and on the pre-shared key |
| Noise.InitiationTranscript | vlink-tun/src/noise/handshake/initiation.rs:30-62 | the hash has absorbed seven parts in order, the chaining key comes from three first outputs, each seal has nonce 0, a second output as key and the transcript before it as associated data |
| Noise.ResponseTranscript | vlink-tun/src/noise/handshake/response.rs:31-58 | for every incoming initiation the transcript goes on with the ephemeral key, the second output of the pre-shared-key derivation and the empty seal, which is under the third output and bound to what comes before |
| Noise.ExchangeTranscript | vlink-tun/src/noise/handshake/response.rs:31-115 | after an exchange both ends have absorbed the same ten parts and derived from the same seven first outputs, in the order of the protocol |
| Noise.MacCoversMessage | vlink-tun/src/noise/handshake/cookie.rs:24-40 | mac1 is keyed by the addressee and equal for two messages if and only if they agree in everything before it |
| Noise.OpensExactly | vlink-tun/src/noise/handshake/initiation.rs:42-54 | a seal opens if and only if key, nonce and associated data are those it was made with |
| Handshakes.HonestExchangeMirrors | vlink-tun/src/device/peer/handshake.rs:45-83 | `respond` and `finalize` derive the same two keys in opposite roles and swapped indices |
| Handshakes.KeysByDirection | vlink-tun/src/device/peer/handshake.rs:45-83 | the initiator sends under the first and receives under the second output derived from the common chaining key; the responder the other way round; indices and peers of both sessions |
| Sessions.InsertInverse | vlink-tun/src/device/peer/session.rs:338-346 | inserting keeps the two index maps inverse if and only if the index is not in use under another key |
| Sessions.RemoveInverse | vlink-tun/src/device/peer/session.rs:352-363 | removing keeps them inverse, and the key's entry that is unwrapped exists |
| Sessions.RemoveByKeyExact | vlink-tun/src/device/peer/session.rs:365-373 | exactly the sessions of that key disappear |
| Sessions.RunKeepsInverse | vlink-tun/src/device/peer/session.rs:338-380 | after any mix of insert, remove, remove_by_key and clear the maps are inverse, if no index is reused under another key |
| Sessions.PrepareUninitSound | vlink-tun/src/device/peer/session.rs:233-239 | the index changes by exactly the change of the slots, and the slots stay apart |
| Sessions.CompleteUninitSound | vlink-tun/src/device/peer/session.rs:243-256 | the same for the initiator's completion |
| Sessions.PrepareNextSound | vlink-tun/src/device/peer/session.rs:259-266 | the same for the responder's preparation |
| Sessions.CompleteNextSound | vlink-tun/src/device/peer/session.rs:270-283 | the same for the responder's completion |
| PeerObjects.SessionIndex.NextIndex | vlink-tun/src/device/peer/session.rs:334-336 | a wrapping 32-bit counter |
| PeerObjects.SessionIndex.InsertSession | vlink-tun/src/device/peer/session.rs:338-346 | both maps become those of the specified insertion |
| PeerObjects.SessionIndex.GetByIndex | vlink-tun/src/device/peer/session.rs:348-350 | the session stored under the index, if any |
| PeerObjects.SessionIndex.RemoveSession | vlink-tun/src/device/peer/session.rs:352-363 | both maps become those of the specified removal, the removed session is returned, the unwrap cannot fail |
| PeerObjects.SessionIndex.RemoveKey | vlink-tun/src/device/peer/session.rs:365-373 | the loop removes all indices of the key and nothing else |
| PeerObjects.ActiveSession.PrepareUninitSlot | vlink-tun/src/device/peer/session.rs:233-239 | slots and shared index become those of the specified operation |
| PeerObjects.ActiveSession.CompleteUninitSlot | vlink-tun/src/device/peer/session.rs:243-256 | likewise; true exactly when the session matches `uninit` |
| PeerObjects.ActiveSession.PrepareNextSlot | vlink-tun/src/device/peer/session.rs:259-266 | likewise |
| PeerObjects.ActiveSession.CompleteNextSlot | vlink-tun/src/device/peer/session.rs:270-283 | likewise; true exactly when the session matches `next` |
| PeerObjects.Handshake.Initiate | vlink-tun/src/device/peer/handshake.rs:35-42 | a fresh index, the initiation packet, an all-zero placeholder, and the pending state overwritten |
| PeerObjects.Handshake.Respond | vlink-tun/src/device/peer/handshake.rs:45-63 | a fresh index, the response packet and the responder's session; the pending state untouched |
| PeerObjects.Handshake.Finalize | vlink-tun/src/device/peer/handshake.rs:65-83 | a session comes out exactly if the response is readable against a pending initiation; it has the pending index, the response's sender index and two different derived keys; the state is not consumed |
| ProtocolSteps.FinalizeGood | vlink-tun/src/device/peer/handshake.rs:65-83 | a response that can be read answers the pending initiation, although no index is compared |
| ProtocolSteps.DeliveredInitiationParses | vlink-tun/src/device/handle.rs:148-177 | an initiation that passes mac1 at a device parses there, so the unhandled parse error is not met |
| ProtocolSteps.BankKeepsIndex | vlink-tun/src/device/peer/session.rs:307-314 | one peer's operation on the shared index leaves it exact for all peers of the device |
| ProtocolSteps.StepKeeps | vlink-tun/src/device/peer/handler.rs:87-136 | every action of every task, and every delivery of any packet to any device, keeps the whole invariant |
| ProtocolSteps.RunKeeps | vlink-tun/src/device/peer/handler.rs:65-188 | the invariant holds after every run |
| ProtocolInvariant.IndexAtCounts | vlink-tun/src/device/peer/session.rs:334-336 | the indices of a device are those of a wrapping 32-bit counter |
| ProtocolAgreement.MirrorExactly | vlink-tun/src/device/peer/inbound.rs:13-101 | in every run, for every keyed session ever made: an initiator's has a mirror at the other end, a responder's has one if and only if the initiator has finalized that answer |
| ProtocolAgreement.CurrentMirrorExactly | vlink-tun/src/device/peer/inbound.rs:96-101 | in every run the same for each current session, however it was promoted |
| ProtocolAgreement.OpenedHasMirror | vlink-tun/src/device/peer/inbound.rs:96-109 | in every run a packet that opens under the session it is staged for was sent from a mirror of it, so the missing check would confirm the session |
| ProtocolAgreement.AddressedPairsUp | vlink-tun/src/device/peer/inbound.rs:96-101 | a transport packet addressed to the device of a responder's session with its index was sent from a mirror of that session |
| ProtocolAgreement.CurrentHasMirror | vlink-tun/src/device/peer/inbound.rs:13-101 | in every run whose promoting packets are addressed to the device or open under the session, a current session has a mirror created by the other peer: swapped indices, swapped keys |
| ProtocolAgreement.AgreementWithoutStrays | vlink-tun/src/device/peer/inbound.rs:13-101 | the same for every run in which each transport packet reaches its addressee only |
| ProtocolAgreement.UnequalKeysNeverTalk | vlink-tun/src/noise/handshake/response.rs:78-115 | in every run nothing is finalized or written between peers whose pre-shared keys differ |
| ProtocolStray.StrayBreaksAgreement | vlink-tun/src/device/peer/inbound.rs:96-101 | for any two acquainted devices whose index counters are one apart there is a run after which a current session mirrors nothing the other peer has made |
| ProtocolStray.StrayExample | vlink-tun/src/device/peer/inbound.rs:96-101 | a concrete run of this kind |
| ProtocolTheorems.KeyNamesSession | vlink-tun/src/device/peer/handshake.rs:53-70 | a transport key belongs to one session in one direction, among all sessions ever installed |
| ProtocolTheorems.NoncesNeverRepeat | vlink-tun/src/device/peer/session.rs:65-81 | in every run no key and nonce seal two packets, even if a response is duplicated and finalized again |
| ProtocolTheorems.SentIsSealed | vlink-tun/src/device/peer/session.rs:71-81 | in every run each packet is its data sealed under its session's sending key with the counter of the header as nonce, and every mirror of the session reads it |
| ProtocolTheorems.DecryptExactly | vlink-tun/src/device/peer/session.rs:84-89 | a session reads a packet if and only if the packet has its index and is sealed under its receiving key with the header's counter |
| ProtocolTheorems.PlaceholderStaysUninit | vlink-tun/src/device/peer/handshake.rs:35-42 | in every run `previous`, `current` and `next` hold fully keyed sessions, `uninit` all-zero ones with receiver index 0, and nothing is sealed under the all-zero key |
| ProtocolTheorems.IndexIsExact | vlink-tun/src/device/peer/session.rs:233-315 | in every run the indexed sessions are exactly those in slots, slots never share an index, a peer has at most four entries |
| ProtocolTheorems.ReplacedSessionStillReceives | vlink-tun/src/device/peer/session.rs:243-283 | in every run a session that was current is found by its index until its link evicts a second session, whatever else happens in between |
| ProtocolTheorems.EvictionForgets | vlink-tun/src/device/peer/session.rs:243-283 | in every run an eviction removes the previous session: its index is no longer found |
| ProtocolTheorems.AnsweredSessionStillReceives | vlink-tun/src/device/peer/session.rs:259-283 | in every run a session in `next` is found by its index until its link evicts a second session, promoted, replaced or neither |
| ProtocolTheorems.SecondAnswerKeepsFirst | vlink-tun/src/device/peer/session.rs:259-266 | in every run answering again makes the session that waited in `next` the previous one, still indexed, and leaves `current` alone |
| ProtocolTheorems.PlaceholderWaits | vlink-tun/src/device/peer/session.rs:233-256 | in every run the placeholder of an initiation stays in `uninit` and indexed until it is completed or another initiation is installed |
| ProtocolTheorems.WrittenWasSent | vlink-tun/src/device/peer/inbound.rs:88-122 | in every run what is written to the TUN is a payload the other peer sent, from the mirror of the receiving session, with a counter within the limit |
| ProtocolTheorems.WrittenAtMostOnce | vlink-tun/src/device/peer/inbound.rs:102-122 | in every run no transport packet is written twice, however often it is delivered |
| ProtocolExchange.ExchangeDelivers | vlink-tun/src/noise/handshake/mod.rs:48-69 | recovery: after every run that leaves the two loops idle and indices to draw, an undisturbed exchange between peers with equal pre-shared keys ends with mirrored current sessions and the data written |
| ProtocolStream.CountersAreConsecutive | vlink-tun/src/device/peer/session.rs:64-81 | in every run a session numbers its packets 0, 1, 2 and so on without gaps |
| ProtocolStream.NextPacketArrives | vlink-tun/src/device/peer/inbound.rs:88-122 | after every run, between a held session and an indexed mirror, the next packet within the counter limit is written |
| ProtocolStream.LatePacketArrives | vlink-tun/src/device/peer/inbound.rs:88-122 | after every run any packet sent before and not yet written is written when it arrives, unless its number is 1024 or a packet 1023 or more ahead was written |
| ProtocolStream.StreamArrives | vlink-tun/src/device/peer/inbound.rs:88-122 | after every run a stream of any length, while counters last, is written complete and in order |
| Streaming.DrainSplits | derp/frp-client/src/frp_codec.rs:76-151 | draining, waiting and draining again is draining once, for every incremental decoder |
| Streaming.ChunkingIsInvisible | derp/frp-client/src/frp_codec.rs:76-151 | for every incremental decoder and every split of the stream: same messages, state, leftover and failure |
| FrpCodec.DecodeIncremental | derp/frp-client/src/frp_codec.rs:76-151 | `decode` never revises a decision when more bytes come, and every message uses up bytes or the saved header |
| FrpCodec.FrpChunkingIsInvisible | derp/frp-client/src/frp_codec.rs:76-151 | a fresh codec fed in any pieces ends with the messages, stage, header, cipher state and leftover of one shot |
| FrpCodec.DecipherSplits | derp/frp-client/src/buf_crypto.rs:39-41 | deciphering a buffer in two pieces is deciphering it once |
| FrpCodec.DecipherIsARun | derp/frp-client/src/buf_crypto.rs:39-41 | deciphering runs the cipher once over every byte: byte k comes out of the k-th state |
| FrpCodec.DecipherThenParse | derp/frp-client/src/frp_codec.rs:89-128 | once the cipher runs, for every stream: up to and including the first login response decoding the ciphertext is decoding its plaintext, and the cipher has run over exactly the bytes used up, each once, in order |
| FrpCodec.DrainGoesOn | derp/frp-client/src/frp_codec.rs:76-151 | draining a stream is draining to the first login response and, from the IV stage it leaves, draining the rest; without one it is the whole stream |
| FrpCodec.OneMessage | derp/frp-client/src/frp_codec.rs:96-151 | a message in the clear, type byte, 64-bit big-endian length, body, is refused if and only if it is over 2048 bytes, of another type than 1, 2, r, s, or does not parse; otherwise it comes out as what it is |
| FrpCodec.ConnectionReadsBack | derp/frp-client/src/frp_codec.rs:76-151 | a login response, an IV and messages under the cipher, in any pieces, decode to exactly these, with nothing left over |
| FrpObjects.FrpBufCrypto.DecryptBuf | derp/frp-client/src/buf_crypto.rs:39-41 | the buffer is deciphered in place and the cipher moves on by its length |
| FrpObjects.FrpDecoder.DecodeNext | derp/frp-client/src/frp_codec.rs:76-151 | one call yields exactly the outcome of the pure decoder, state and buffer included |
| FrpObjects.FrpDecoder.Pump | derp/frp-client/src/frp_codec.rs:76-151 | calling `decode` until nothing comes out terminates, with the result of draining |
| DerpCodec.DecodeIncremental | derp/tailscale-derp/src/derp_codec.rs:255-280 | framing never revises a decision when more bytes come |
| DerpCodec.FramesRoundTrip | derp/tailscale-derp/src/derp_codec.rs:255-350 | frames of at most 2^20 bytes, of known types or not, written in a row and received in any pieces, reach `decode_frame` in order |
| DerpCodec.NothingLost | derp/tailscale-derp/src/derp_codec.rs:255-280 | unless `decode_frame` errs its inputs are all the frames written, and no byte is left |
| DerpCodec.RelayedPacketArrives | derp/tailscale-derp/src/derp_codec.rs:197-203 | type 5, 32-bit big-endian length, 32 key bytes and data, in any pieces, come out as that key and that data |
| DerpCodec.ServerGreets | derp/tailscale-derp/src/derp_codec.rs:174-195 | the server's key frame yields the 32 bytes after the magic, and its info frame the info opened under that key, if and only if it opens |
| DerpCodec.PeerGoneArrives | derp/tailscale-derp/src/derp_codec.rs:204-207 | key and reason of a peer-gone frame come out, whatever follows them |
| DerpCodec.OtherFramesPass | derp/tailscale-derp/src/derp_codec.rs:194-213 | keepalives are reported, frames of all other types are passed over and the stream stays in step |
| DerpCodec.ErrsExactly | derp/tailscale-derp/src/derp_codec.rs:170-213 | which frames `decode_frame` fails on, and that only a server key changes what it keeps |
| DerpCodec.OversizeIsRefused | derp/tailscale-derp/src/derp_codec.rs:266-271 | a frame over 2^20 bytes is refused by its header; a smaller one fails only in `decode_frame` |
| DerpCodec.DerpDecoder.DecodeNext | derp/tailscale-derp/src/derp_codec.rs:255-280 | one call yields exactly the outcome of the pure decoder |
| Packets.TransportReadsBack | vlink-tun/src/noise/protocol.rs:137-201 | serialised transport data parses to itself |
| Packets.TransportWritesBack | vlink-tun/src/noise/protocol.rs:137-171 | a prefixed string of at least 16 bytes parses and serialises to the same bytes; shorter ones panic, and only those |
| Packets.InitiationReadsBack | vlink-tun/src/noise/handshake/initiation.rs:30-62 | an emitted initiation parses to its fields, is recognised as a handshake, and passes mac1 exactly under a key giving the same mac |
| Packets.ResponseReadsBack | vlink-tun/src/noise/handshake/response.rs:31-58 | the same for an emitted response |
| Packets.ParsesExactly | vlink-tun/src/noise/protocol.rs:26-201 | a byte string parses to a message of any of the four kinds if and only if it is that message on the wire, and is routed as a handshake if and only if it is one |
| Packets.PanicsExactly | vlink-tun/src/noise/protocol.rs:157-201 | the message parser panics on transport packets of 4 to 15 bytes and on nothing else |
| Bytes.LeByteAt | vlink-tun/src/noise/protocol.rs:147-155 | byte i of a little-endian number is its i-th base-256 digit |
| Bytes.BeByteAt | derp/tailscale-derp/src/derp_codec.rs:346-350 | byte i of a big-endian number of k bytes is its digit k - 1 - i |
| Packets.MirroredSessionsConverse | vlink-tun/src/device/peer/session.rs:71-89 | between mirrored sessions encrypt, serialise, parse, decrypt returns every payload, sealed with the counter that the packet carries; no session with another index reads it |
| RekeyMonitor.PeerMonitor.MayHandshake | vlink-tun/src/device/peer/monitor.rs:160-175 | true if and only if 2^60 packets were sent or both waiting times are over; the deadline moves, to 90 s from now within a millisecond, if and only if neither the packets nor the quiet time decide and it lies before the end of the quiet time |
| RekeyMonitor.PeerMonitor.MarkCompleted | vlink-tun/src/device/peer/monitor.rs:48-58 | the stored completion time is less than a millisecond before now, the attempt deadline less than a millisecond before 90 s from now |
| RekeyMonitor.DecisionExactly | vlink-tun/src/device/peer/monitor.rs:160-175 | a handshake is due if and only if 2^60 packets were sent or both waiting times are over |
| RekeyMonitor.WakesWhenDue | vlink-tun/src/device/peer/monitor.rs:39-45 | outside the quiet time and before the attempt deadline the wake-up is the first instant a handshake is due |
| RekeyMonitor.WakesInFiveSeconds | vlink-tun/src/device/peer/monitor.rs:39-45 | in the quiet time or past the attempt deadline the wake-up is five seconds from now |
| RekeyMonitor.NewPeerMayHandshake | vlink-tun/src/device/peer/monitor.rs:24-31 | a new peer may handshake at once; its three clocks lie 5 s back, 180 s back and 90 s ahead |
| RekeyMonitor.DeadlineMovesOnce | vlink-tun/src/device/peer/monitor.rs:170-173 | after a decision has moved the deadline no later decision moves it before the next completion |
| RekeyMonitor.InitiationsAreSpaced | vlink-tun/src/device/peer/handler.rs:113-136 | in every run below 2^60 packets any two initiations are 5000 stored milliseconds apart |
| RekeyMonitor.SpacingNeedsTheBound | vlink-tun/src/device/peer/monitor.rs:161-163 | from 2^60 packets on every decision is positive, so the spacing is lost |
| RekeyMonitor.NoDecisionAfterCompletion | vlink-tun/src/device/peer/monitor.rs:165-168 | none is decided within 120000 stored milliseconds of any earlier completion |
| RekeyMonitor.NoDecisionAfterAnswer | vlink-tun/src/device/peer/inbound.rs:33 | none is decided within 5000 stored milliseconds of any earlier answer or initiation |
| RekeyMonitor.LoopNeverSpins | vlink-tun/src/device/peer/monitor.rs:39-45 | a wake-up is at most five seconds ahead, and a wake-up without a handshake has slept five seconds |
| PeerLists.ContainsExactly | vlink-tun/src/device/peer/cidr.rs:18-23 | the network of an address and a length contains exactly the addresses of its family from the truncated address on, 2 to the number of host bits many |
| PeerLists.NetworkExamples | vlink-tun/src/device/peer/cidr.rs:143-152 | 10.2.3.4/16 is 10.2.0.0 to 10.2.255.255, a /32 is one address |
| PeerLists.LongestMatchIsLongest | vlink-tun/src/device/peer/cidr.rs:95-97 | the match contains the address and no table entry that does is longer |
| PeerLists.OwnerIsUnique | vlink-tun/src/device/peer/peers.rs:57-60 | with disjoint prefixes only one peer owns the longest prefix |
| PeerLists.PeerList.Insert | vlink-tun/src/device/peer/peers.rs:87-132 | the first registration fixes a peer's prefixes, each registration claims them, the table stays exact |
| PeerLists.PeerList.Clear | vlink-tun/src/device/peer/peers.rs:79-85 | peers, prefixes and sessions are gone |
| PeerLists.PeerList.GetByIp | vlink-tun/src/device/peer/peers.rs:57-60 | found if and only if some registered prefix contains the address; the peer owns a longest one, the only one if prefixes are disjoint |
| PeerLists.PeerList.GetSessionByIndex | vlink-tun/src/device/peer/peers.rs:63-70 | the indexed session with the registered peer whose key it carries; with inverse maps its sender index is the one asked for |
| AddressPool.Network.GenerateIp | headlink/src/client/handler/req_config.rs:111-121 | the lowest address at offset 2 or more that is free, none only if all are taken |
| AddressPool.Network.ReqConfig | headlink/src/client/handler/req_config.rs:41-61 | addresses stay distinct, inside the network and without gaps; a request fails only for an unknown peer or when the peers fill the network |
| AddressPool.Pigeonhole | headlink/src/client/handler/req_config.rs:116-120 | if no address is free there are at least size - 2 holders |
| AddressPool.ServeAll | headlink/src/client/handler/req_config.rs:17-61 | from a network without addresses, any requests leave exactly the addresses from offset 2 up assigned, one each |

## Left out

- NonceFilters.NonceFilter.Accept: stated for admitted counters, because its only caller asks `can_accept` first; below the window the source's index arithmetic would underflow.
- A sealed static key or timestamp of the wrong length: an unwrap panics in the source, the parse fails here.
- A DERP frame that is too short for its type: slicing it panics in the source, decoding fails here.
- Bit operations on u64: a word of the bitmap is an array of 64 booleans.
- Timestamps of initiations: the source decrypts them and compares them with nothing.
- Cookie replies, mac2 and the rate limiter: the limiter never refuses and no cookie is ever stored, so there is no protocol to model.
- Forged packets: the network delivers only packets that some device has made.
- Clearing the peer table during a run of the protocol: the tasks of the old peers are cancelled and a new run begins; `PeerLists.PeerList.Clear` covers the table.
- Order of staged events: the inbound loop may handle them in any order and more than once, which allows more runs than the source's queue.
- Two threads inside one `set_now`: reading the clock and storing it is one step.
- Frp message bodies (JSON), the frp encoder and the key derivation for its cipher: bodies are checked by arbitrary predicates and the cipher is an arbitrary byte-step machine; requests and responses are different message types, so encoding and decoding are not inverse.
- The HTTP upgrade of the DERP connection and the opening of server-info bodies: library code, the latter a parameter.
- A connection after a decoding error: a failure is final, later bytes are only buffered.
- The internals of the routing table: a map with a longest-match definition.
- Text forms of addresses and keys, the database and the broadcasts around a config request: a request is one step on the table of assigned addresses.
- Keepalive scheduling: its receive clock is never set in the source.
- Sockets, TUN devices, relays, UPnP, STUN, TLS and the operating-system interfaces.
