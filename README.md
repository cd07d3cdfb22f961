# Tag delegate cache and client play networking addon

This project models two small stateful parts of the Fabric mod loader's API
and proves properties about them in Dafny.

* **`TagDelegate`** (module `TagExtension`, `tag_delegate.dfy`). It is a
  long-lived tag object that resolves its contents lazily against the tag
  container (`TagGroup`) that is current at each call. It caches the last
  `(container, tag)` pair as a `Target`. The cached tag is reused only when the
  supplier returns the *same* container object. Otherwise the tag is recomputed
  with `getTagOrEmpty(id)` and the cache is overwritten. `contains` first rejects
  objects that come from the built-in (static) registry. `hasBeenReplaced`
  reports whether the tag loader has recorded a positive reload count through
  `fabric_setExtraData`.
* **`ClientPlayNetworkAddon`** (module `ClientNetworking`,
  `client_play_network_addon.dfy`). This is the client side of a play
  connection's channel networking. The flag `canSendPackets` gates
  single-channel REGISTER / UNREGISTER announcements. `onServerReady` registers
  every global handler while the flag is still down, then sends one batched
  registration, raises the flag, fires `PLAY_INIT` and starts the session.
  `handle` dispatches a received custom-payload packet and always releases its
  buffer.

`common.dfy` holds the shared `Identifier` and `Option` types.

How the host is represented:

* **Containers.** A container is a value of the type parameter `C`. Equality
  on `C` stands for Java reference identity (`!=` on line 80 of
  `TagDelegate.java`).
* **The container supplier.** It becomes the `current` argument of each read.
* **`TagGroup.getTagOrEmpty`.** It is the function `getTagOrEmpty`, given to
  the constructor.
* **Static registry.** Its `getRawId` is `staticRegistry: Option<T -> int>`.
  `None` stands for a null registry.
* **Tags.** A `Tag` is the sequence of its values. `contains` on a tag is
  membership in that sequence (`Includes`).
* **Networking trace.** Every observable effect of the addon is appended, in
  order, to one trace of `Action`s: packets sent, events fired, and calls into
  the channel-registry superclass (`AbstractChanneledNetworkAddon`, which is
  not part of this model).
* **Superclass operations.** The superclass's `createRegistrationPacket` (which
  may return null), its inner `handle(Identifier, buf)` dispatcher and the
  host's `isReservedPlayChannel` are functions given to the constructor. The
  model states no contract of its own for them. The specification functions
  take the encoder and the reserved-channel test together as `HostOps`.
* **Registration acceptance.** Whether the superclass accepts a registration
  of a channel that is not reserved (for instance, not a duplicate) is an
  abstract `accepted` flag of each call. A registration is *stored* when it is
  accepted and `isReservedChannel` says the channel is not reserved. Only a
  stored registration is recorded and runs the `handleRegistration` hook.
* **Control channels.** `REGISTER_CHANNEL` and `UNREGISTER_CHANNEL` are
  `minecraft:register` and `minecraft:unregister`. `NetworkingImpl`, where
  they are defined, is not part of this model.
* **Specification functions.** The methods that read the cache or change the
  addon's state are proved against a pure function of the old state:
  `Lookup` for `getTag`, `contains` and `values`, and `Announce`, `Register`,
  `ServerReady` and `Disconnect` for `handleRegistration`,
  `handleUnregistration`, `registerChannel`, `onServerReady` and
  `invokeDisconnectEvent`. `SetExtraData`, `Handle`, `SendPacket` and
  `SendChannelRegistrationPacket` state their new state directly. `Reads`, `Misses`
  and `Run` chain these over a series of calls, and the lemmas are stated
  over those chains.

`getId` returns the constant field `id`, which the constructor sets and
which can never change.

## Model

| member | source | states |
|---|---|---|
| TagExtension.Lookup | fabric-tag-extensions-v0/src/main/java/net/fabricmc/fabric/impl/tag/extension/TagDelegate.java:75-88 | afterwards the cache always holds the current container and the returned tag; on a cache hit nothing is recomputed and the cache is left unchanged; on a miss the tag is `getTagOrEmpty(current, id)`; under the cache invariant, both paths return the current container's tag and keep the invariant |
| TagExtension.Reads | fabric-tag-extensions-v0/src/main/java/net/fabricmc/fabric/impl/tag/extension/TagDelegate.java:75-88 | a series of reads returns one tag per read, and afterwards the cache holds the last container and the last tag returned |
| TagExtension.EveryReadIsCurrent | fabric-tag-extensions-v0/src/main/java/net/fabricmc/fabric/impl/tag/extension/TagDelegate.java:80-85 | starting from a coherent cache, every read of any series returns `getTagOrEmpty` of the container current at that read, and the cache stays coherent |
| TagExtension.MissesAreContainerChanges | fabric-tag-extensions-v0/src/main/java/net/fabricmc/fabric/impl/tag/extension/TagDelegate.java:80-85 | a read recomputes exactly when the supplied container is not the one cached before it, so the number of recomputations equals the number of container changes |
| TagExtension.RepeatedReadsRecomputeAtMostOnce | fabric-tag-extensions-v0/src/main/java/net/fabricmc/fabric/impl/tag/extension/TagDelegate.java:80-85 | any number of reads against one unchanged container recompute at most once, and not at all when that container is already cached |
| TagExtension.TagDelegate.constructor | fabric-tag-extensions-v0/src/main/java/net/fabricmc/fabric/impl/tag/extension/TagDelegate.java:33-49 | a new delegate keeps the given id, lookup function and static registry, has no cached target, has `clearCount = 0` and so reports `hasBeenReplaced() == false` |
| TagExtension.TagDelegate.GetTag | fabric-tag-extensions-v0/src/main/java/net/fabricmc/fabric/impl/tag/extension/TagDelegate.java:75-88 | keeps the cache invariant; returns `getTagOrEmpty(current, id)`; leaves the cache holding the current container and the returned tag; follows `Lookup`, so a hit changes nothing |
| TagExtension.TagDelegate.Contains | fabric-tag-extensions-v0/src/main/java/net/fabricmc/fabric/impl/tag/extension/TagDelegate.java:51-59 | throws IllegalArgumentException exactly when a static registry is present and gives `x` a raw id other than -1, and then leaves the cache untouched; otherwise it returns whether the current container's tag contains `x` and updates the cache as `getTag` does |
| TagExtension.TagDelegate.Values | fabric-tag-extensions-v0/src/main/java/net/fabricmc/fabric/impl/tag/extension/TagDelegate.java:61-64 | returns the values of the current container's tag and updates the cache as `getTag` does |
| TagExtension.TagDelegate.GetId | fabric-tag-extensions-v0/src/main/java/net/fabricmc/fabric/impl/tag/extension/TagDelegate.java:90-93 | returns the identifier the delegate was constructed with; `id` is a constant field, so it never changes |
| TagExtension.TagDelegate.HasBeenReplaced | fabric-tag-extensions-v0/src/main/java/net/fabricmc/fabric/impl/tag/extension/TagDelegate.java:95-98 | true iff the recorded `clearCount` is positive |
| TagExtension.TagDelegate.SetExtraData | fabric-tag-extensions-v0/src/main/java/net/fabricmc/fabric/impl/tag/extension/TagDelegate.java:95-103 | sets `clearCount` to the given 32-bit value and changes nothing else, so afterwards `hasBeenReplaced()` holds iff the value is positive |
| ClientNetworking.Register | fabric-networking-api-v1/src/main/java/net/fabricmc/fabric/impl/networking/client/ClientPlayNetworkAddon.java:112-122 | registering never changes `canSendPackets`; a reserved channel or a registration the superclass does not accept changes nothing; a stored registration on an addon that cannot send yet only records the registration |
| ClientNetworking.Registrations | fabric-networking-api-v1/src/main/java/net/fabricmc/fabric/impl/networking/client/ClientPlayNetworkAddon.java:58-60 | the trace entries of the global registrations are registration records only, at most one per global handler |
| ClientNetworking.RegisterAll | fabric-networking-api-v1/src/main/java/net/fabricmc/fabric/impl/networking/client/ClientPlayNetworkAddon.java:58-60 | registering a series of channels never changes `canSendPackets` and only appends to the trace |
| ClientNetworking.Apply | fabric-networking-api-v1/src/main/java/net/fabricmc/fabric/impl/networking/client/ClientPlayNetworkAddon.java:56-67 | after any call, `canSendPackets` is up iff it was up before or the call was `onServerReady`; every call only appends to the trace |
| ClientNetworking.RegisterAllWhileClosed | fabric-networking-api-v1/src/main/java/net/fabricmc/fabric/impl/networking/client/ClientPlayNetworkAddon.java:58-60 | while `canSendPackets` is down, registering the global handlers only records each stored registration, in order, and sends nothing |
| ClientNetworking.ServerReadyBatchesRegistrations | fabric-networking-api-v1/src/main/java/net/fabricmc/fabric/impl/networking/client/ClientPlayNetworkAddon.java:56-67 | on an addon that cannot send yet, `onServerReady` appends exactly: every stored global registration, then one batched registration, then PLAY_INIT, then session start; it raises the flag and sends no individual packet |
| ClientNetworking.CanSendOnlyRises | fabric-networking-api-v1/src/main/java/net/fabricmc/fabric/impl/networking/client/ClientPlayNetworkAddon.java:43-63 | after any series of calls, `canSendPackets` is true iff it was true before or the series contains `onServerReady`, so the flag never goes back down |
| ClientNetworking.ApplyWhileClosed | fabric-networking-api-v1/src/main/java/net/fabricmc/fabric/impl/networking/client/ClientPlayNetworkAddon.java:112-134 | while `canSendPackets` is down, any call other than `onServerReady` sends no packet and keeps the flag down |
| ClientNetworking.ReservedRegistrationsChangeNothing | fabric-networking-api-v1/src/main/java/net/fabricmc/fabric/impl/networking/client/ClientPlayNetworkAddon.java:142-145 | any series of attempts to register reserved channels leaves the addon exactly as it was, whether or not it can send and whatever the superclass would otherwise decide |
| ClientNetworking.NoPacketBeforeReady | fabric-networking-api-v1/src/main/java/net/fabricmc/fabric/impl/networking/client/ClientPlayNetworkAddon.java:112-134 | no series of calls without `onServerReady` sends an individual packet from an addon that cannot send yet, and the flag stays down |
| ClientNetworking.ApplyWhileOpen | fabric-networking-api-v1/src/main/java/net/fabricmc/fabric/impl/networking/client/ClientPlayNetworkAddon.java:112-134 | while `canSendPackets` is up, `handleRegistration`/`handleUnregistration` send exactly one packet on their control channel carrying the encoding of `{c}`, or none if the encoding is null; a `registerChannel` call does the same on REGISTER_CHANNEL when it is stored, and sends nothing otherwise |
| ClientNetworking.OnePacketPerAnnouncement | fabric-networking-api-v1/src/main/java/net/fabricmc/fabric/impl/networking/client/ClientPlayNetworkAddon.java:112-134 | while `canSendPackets` is up, a series of announcements sends one packet per call whose buffer is non-null (for `registerChannel`, per stored call), in call order, and nothing else |
| ClientNetworking.ConnectionSendsOnlyAfterReady | fabric-networking-api-v1/src/main/java/net/fabricmc/fabric/impl/networking/client/ClientPlayNetworkAddon.java:43-67 | from construction, any calls before `onServerReady` send no individual packet; after it, exactly the later announcements go out, in order |
| ClientNetworking.ClientPlayNetworkAddon.constructor | fabric-networking-api-v1/src/main/java/net/fabricmc/fabric/impl/networking/client/ClientPlayNetworkAddon.java:43-52 | a new addon has `canSendPackets == false` and a trace holding only the registration of pending channels |
| ClientNetworking.ClientPlayNetworkAddon.RegisterChannel | fabric-networking-api-v1/src/main/java/net/fabricmc/fabric/impl/networking/client/ClientPlayNetworkAddon.java:58-60 | reports the registration as stored iff the superclass accepts it and the channel is not reserved; a stored one is recorded and then runs the `handleRegistration` hook; otherwise nothing changes |
| ClientNetworking.ClientPlayNetworkAddon.OnServerReady | fabric-networking-api-v1/src/main/java/net/fabricmc/fabric/impl/networking/client/ClientPlayNetworkAddon.java:56-67 | its new state is `ServerReady` of the old one: global registrations in order, then one batched registration, then PLAY_INIT, then session start, with `canSendPackets` true afterwards |
| ClientNetworking.ClientPlayNetworkAddon.Handle | fabric-networking-api-v1/src/main/java/net/fabricmc/fabric/impl/networking/client/ClientPlayNetworkAddon.java:75-83 | returns the inner dispatcher's outcome for the packet's channel and bytes, a thrown exception included, and in every case leaves the buffer released |
| ClientNetworking.ClientPlayNetworkAddon.HandleRegistration | fabric-networking-api-v1/src/main/java/net/fabricmc/fabric/impl/networking/client/ClientPlayNetworkAddon.java:112-122 | with the flag down nothing changes; with it up, it appends one REGISTER_CHANNEL packet built from `{c}` if that buffer is non-null, and none if it is null |
| ClientNetworking.ClientPlayNetworkAddon.HandleUnregistration | fabric-networking-api-v1/src/main/java/net/fabricmc/fabric/impl/networking/client/ClientPlayNetworkAddon.java:124-134 | the same as `HandleRegistration`, on UNREGISTER_CHANNEL |
| ClientNetworking.ClientPlayNetworkAddon.IsReservedChannel | fabric-networking-api-v1/src/main/java/net/fabricmc/fabric/impl/networking/client/ClientPlayNetworkAddon.java:142-145 | gives the host's reserved-play-channel verdict; `RegisterChannel` consults it, so a reserved channel is never stored |
| ClientNetworking.ClientPlayNetworkAddon.InvokeDisconnectEvent | fabric-networking-api-v1/src/main/java/net/fabricmc/fabric/impl/networking/client/ClientPlayNetworkAddon.java:136-140 | appends PLAY_DISCONNECT and then session end; the flag is unchanged |

## Left out

- Concurrency: `target` is `volatile` and `getTag` may race. The model reads and writes the cache sequentially.
- `TagFactory` is a set of constants and factories that delegate to `TagFactoryImpl`, which is not part of this model. It has no logic of its own.
- `Tag`'s own `contains` is taken to be membership in its `values()`. The host's `Tag` class is not part of this model.
- ClientNetworking.ClientPlayNetworkAddon.RegisterChannel: the superclass's `registerChannel` is reduced to its effect on this class. A reserved channel (by `isReservedChannel`) is refused; otherwise the superclass's own verdict, such as its duplicate check, is the abstract `accepted` flag, because its handler map is not modelled. A refusal is a `false` result that changes nothing; whether the superclass throws for it is not modelled. A stored registration is recorded and runs the `handleRegistration` hook.
- The superclass `AbstractChanneledNetworkAddon` is not part of this model. `sendChannelRegistrationPacket` and `registerPendingChannels` appear only as trace entries. `createRegistrationPacket` and the inner `handle(Identifier, buf)` are functions with no contract; any state the inner dispatcher changes is not modelled.
- The global handler map (`ClientNetworkingImpl.PLAY.getHandlers()`) is given to `OnServerReady` as a sequence of registrations (channel name and the superclass's acceptance) in the map's iteration order. The handler objects themselves are not modelled.
- ClientNetworking.ClientPlayNetworkAddon.OnServerReady: the trace does not show that the flag is raised before PLAY_INIT fires. Listeners are not modelled, so a listener registering a channel during PLAY_INIT cannot be modelled either.
- Host calls: `receive`, `schedule` (`MinecraftClient.execute`), `createPacket` and the event `invoker()` fan-outs in `invokeRegisterEvent` and `invokeUnregisterEvent` are foreign calls. Fired events appear only as trace entries, and the register/unregister channel events are not modelled.
- Buffers: packet byte formats and reference-counted buffer memory are reduced to the buffer's bytes and a single `released` flag.
