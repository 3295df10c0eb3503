# Keychain adapter and packet router of the Ziti tunnel for Android

This project models two sequential pieces of the Android tunnel app in Dafny and proves what
they promise.

- **The keychain adapter** (`keychain.dfy`, module `Keychain`). The TLS engine reaches
  private keys through a seven-operation keychain interface: gen, load, remove, key type,
  export public key, sign and free. The adapter implements each operation by calling a Java
  key store object over JNI.
  - The Java object is `Provider`. It holds a map from key name to key entry, where an entry is
    an algorithm family plus the encoded public key. It signs through an uninterpreted function
    `signer`, which returns `None` where the Java method returns null.
  - Whether the JVM reports an exception after a provider call is the parameter `raises`. This
    is the value `checkException` returns.
  - A key handle is a JNI global reference (`Handle`). The adapter's live global references
    are the map `globals`.
  - The out-parameters `*pk`, `*k`, `*len` and `*siglen` are cells (`HandleCell`, `SizeCell`).
    The caller buffers `buf` and `sig` are arrays of bytes.
  - `AndroidKeychain` is the adapter's global state. Registration is a last-writer-wins
    assignment to its `store` field.
  - Key material is a sequence of `Octet`, the one byte type of the project (`octets.dfy`).
- **The packet router** (`packet_router.dfy`, module `PacketRouting`). It reads packets
  from the tun device and sends each one to one of three places: the embedded nameserver, the
  TCP connection its 4-tuple names, or nowhere.
  - `Router` owns the connection table `tcpConnections`, a map from key string to
    `Connection`.
  - A connection follows the abstract transition functions of a `TcpMachine`. Its `state`
    and its `isClosed()` are two separate observations.
  - The nameserver answers through an abstract function.
  - `Router.delivered` records every buffer that `route` itself passes to the `inbound`
    callback.
  - `ProcessUdp` changes nothing: the source only logs UDP packets. Building the log message
    throws a null-pointer exception when the packet has no payload.
  - A packet's payload is one of three cases: none (pcap4j leaves `payload` null), a TCP
    segment, or some other payload. `routeTCP` throws a different exception for each of the
    first and the last.
- **Connection keys** (`flow_key.dfy`, module `FlowKey`). This module builds the
  "src:sport-dst:dport" key from the dotted-quad address text and the decimal port text. It
  proves that the key determines the 4-tuple. Two distinct TCP flows therefore never share a
  table entry.

Where the code and the design notes of the keychain contract disagree, the model follows the
code:
- `rem_key` of a name the store does not hold succeeds. The Java removal is modelled as a
  no-op for an unknown name, and the adapter never reports NotFound.
- `free_key` has no guard against freeing twice.
- `key_sign` ignores its scheme parameter and never compares the signature length with
  `*siglen`.
- When `key_public` fails, it leaves `*len` unchanged.
- `key_type`, `key_public` and `key_sign` do not detect a freed or unknown handle. They pass it
  to JNI as it is, so there is no `Invalid` result and no error for such a handle.

## Model

| member | source | states |
|---|---|---|
| `Keychain.AlgorithmName` | tunnel/src/main/cpp/keychain.cpp:87-94 | only RSA and EC have a provider algorithm name; any other type is refused; the provider creates a key of exactly the requested family from that name |
| `Keychain.Provider.GenKey` | tunnel/src/main/cpp/keychain.cpp:96-100 | the Java `genKey` stores and returns a new entry of the requested family under the name, unless it raises or returns null, in which case the store is unchanged |
| `Keychain.Provider.DeleteKey` | tunnel/src/main/cpp/keychain.cpp:137-140 | the Java `deleteKey` removes the name unless it raises; an absent name is not an error |
| `Keychain.CopyInto` | tunnel/src/main/cpp/keychain.cpp:181-182 | `memcpy` makes the buffer's prefix equal to the source bytes and leaves every byte beyond it unchanged |
| `Keychain.AndroidKeychain.constructor` | tunnel/src/main/cpp/keychain.cpp:33-43 | before registration there is no store and no live handle |
| `Keychain.AndroidKeychain.Register` | tunnel/src/main/cpp/keychain.cpp:64-67 | registration replaces the store (last writer wins), installs the adapter in the TLS engine and leaves existing handles live |
| `Keychain.AndroidKeychain.NewGlobalRef` | tunnel/src/main/cpp/keychain.cpp:105 | a new global reference is distinct from every live handle and refers to the given entry |
| `Keychain.AndroidKeychain.GenKey` | tunnel/src/main/cpp/keychain.cpp:81-110 | returns 0 iff a store is registered, the type is RSA or EC, the provider does not raise and returns an entry; on success `*pk` is a fresh live handle to an entry of the requested type and the store holds it under the name; otherwise returns -1 and leaves `*pk`, the handles and the store unchanged |
| `Keychain.AndroidKeychain.LoadKey` | tunnel/src/main/cpp/keychain.cpp:112-127 | returns 0 iff a store is registered, the provider does not raise and the name is stored; on success `*k` is a fresh live handle to the stored entry; otherwise returns -1 and leaves `*k` and the handles unchanged |
| `Keychain.AndroidKeychain.RemKey` | tunnel/src/main/cpp/keychain.cpp:129-146 | returns 0 iff a store is registered and the provider does not raise, and then the name is gone from the store; otherwise returns -1 and the store is unchanged |
| `Keychain.AndroidKeychain.KeyTypeOf` | tunnel/src/main/cpp/keychain.cpp:148-162 | a null handle or a provider exception gives `keychain_key_invalid`; otherwise the result is the family of the key behind the handle |
| `Keychain.AndroidKeychain.KeyPublic` | tunnel/src/main/cpp/keychain.cpp:164-187 | returns 0 iff the handle is non-null, the provider does not raise and the public key fits in `*len`; on success the buffer's first `*len` bytes are the public key, the rest of the buffer is unchanged and the new `*len` is at most the old one; on failure returns -1 and writes neither `buf` nor `*len` |
| `Keychain.AndroidKeychain.KeySign` | tunnel/src/main/cpp/keychain.cpp:189-212 | returns 0 iff the handle is non-null and the provider neither raises nor returns null; on success `*siglen` is the signature's length, `sig` starts with the signature and the rest is unchanged; on failure returns -1 and writes neither `sig` nor `*siglen` |
| `Keychain.AndroidKeychain.FreeKey` | tunnel/src/main/cpp/keychain.cpp:214-223 | freeing null changes nothing; freeing a live handle releases exactly that handle and leaves every other handle live |
| `Keychain.GenerateThenLoad` | tunnel/src/main/cpp/keychain.cpp:97-161 | a key generated under a name and loaded again by that name reports the generated type, unless the provider raises |
| `Keychain.RemoveThenLoad` | tunnel/src/main/cpp/keychain.cpp:118-145 | once a name is removed, loading it fails |
| `FlowKey.Decimal` | app/src/main/java/org/openziti/mobile/net/PacketRouterImpl.kt:63-64 | a port's text is a non-empty string of digits without a leading zero |
| `FlowKey.DecimalRoundTrip` | app/src/main/java/org/openziti/mobile/net/PacketRouterImpl.kt:63-64 | reading a port's decimal text back gives the port |
| `FlowKey.DecimalInjective` | app/src/main/java/org/openziti/mobile/net/PacketRouterImpl.kt:63-64 | distinct ports have distinct texts |
| `FlowKey.Joined` | app/src/main/java/org/openziti/mobile/net/PacketRouterImpl.kt:63-64 | a joined string is as long as its parts plus the separator, and each of its characters is the separator or comes from one of its parts |
| `FlowKey.HostAddress` | app/src/main/java/org/openziti/mobile/net/PacketRouterImpl.kt:38 | an address's host text holds only digits and dots |
| `FlowKey.SplitAtSeparator` | app/src/main/java/org/openziti/mobile/net/PacketRouterImpl.kt:63-64 | a separator that occurs in neither left part splits the joined string in one way only |
| `FlowKey.HostAddressInjective` | app/src/main/java/org/openziti/mobile/net/PacketRouterImpl.kt:38 | distinct IPv4 addresses have distinct host texts, so the DNS-address test matches one address only |
| `FlowKey.ConnKeyInjective` | app/src/main/java/org/openziti/mobile/net/PacketRouterImpl.kt:63-64 | the table key determines source address, source port, destination address and destination port |
| `PacketRouting.Dispatch` | app/src/main/java/org/openziti/mobile/net/PacketRouterImpl.kt:33-54 | packets are sorted in order: non-IPv4 first, then the DNS address, then TCP, then UDP, and everything else is dropped |
| `PacketRouting.Unclosed` | app/src/main/java/org/openziti/mobile/net/PacketRouterImpl.kt:99-104 | keeps exactly the entries whose connection state is not `Closed`, each under its own key |
| `PacketRouting.Connection.constructor` | app/src/main/java/org/openziti/mobile/net/PacketRouterImpl.kt:76 | a new connection starts from the SYN it was opened with and has not closed its outbound side |
| `PacketRouting.Connection.Process` | app/src/main/java/org/openziti/mobile/net/PacketRouterImpl.kt:80 | processing a packet records it and advances the connection's status by the state machine |
| `PacketRouting.Connection.CloseOutbound` | app/src/main/java/org/openziti/mobile/net/PacketRouterImpl.kt:92 | closing the outbound side marks it closed and advances the status by the state machine |
| `PacketRouting.Nameserver.Process` | app/src/main/java/org/openziti/mobile/net/PacketRouterImpl.kt:39 | the nameserver records the query and returns its answer for it, or none |
| `PacketRouting.Router.constructor` | app/src/main/java/org/openziti/mobile/net/PacketRouterImpl.kt:20-27 | a new router has an empty connection table |
| `PacketRouting.Router.Target` | app/src/main/java/org/openziti/mobile/net/PacketRouterImpl.kt:68-80 | at most one connection, from the table, is forwarded a packet: the one whose flow a non-SYN TCP segment names |
| `PacketRouting.Router.Route` | app/src/main/java/org/openziti/mobile/net/PacketRouterImpl.kt:29-55 | a non-IPv4, UDP or other packet changes neither the table nor the inbound output; a UDP packet throws a null-pointer exception iff it has no payload, and every other non-TCP packet is routed without error; a packet to the DNS address goes only to the nameserver, `inbound` gets the reply iff there is one, and the table is unchanged; a TCP packet has the effect of `routeTCP`; only the connection the packet names can change |
| `PacketRouting.Router.ProcessUdp` | app/src/main/java/org/openziti/mobile/net/PacketRouterImpl.kt:57-59 | a UDP packet is dropped; logging it throws a null-pointer exception exactly when the packet has no payload |
| `PacketRouting.Router.RouteTcp` | app/src/main/java/org/openziti/mobile/net/PacketRouterImpl.kt:61-88 | a packet without a payload throws a null-pointer exception and one whose payload is not a TCP segment throws a class-cast error, both leaving the table unchanged; a SYN for a new key inserts one fresh connection under "src:sport-dst:dport" and nothing else changes; a SYN for an existing key throws `IllegalStateException` and the table is unchanged; a non-SYN packet for an existing key goes to that connection, and the entry is removed iff the connection reports closed afterwards; a non-SYN packet for a missing key is dropped |
| `PacketRouting.Router.Stop` | app/src/main/java/org/openziti/mobile/net/PacketRouterImpl.kt:90-94 | every connection in the table closes its outbound side exactly once, and no entry is removed |
| `PacketRouting.Router.Sweep` | app/src/main/java/org/openziti/mobile/net/PacketRouterImpl.kt:96-105 | the periodic sweep removes exactly the entries whose connection state is `Closed` and leaves every other entry in place |

## Left out

- JNI plumbing in keychain.cpp is not modelled: `GetEnv`, the `GetMethodID` lookups, `NewStringUTF`, `DeleteLocalRef`, the describe/clear inside `checkException`, and pinning and releasing byte arrays. It has no logic beyond calling the provider. The local references that `android_gen_key` leaks on its exception path go with it.
- The Java key store is a collaborator whose code is not part of this model. Key generation is the parameter `generated`, public-key encoding is the stored `publicKey`, and the signature algorithm is the uninterpreted `signer`.
- Keychain.Provider.GenKey: a call that raises, or that returns null without raising, is taken to store nothing, and `DeleteKey` one that raises to remove nothing. Java gives no such atomicity guarantee. The promises of `AndroidKeychain.GenKey` and `AndroidKeychain.RemKey` that a failed call leaves the store unchanged rest on this.
- Provider replies are modelled as well formed. A key type is already a `KeyType` rather than an `int` the adapter casts unchecked. `pubKey` never returns null without raising; the source would pass a null array to `GetArrayLength`.
- JNI global reference values are drawn from a counter, so a released value is never handed out again. The JVM may reuse them.
- `Java_org_openziti_tunnel_Keychain_testNativeKey` is left out: it is a test hook that drives the TLS engine, and the engine is not part of this model.
- Keychain.AndroidKeychain.KeySign: takes as a precondition that `sig` can hold the signature the provider returns. The source never compares that length with `*siglen` before its `memcpy`, so no capacity bound is proved for signing.
- Keychain.AndroidKeychain.FreeKey: requires a live handle when the handle is not null. The source has no guard against freeing twice.
- Keychain.AndroidKeychain.KeyTypeOf: requires a live handle and a registered store when the handle is not null. The source passes a freed or unknown handle to JNI unchecked, and it calls through the store and the JavaVM pointer without checking them. No result is promised for a freed or unknown handle. `KeyPublic` and `KeySign` carry the same requirement.
- Timer scheduling and the thread safety of `ConcurrentHashMap` are left out. Concurrency is out of scope, so the sweep body is a plain sequential method. It visits every key present when it starts.
- Packet parsing by pcap4j is left out. A packet is the parsed record `Packet`.
- The internals of `ZitiTunnelConnection`, `ZitiNameserver` and `DNS` are not modelled. A connection's state machine is the abstract `TcpMachine`. The nameserver's answer is an abstract function of the query alone, so state inside the resolver is not modelled.
- The buffers a connection itself passes to `inbound` are not recorded. Only the nameserver replies that `route` forwards are recorded.
- Logging is left out. Only the one effect that logging has on control flow is kept: `processUDP` throws when the packet has no payload.
- app/src/main/java/org/openziti/mobile/debug/DebugInfoFragment.kt is left out: it is UI lifecycle code with no logic to model.
- settings.gradle.kts is left out: it is build configuration only.
