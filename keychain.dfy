/**
 * The Android keychain adapter: the seven keychain operations the TLS engine
 * calls (gen, load, remove, key type, export public key, sign, free), each
 * forwarded to a Java key store object over JNI.
 *
 * The Java side is modelled by `Provider`: a map from key name to key entry and
 * an uninterpreted signing function. Whether the JVM reports a pending
 * exception after a call (what `checkException` returns) comes from outside the
 * adapter, so each operation that calls the provider takes it as the parameter
 * `raises`. A key handle is a JNI global reference to a key entry; the adapter's
 * live global references are the map `globals`.
 */
module Keychain {
  import opened Wrappers
  import opened Octets

  /** `keychain_key_type`. */
  datatype KeyType = KeyInvalid | KeyEC | KeyRSA

  /** A Java `KeyStore.PrivateKeyEntry`: its algorithm family and its encoded public key. */
  datatype KeyEntry = KeyEntry(alg: KeyType, publicKey: seq<Octet>)

  /** `keychain_key_t`: a JNI global reference, or the null pointer. */
  datatype Handle = Null | Ref(id: nat)

  /** The algorithm name `android_gen_key` hands to the provider, or None for a type it refuses. */
  function AlgorithmName(t: KeyType): (r: Option<string>)
    ensures r.None? <==> t == KeyInvalid
    ensures r.Some? ==> ProviderAlgorithm(r.value) == t
  {
    match t
    case KeyRSA => Some("RSA")
    case KeyEC => Some("EC")
    case KeyInvalid => None
  }

  /** The key family the provider creates for an algorithm name. */
  function ProviderAlgorithm(name: string): KeyType {
    if name == "RSA" then KeyRSA else if name == "EC" then KeyEC else KeyInvalid
  }

  /** The Java keychain object registered with the adapter. */
  class Provider {
    var entries: map<string, KeyEntry>
    /** The provider's signature over some data with a key entry, or None when it returns null. */
    const signer: (KeyEntry, seq<Octet>) -> Option<seq<Octet>>

    constructor (entries: map<string, KeyEntry>, signer: (KeyEntry, seq<Octet>) -> Option<seq<Octet>>)
      ensures this.entries == entries && this.signer == signer
    {
      this.entries := entries;
      this.signer := signer;
    }

    /**
     * `genKey(name, alg)`. `generated` is the public key the platform produced,
     * or None when the provider returns null; when the call raises, nothing is stored.
     */
    method GenKey(name: string, alg: string, raises: bool, generated: Option<seq<Octet>>)
      returns (key: Option<KeyEntry>)
      modifies this
      ensures raises || generated.None? ==> key.None? && entries == old(entries)
      ensures !raises && generated.Some? ==>
        key == Some(KeyEntry(ProviderAlgorithm(alg), generated.value)) &&
        entries == old(entries)[name := key.value]
    {
      if raises || generated.None? {
        key := None;
      } else {
        key := Some(KeyEntry(ProviderAlgorithm(alg), generated.value));
        entries := entries[name := key.value];
      }
    }

    /** `loadKey(name)`: the stored entry, or null for an unknown name. */
    function LoadKey(name: string): (key: Option<KeyEntry>)
      reads this
    {
      if name in entries then Some(entries[name]) else None
    }

    /** `deleteKey(name)`: removing an unknown name is not an error. */
    method DeleteKey(name: string, raises: bool)
      modifies this
      ensures entries == if raises then old(entries) else old(entries) - {name}
    {
      if !raises {
        entries := entries - {name};
      }
    }
  }

  /** An out-parameter of type `keychain_key_t *`. */
  class HandleCell {
    var value: Handle
    constructor (h: Handle)
      ensures value == h
    {
      value := h;
    }
  }

  /** An in/out length parameter of type `size_t *`. */
  class SizeCell {
    var value: nat
    constructor (n: nat)
      ensures value == n
    {
      value := n;
    }
  }

  /** `memcpy(dst, src, |src|)`: the first |src| bytes become src, the rest stay. */
  method CopyInto(dst: array<Octet>, src: seq<Octet>)
    requires |src| <= dst.Length
    modifies dst
    ensures dst[..|src|] == src
    ensures dst[|src|..] == old(dst[|src|..])
  {
    forall i | 0 <= i < |src| {
      dst[i] := src[i];
    }
  }

  /**
   * `android_keychain` together with the method table: the registered store,
   * whether the JavaVM has been recorded, whether the adapter has been handed to
   * the TLS engine, and the global references it has created.
   */
  class AndroidKeychain {
    var store: Provider?
    var vmRecorded: bool
    var installed: bool
    var globals: map<nat, KeyEntry>
    var nextRef: nat

    ghost predicate Valid()
      reads this
    {
      && (store != null ==> vmRecorded && installed)
      && (globals != map[] ==> vmRecorded)
      && forall id :: id in globals ==> id < nextRef
    }

    /** A handle the adapter created and has not released. */
    predicate Live(k: Handle)
      reads this
    {
      k.Ref? && k.id in globals
    }

    /** The state of the static `android_keychain` before any registration. */
    constructor ()
      ensures Valid()
      ensures store == null && !vmRecorded && !installed && globals == map[]
    {
      store := null;
      vmRecorded := false;
      installed := false;
      globals := map[];
      nextRef := 0;
    }

    /** `registerKeychain`: the last registration wins; existing handles stay live. */
    method Register(chain: Provider?)
      requires Valid()
      modifies this
      ensures Valid()
      ensures store == chain && installed && vmRecorded
      ensures globals == old(globals) && nextRef == old(nextRef)
    {
      store := chain;
      installed := true;
      vmRecorded := true;
    }

    /** `NewGlobalRef`: a handle distinct from every live one. */
    method NewGlobalRef(key: KeyEntry) returns (k: Handle)
      requires Valid() && vmRecorded
      modifies this
      ensures Valid()
      ensures k == Ref(old(nextRef)) && k.id !in old(globals)
      ensures globals == old(globals)[k.id := key]
      ensures store == old(store) && vmRecorded && installed == old(installed)
    {
      k := Ref(nextRef);
      globals := globals[nextRef := key];
      nextRef := nextRef + 1;
    }

    /** `android_gen_key`. */
    method GenKey(pk: HandleCell, t: KeyType, name: string, raises: bool, generated: Option<seq<Octet>>)
      returns (rc: int)
      requires Valid()
      modifies this, store, pk
      ensures Valid()
      ensures store == old(store) && installed == old(installed) && vmRecorded == old(vmRecorded)
      ensures rc == 0 <==> old(store) != null && t != KeyInvalid && !raises && generated.Some?
      ensures rc != 0 ==> rc == -1 && pk.value == old(pk.value) && globals == old(globals)
      ensures rc != 0 && store != null ==> store.entries == old(store.entries)
      ensures rc == 0 ==>
        && pk.value.Ref? && pk.value.id !in old(globals)
        && globals == old(globals)[pk.value.id := KeyEntry(t, generated.value)]
        && store.entries == old(store.entries)[name := KeyEntry(t, generated.value)]
    {
      if store == null {
        return -1;
      }
      var alg := AlgorithmName(t);
      if alg.None? {
        return -1;
      }
      var key := store.GenKey(name, alg.value, raises, generated);
      if raises {
        return -1;
      }
      if key.Some? {
        var h := NewGlobalRef(key.value);
        pk.value := h;
        return 0;
      }
      return -1;
    }

    /** `android_load_key`. */
    method LoadKey(k: HandleCell, name: string, raises: bool) returns (rc: int)
      requires Valid()
      modifies this, k
      ensures Valid()
      ensures store == old(store) && installed == old(installed) && vmRecorded == old(vmRecorded)
      ensures rc == 0 <==> store != null && !raises && name in store.entries
      ensures rc != 0 ==> rc == -1 && k.value == old(k.value) && globals == old(globals)
      ensures rc == 0 ==>
        && k.value.Ref? && k.value.id !in old(globals)
        && globals == old(globals)[k.value.id := store.entries[name]]
    {
      if store == null {
        return -1;
      }
      var key := store.LoadKey(name);
      if raises || key.None? {
        return -1;
      }
      var h := NewGlobalRef(key.value);
      k.value := h;
      return 0;
    }

    /** `android_rem_key`. */
    method RemKey(name: string, raises: bool) returns (rc: int)
      requires Valid()
      modifies store
      ensures rc == 0 <==> store != null && !raises
      ensures rc != 0 ==> rc == -1
      ensures store != null ==> store.entries == if rc == 0 then old(store.entries) - {name} else old(store.entries)
    {
      if store == null {
        return -1;
      }
      store.DeleteKey(name, raises);
      if raises {
        return -1;
      }
      return 0;
    }

    /** `android_key_type`: never fails; a null handle or a provider exception gives `KeyInvalid`. */
    method KeyTypeOf(k: Handle, raises: bool) returns (t: KeyType)
      requires k.Ref? ==> Live(k) && store != null
      ensures k.Null? || raises ==> t == KeyInvalid
      ensures k.Ref? && !raises ==> t == globals[k.id].alg
    {
      if k.Null? {
        return KeyInvalid;
      }
      var alg := globals[k.id].alg;
      if raises {
        return KeyInvalid;
      }
      return alg;
    }

    /**
     * `android_key_public`: the caller passes the capacity of `buf` in `len`;
     * on success the key is at the start of `buf` and `len` holds its length.
     */
    method KeyPublic(k: Handle, buf: array<Octet>, len: SizeCell, raises: bool) returns (rc: int)
      requires k.Ref? ==> Live(k) && store != null
      requires len.value <= buf.Length
      modifies buf, len
      ensures rc == 0 <==> k.Ref? && !raises && |globals[k.id].publicKey| <= old(len.value)
      ensures rc != 0 ==> rc == -1 && len.value == old(len.value) && buf[..] == old(buf[..])
      ensures rc == 0 ==>
        && len.value == |globals[k.id].publicKey| <= old(len.value)
        && buf[..len.value] == globals[k.id].publicKey
        && buf[len.value..] == old(buf[..])[len.value..]
    {
      if k.Null? {
        return -1;
      }
      var pub := globals[k.id].publicKey;
      if raises {
        return -1;
      }
      if |pub| > len.value {
        return -1;
      }
      CopyInto(buf, pub);
      len.value := |pub|;
      return 0;
    }

    /** The signature the registered provider produces over `data` with the key behind `k`. */
    function Signature(k: Handle, data: seq<Octet>): Option<seq<Octet>>
      requires Live(k) && store != null
      reads this, store
    {
      store.signer(globals[k.id], data)
    }

    /**
     * `android_key_sign`. The source never compares the signature's length with
     * `*siglen`, so the capacity of `sig` is the caller's obligation here; `p` is unused.
     */
    method KeySign(k: Handle, data: seq<Octet>, sig: array<Octet>, siglen: SizeCell, p: int, raises: bool)
      returns (rc: int)
      requires k.Ref? ==> Live(k) && store != null
      requires k.Ref? && !raises && Signature(k, data).Some? ==> |Signature(k, data).value| <= sig.Length
      modifies sig, siglen
      ensures rc == 0 <==> k.Ref? && !raises && Signature(k, data).Some?
      ensures rc != 0 ==> rc == -1 && siglen.value == old(siglen.value) && sig[..] == old(sig[..])
      ensures rc == 0 ==>
        && siglen.value == |Signature(k, data).value|
        && sig[..siglen.value] == Signature(k, data).value
        && sig[siglen.value..] == old(sig[..])[siglen.value..]
    {
      if k.Null? {
        return -1;
      }
      var s := store.signer(globals[k.id], data);
      if raises || s.None? {
        return -1;
      }
      siglen.value := |s.value|;
      CopyInto(sig, s.value);
      return 0;
    }

    /** `android_free_key`: null is ignored; there is no guard against freeing twice. */
    method FreeKey(k: Handle)
      requires Valid()
      requires k.Ref? ==> Live(k)
      modifies this
      ensures Valid()
      ensures store == old(store) && installed == old(installed) && nextRef == old(nextRef)
      ensures globals == if k.Null? then old(globals) else old(globals) - {k.id}
    {
      if k.Null? {
        return;
      }
      globals := globals - {k.id};
    }
  }

  /**
   * A caller of the contract: a key generated under a name and loaded again by
   * that name reports the generated type, unless the provider raises.
   */
  method GenerateThenLoad(kc: AndroidKeychain, t: KeyType, name: string, generated: seq<Octet>, loadRaises: bool, typeRaises: bool)
    returns (rc: int, reported: KeyType)
    requires kc.Valid() && kc.store != null && t != KeyInvalid
    modifies kc, kc.store
    ensures kc.Valid()
    ensures rc == 0 <==> !loadRaises
    ensures rc == 0 && !typeRaises ==> reported == t
    ensures rc != 0 || typeRaises ==> reported == KeyInvalid
  {
    var pk := new HandleCell(Null);
    var genRc := kc.GenKey(pk, t, name, false, Some(generated));
    var k := new HandleCell(Null);
    rc := kc.LoadKey(k, name, loadRaises);
    reported := kc.KeyTypeOf(k.value, typeRaises);
  }

  /** A caller of the contract: once a name is removed, loading it fails. */
  method RemoveThenLoad(kc: AndroidKeychain, name: string, loadRaises: bool) returns (removed: int, loaded: int)
    requires kc.Valid() && kc.store != null
    modifies kc, kc.store
    ensures removed == 0 && loaded == -1
  {
    removed := kc.RemKey(name, false);
    var k := new HandleCell(Null);
    loaded := kc.LoadKey(k, name, loadRaises);
  }
}
