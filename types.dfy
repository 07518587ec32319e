/**
 * Shared vocabulary of the transaction-input signer: bytes, hash types,
 * script classes, addresses, the key and script stores, errors, and the
 * external collaborators the signer calls (script classification, digest
 * computation, ECDSA, address encoding, script parsing and building).
 *
 * The collaborators are given as function values bundled in `Env`; the
 * transaction, the input index and the BIP 143 midstates are fixed inside
 * the digest functions, since the signer only ever passes them through.
 */
module Types {

  type byte = x: int | 0 <= x < 256
  type Bytes = seq<byte>

  /** SigHashType is a 32-bit unsigned integer. */
  type HashType = x: int | 0 <= x < 0x1_0000_0000

  /** A 32-byte signature-hash digest (chainhash.Hash). */
  type Hash = h: Bytes | |h| == 32 witness seq(32, _ => 0)

  /** OP_0 and OP_FALSE are the same opcode. */
  const OP_0: byte := 0
  const OP_FALSE: byte := 0

  datatype Option<T> = None | Some(value: T)

  datatype Error =
    | ScriptParseError          // the subscript does not parse
    | SigHashError              // the digest collaborator failed
    | SigningError              // "cannot sign tx input"
    | KeyNotFound(addr: Address)
    | ScriptNotFound(addr: Address)
    | ClassifyError             // an error reported by the script classifier
    | NullDataUnsignable        // "can't sign NULLDATA transactions"
    | UnknownUnsignable         // "can't sign unknown transactions"
    | NestedP2SH                // "cannot nest P2SH scripts"
    | P2SHInsideP2WSH           // "cannot nest P2SH inside P2WSH"
    | P2WSHInsideP2WSH          // "cannot nest P2WSH inside P2WSH"
    | PushedDataError           // the previous script does not parse into pushes
    | ScriptBuildError          // the script builder refused the pushes
    | NoOperationAt(idx: int)   // "No operation at %d"

  datatype Result<T> = Ok(value: T) | Err(error: Error)

  datatype ScriptClass =
    | NonStandardTy
    | PubKeyTy
    | PubKeyHashTy
    | WitnessV0PubKeyHashTy
    | ScriptHashTy
    | WitnessV0ScriptHashTy
    | MultiSigTy
    | NullDataTy

  /** Opaque handles: curve arithmetic is not modelled. */
  datatype PrivateKey = PrivateKey(id: nat)
  datatype PubKey = PubKey(id: nat)
  /** A parsed DER signature. */
  datatype Signature = Signature(id: nat)

  /**
   * A destination. Only pay-to-pubkey addresses expose their key, which the
   * multisig merge needs; every other kind is known by its identity alone.
   */
  datatype Address = PubKeyAddress(pubKey: PubKey) | OtherAddress(id: nat)

  /** What the classifier extracts from a locking script. */
  datatype Classification = Classification(scriptClass: ScriptClass, addresses: seq<Address>, nRequired: int)

  /** KeyDB.GetKey: the private key and whether its public key is serialised compressed. */
  datatype KeyEntry = KeyEntry(key: PrivateKey, compressed: bool)
  type KeyDB = map<Address, KeyEntry>
  /** ScriptDB.GetScript: the redeem or witness script of a script-hash address. */
  type ScriptDB = map<Address, Bytes>

  datatype Env = Env(
    classify: Bytes -> Result<Classification>,           // ExtractPkScriptAddrs
    parses: Bytes -> bool,                                // parseScript succeeds
    sigHash: (Bytes, HashType) -> Hash,                   // calcSignatureHash, the legacy digest
    witnessSigHash: (Bytes, HashType, int) -> Option<Hash>, // calcWitnessSignatureHash (BIP 143), given the amount
    signDigest: (PrivateKey, Hash) -> Option<Bytes>,      // PrivateKey.Sign, then Serialize to DER
    parseDER: Bytes -> Option<Signature>,                 // ParseDERSignature
    verify: (Signature, Hash, PubKey) -> bool,            // Signature.Verify
    serializeCompressed: PrivateKey -> Bytes,             // public key, compressed form
    serializeUncompressed: PrivateKey -> Bytes,           // public key, uncompressed form
    encode: Address -> string,                            // EncodeAddress
    pushedData: Bytes -> Option<seq<Bytes>>,              // PushedData
    buildScript: seq<Bytes> -> Option<Bytes>)             // ScriptBuilder: AddData for each element, then Script()

  /**
   * What a signature commits to besides the hash type: the subscript, the
   * amount spent (used by the version 1 digest only) and the digest version.
   */
  datatype SigContext = SigContext(env: Env, script: Bytes, amt: int, version: int)

  predicate AllPubKey(addrs: seq<Address>)
  {
    forall i :: 0 <= i < |addrs| ==> addrs[i].PubKeyAddress?
  }

  /** The classes whose signing looks at the first extracted address. */
  predicate SingleAddressClass(c: ScriptClass)
  {
    c == PubKeyTy || c == PubKeyHashTy || c == WitnessV0PubKeyHashTy
    || c == ScriptHashTy || c == WitnessV0ScriptHashTy
  }

  /**
   * What the classifier guarantees: single-address templates yield at least
   * one address, and a multisig template yields pay-to-pubkey addresses.
   */
  predicate WellFormed(c: Classification)
  {
    && (SingleAddressClass(c.scriptClass) ==> |c.addresses| >= 1)
    && (c.scriptClass == MultiSigTy ==> AllPubKey(c.addresses))
  }

  predicate ClassifiesWell(env: Env, script: Bytes)
  {
    env.classify(script).Ok? ==> WellFormed(env.classify(script).value)
  }

  ghost predicate WellFormedEnv(env: Env)
  {
    forall s :: ClassifiesWell(env, s)
  }
}

/** Sequence helpers shared by the multisig producer and the merge. */
module Seqs {
  import opened Types

  /** The present values of `xs`, in order. */
  function Somes<T(==)>(xs: seq<Option<T>>): (r: seq<T>)
    ensures |r| <= |xs|
  {
    if xs == [] then []
    else Somes(xs[..|xs| - 1]) + (if xs[|xs| - 1].Some? then [xs[|xs| - 1].value] else [])
  }

  /** Every collected value is present in `xs`. */
  lemma {:induction false} SomesMembers<T>(xs: seq<Option<T>>)
    ensures forall y :: y in Somes(xs) ==> exists i :: 0 <= i < |xs| && xs[i] == Some(y)
  {
    if xs != [] {
      var init := xs[..|xs| - 1];
      SomesMembers(init);
      forall y | y in Somes(xs) ensures exists i :: 0 <= i < |xs| && xs[i] == Some(y) {
        if y in Somes(init) {
          var i :| 0 <= i < |init| && init[i] == Some(y);
          assert xs[i] == Some(y);
        } else {
          assert xs[|xs| - 1] == Some(y);
        }
      }
    }
  }

  /** Where in `xs` each collected value sits: strictly increasing positions. */
  function SomesPositions<T(==)>(xs: seq<Option<T>>): (p: seq<nat>)
    ensures |p| == |Somes(xs)|
    ensures forall k :: 0 <= k < |p| ==> p[k] < |xs| && xs[p[k]] == Some(Somes(xs)[k])
    ensures forall k1, k2 :: 0 <= k1 < k2 < |p| ==> p[k1] < p[k2]
  {
    if xs == [] then []
    else
      var init := xs[..|xs| - 1];
      assert forall i :: 0 <= i < |init| ==> xs[i] == init[i];
      SomesPositions(init) + (if xs[|xs| - 1].Some? then [|xs| - 1] else [])
  }

  /** The first `n` collected values sit, in order, at the first `n` positions. */
  lemma TakenAt<T>(xs: seq<Option<T>>, n: int)
    ensures var sigs := TakeFirst(Somes(xs), n);
      var pos := SomesPositions(xs)[..|sigs|];
      && |pos| == |sigs|
      && (forall k1, k2 :: 0 <= k1 < k2 < |pos| ==> pos[k1] < pos[k2])
      && (forall k :: 0 <= k < |pos| ==> pos[k] < |xs| && xs[pos[k]] == Some(sigs[k]))
  {
  }

  /** Every position holding a value is one of the collected positions. */
  lemma {:induction false} SomesPositionsComplete<T>(xs: seq<Option<T>>)
    ensures forall i :: 0 <= i < |xs| && xs[i].Some? ==> i in SomesPositions(xs)
  {
    if xs != [] {
      var init := xs[..|xs| - 1];
      SomesPositionsComplete(init);
      assert forall i :: 0 <= i < |init| ==> xs[i] == init[i];
    }
  }

  /**
   * Taking the first `n` loses no position before the last one taken: when
   * fewer than `n` are taken, every position holding a value is taken.
   */
  lemma TakenComplete<T>(xs: seq<Option<T>>, n: int)
    requires 1 <= n
    ensures var pos := SomesPositions(xs)[..|TakeFirst(Somes(xs), n)|];
      forall i :: 0 <= i < |xs| && xs[i].Some? && (|pos| < n || i <= pos[|pos| - 1]) ==> i in pos
  {
    var p := SomesPositions(xs);
    var t := |TakeFirst(Somes(xs), n)|;
    var pos := p[..t];
    SomesPositionsComplete(xs);
    forall i | 0 <= i < |xs| && xs[i].Some? && (|pos| < n || i <= pos[|pos| - 1])
      ensures i in pos
    {
      var q :| 0 <= q < |p| && p[q] == i;
      if |pos| < n {
        assert t == |p|;
      } else {
        assert p[q] <= p[t - 1];
      }
      assert q < t;
      assert pos[q] == i;
    }
  }

  lemma SomesStep<T>(xs: seq<Option<T>>, j: nat)
    requires j < |xs|
    ensures Somes(xs[..j + 1]) == Somes(xs[..j]) + (if xs[j].Some? then [xs[j].value] else [])
  {
    assert xs[..j + 1][..j] == xs[..j];
  }

  /** What is collected from a prefix is a prefix of what is collected from the whole. */
  lemma {:induction false} SomesPrefix<T>(xs: seq<Option<T>>, k: nat)
    requires k <= |xs|
    ensures Somes(xs[..k]) <= Somes(xs)
  {
    if k < |xs| {
      var init := xs[..|xs| - 1];
      assert init[..k] == xs[..k];
      SomesPrefix(init, k);
    } else {
      assert xs[..k] == xs;
    }
  }

  /** The first `n` elements when `n >= 1`; all of them when `n < 1` or there are fewer. */
  function TakeFirst<T>(xs: seq<T>, n: int): (r: seq<T>)
    ensures r <= xs
    ensures 1 <= n ==> |r| == if n <= |xs| then n else |xs|
    ensures n < 1 ==> r == xs
  {
    if 1 <= n && n <= |xs| then xs[..n] else xs
  }

  /**
   * A walk over `xs` that appends each present value to `seed` until `n`
   * (at least one) values have been appended, and then stops.
   */
  function Gather<T>(seed: seq<T>, xs: seq<Option<T>>, n: int): (r: seq<T>)
    ensures seed <= r
  {
    if xs == [] then seed
    else
      var s := Gather(seed, xs[..|xs| - 1], n);
      if Filled(seed, s, n) then s
      else s + (if xs[|xs| - 1].Some? then [xs[|xs| - 1].value] else [])
  }

  /** `n` (at least one) values follow `seed` in `s`. */
  predicate Filled<T>(seed: seq<T>, s: seq<T>, n: int)
  {
    1 <= n && |s| - |seed| == n
  }

  /** Once filled, the walk ignores the rest of the input. */
  lemma {:induction false} GatherStops<T>(seed: seq<T>, xs: seq<Option<T>>, n: int, k: nat)
    requires k <= |xs|
    requires Filled(seed, Gather(seed, xs[..k], n), n)
    ensures Gather(seed, xs, n) == Gather(seed, xs[..k], n)
  {
    if k < |xs| {
      var init := xs[..|xs| - 1];
      assert init[..k] == xs[..k];
      GatherStops(seed, init, n, k);
    } else {
      assert xs[..k] == xs;
    }
  }

  /**
   * The walk appends the first `n` present values (all of them when `n < 1`
   * or there are fewer).
   */
  lemma {:induction false} GatherTakesFirst<T>(seed: seq<T>, xs: seq<Option<T>>, n: int)
    ensures Gather(seed, xs, n) == seed + TakeFirst(Somes(xs), n)
  {
    if xs != [] {
      var init := xs[..|xs| - 1];
      GatherTakesFirst(seed, init, n);
      var before := Somes(init);
      var after := Somes(xs);
      TakeFirstStep(before, after, n);
      var s := Gather(seed, init, n);
      if !Filled(seed, s, n) && xs[|xs| - 1].Some? {
        assert after == before + [xs[|xs| - 1].value];
        assert s + [xs[|xs| - 1].value] == seed + after;
      }
    }
  }

  /** Taking the first `n` of a list that grew by at most one element. */
  lemma TakeFirstStep<T>(before: seq<T>, after: seq<T>, n: int)
    requires before <= after && |after| <= |before| + 1
    ensures 1 <= n <= |before| ==> TakeFirst(after, n) == TakeFirst(before, n)
    ensures !(1 <= n <= |before|) ==> TakeFirst(before, n) == before && TakeFirst(after, n) == after
  {
  }

  /** `k` copies of the OP_0 placeholder (none when `k <= 0`). */
  function Pad(k: int): (r: seq<Bytes>)
    ensures |r| == if k > 0 then k else 0
    ensures forall i :: 0 <= i < |r| ==> r[i] == [OP_0]
  {
    if k <= 0 then [] else Pad(k - 1) + [[OP_0]]
  }
}
