/**
 * txscript/signop_cache.go: a per-input cache of signature hashes by hash
 * type, and an append-only log of the signature-checking operations a
 * script evaluation performed.
 */
module SignOps {
  import opened Types

  /** The signature-checking opcodes; each VERIFY variant is its base opcode plus one. */
  const OP_CHECKSIG: int := 0xac
  const OP_CHECKSIGVERIFY: int := 0xad
  const OP_CHECKMULTISIG: int := 0xae
  const OP_CHECKMULTISIGVERIFY: int := 0xaf

  /** SigHashCache: the signature hash computed for each hash type. */
  class SigHashCache {
    var cache: map<HashType, Hash>

    /** NewSigHashCache: an empty cache. */
    constructor ()
      ensures cache == map[]
      ensures forall h :: !Contains(h) && Find(h) == None
    {
      cache := map[];
    }

    /** Add: associate `hash` with `hashType`, replacing any earlier hash for it. */
    method Add(hashType: HashType, hash: Hash)
      modifies this
      ensures cache == old(cache)[hashType := hash]
      ensures Contains(hashType) && Find(hashType) == Some(hash)
      ensures forall h :: h != hashType ==> Contains(h) == old(Contains(h)) && Find(h) == old(Find(h))
    {
      cache := cache[hashType := hash];
    }

    /** Contains: whether a hash is cached for `hashType`. */
    predicate Contains(hashType: HashType)
      reads this
    {
      hashType in cache
    }

    /** Find: the cached hash for `hashType`, or nothing when there is none. */
    function Find(hashType: HashType): (r: Option<Hash>)
      reads this
      ensures r.None? <==> !Contains(hashType)
      ensures r.Some? ==> hashType in cache && r.value == cache[hashType]
    {
      if hashType in cache then Some(cache[hashType]) else None
    }
  }

  /**
   * One recorded operation: its opcode, the number of signatures it needs,
   * its public keys, and the hash cache it used (shared, not copied).
   */
  datatype SignOp = SignOp(op: int, requiredSigs: int, pubkeys: seq<PubKey>, sigHashes: SigHashCache)
  {
    /** OP_CHECKSIG or OP_CHECKSIGVERIFY. */
    predicate IsCheckSig()
    {
      op == OP_CHECKSIG || op == OP_CHECKSIGVERIFY
    }

    /** OP_CHECKMULTISIG or OP_CHECKMULTISIGVERIFY. */
    predicate IsCheckMultiSig()
    {
      op == OP_CHECKMULTISIG || op == OP_CHECKMULTISIGVERIFY
    }

    /** GetKeys: the public keys of the operation. */
    function GetKeys(): seq<PubKey>
    {
      pubkeys
    }

    /**
     * GetSigHash: the hash cached for `hashType` in the operation's cache, as
     * it is now; nothing when none is cached.
     */
    function GetSigHash(hashType: HashType): (r: Option<Hash>)
      reads sigHashes
      ensures r.Some? <==> hashType in sigHashes.cache
      ensures r.Some? ==> r.value == sigHashes.cache[hashType]
    {
      if sigHashes.Contains(hashType) then sigHashes.Find(hashType) else None
    }
  }

  /**
   * newSignOp: the record of a `op` operation, bumped to its VERIFY variant
   * when `verify` is set.
   */
  method NewSignOp(op: int, verify: bool, requiredSigs: int, cache: SigHashCache, keys: seq<PubKey>) returns (r: SignOp)
    ensures r.op == (if verify then op + 1 else op)
    ensures r.requiredSigs == requiredSigs && r.pubkeys == keys && r.sigHashes == cache
    ensures op == OP_CHECKSIG ==> r.IsCheckSig() && !r.IsCheckMultiSig()
    ensures op == OP_CHECKMULTISIG ==> r.IsCheckMultiSig() && !r.IsCheckSig()
  {
    var code := op;
    if verify {
      code := code + 1;
    }
    r := SignOp(code, requiredSigs, keys, cache);
  }

  /** What GetOp, as the source writes it, would do for an index. */
  datatype Lookup = Found(found: SignOp) | Refused(error: Error) | IndexPanic

  /** SignOpCache: the operations of one script evaluation, in the order they ran. */
  class SignOpCache {
    var ops: seq<SignOp>

    /** NewSignOpCache: no operations yet. */
    constructor ()
      ensures ops == []
      ensures forall idx :: GetOp(idx) == Err(NoOperationAt(idx))
    {
      ops := [];
    }

    /** CheckSig: record an OP_CHECKSIG{,VERIFY}, which needs one signature. */
    method CheckSig(isVerify: bool, cache: SigHashCache, keys: seq<PubKey>)
      modifies this
      ensures |ops| == |old(ops)| + 1 && ops[..|old(ops)|] == old(ops)
      ensures var added := ops[|ops| - 1];
        && added.IsCheckSig() && (added.op == OP_CHECKSIGVERIFY <==> isVerify)
        && added.requiredSigs == 1 && added.pubkeys == keys && added.sigHashes == cache
        && added.GetKeys() == keys && (forall h :: added.GetSigHash(h) == cache.Find(h))
      ensures forall idx :: 0 <= idx < |old(ops)| ==> GetOp(idx) == old(GetOp(idx))
      ensures GetOp(|old(ops)|) == Ok(ops[|ops| - 1])
    {
      var op := NewSignOp(OP_CHECKSIG, isVerify, 1, cache, keys);
      ops := ops + [op];
    }

    /** CheckMultiSig: record an OP_CHECKMULTISIG{,VERIFY} needing `requiredSigs` signatures. */
    method CheckMultiSig(isVerify: bool, cache: SigHashCache, requiredSigs: int, keys: seq<PubKey>)
      modifies this
      ensures |ops| == |old(ops)| + 1 && ops[..|old(ops)|] == old(ops)
      ensures var added := ops[|ops| - 1];
        && added.IsCheckMultiSig() && (added.op == OP_CHECKMULTISIGVERIFY <==> isVerify)
        && added.requiredSigs == requiredSigs && added.pubkeys == keys && added.sigHashes == cache
        && added.GetKeys() == keys && (forall h :: added.GetSigHash(h) == cache.Find(h))
      ensures forall idx :: 0 <= idx < |old(ops)| ==> GetOp(idx) == old(GetOp(idx))
      ensures GetOp(|old(ops)|) == Ok(ops[|ops| - 1])
    {
      var op := NewSignOp(OP_CHECKMULTISIG, isVerify, requiredSigs, cache, keys);
      ops := ops + [op];
    }

    /** GetOp, as intended: the operation at `idx`, or "No operation at idx" outside the log. */
    function GetOp(idx: int): (r: Result<SignOp>)
      reads this
      ensures r.Ok? <==> 0 <= idx < |ops|
      ensures r.Ok? ==> r.value == ops[idx]
      ensures r.Err? ==> r.error == NoOperationAt(idx)
    {
      if idx < 0 || idx >= |ops| then Err(NoOperationAt(idx)) else Ok(ops[idx])
    }

    /**
     * GetOp as the source writes it: the guard refuses only `idx > len`,
     * so the index one past the end gets through and the slice access
     * panics.
     */
    function GetOpAsWritten(idx: int): (r: Lookup)
      reads this
      ensures r == IndexPanic <==> idx == |ops|
      ensures idx != |ops| ==> (r.Found? <==> GetOp(idx).Ok?)
      ensures r.Found? ==> r.found == ops[idx]
    {
      if idx < 0 || idx > |ops| then Refused(NoOperationAt(idx))
      else if idx < |ops| then Found(ops[idx])
      else IndexPanic
    }
  }

  /** The counterexample to the guard: on a log of one operation, index 1 passes it and panics. */
  lemma GetOpOffByOne(c: SignOpCache)
    requires |c.ops| == 1
    ensures c.GetOpAsWritten(1) == IndexPanic
    ensures c.GetOp(1) == Err(NoOperationAt(1))
  {
  }
}
