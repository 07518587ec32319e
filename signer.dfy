/**
 * Signature producers and the per-class dispatch of txscript/sign.go:
 * a signature is the DER serialisation followed by one hash-type byte; the
 * single-key templates produce `[sig]` or `[sig, pubkey]`; the multisig
 * template produces a best-effort partial stack.
 */
module Signer {
  import opened Types
  import opened Seqs

  /** CalcSignatureHash: the legacy digest of a subscript that parses. */
  function LegacyDigest(env: Env, script: Bytes, hashType: HashType): (r: Result<Hash>)
    ensures r.Ok? <==> env.parses(script)
    ensures r.Ok? ==> r.value == env.sigHash(script, hashType)
  {
    if !env.parses(script) then Err(ScriptParseError) else Ok(env.sigHash(script, hashType))
  }

  /** parseScript followed by calcWitnessSignatureHash: the BIP 143 digest. */
  function WitnessDigest(env: Env, script: Bytes, amt: int, hashType: HashType): (r: Result<Hash>)
    ensures r.Ok? <==> env.parses(script) && env.witnessSigHash(script, hashType, amt).Some?
    ensures r.Ok? ==> r.value == env.witnessSigHash(script, hashType, amt).value
    ensures !env.parses(script) ==> r == Err(ScriptParseError)
  {
    if !env.parses(script) then Err(ScriptParseError)
    else match env.witnessSigHash(script, hashType, amt)
      case None => Err(SigHashError)
      case Some(d) => Ok(d)
  }

  /**
   * Sign a digest and append the hash type, truncated to its low byte as
   * `byte(hashType)` does. The result splits back into the DER bytes the
   * key produced and the hash-type byte.
   */
  function SignDigest(env: Env, digest: Result<Hash>, hashType: HashType, key: PrivateKey): (r: Result<Bytes>)
    ensures digest.Err? ==> r == Err(digest.error)
    ensures digest.Ok? ==> (r.Ok? <==> env.signDigest(key, digest.value).Some?)
    ensures digest.Ok? && r.Err? ==> r.error == SigningError
    ensures r.Ok? ==> |r.value| >= 1 && r.value[|r.value| - 1] == hashType % 256
    ensures r.Ok? ==> Some(r.value[..|r.value| - 1]) == env.signDigest(key, digest.value)
  {
    match digest
    case Err(e) => Err(e)
    case Ok(d) =>
      match env.signDigest(key, d)
      case None => Err(SigningError)
      case Some(der) => Ok(der + [hashType % 256])
  }

  /** RawTxInSignature: a signature over the legacy digest. */
  function RawTxInSignature(env: Env, script: Bytes, hashType: HashType, key: PrivateKey): (r: Result<Bytes>)
    ensures !env.parses(script) ==> r == Err(ScriptParseError)
    ensures env.parses(script) ==> (r.Ok? <==> env.signDigest(key, env.sigHash(script, hashType)).Some?)
    ensures env.parses(script) && r.Err? ==> r.error == SigningError
    ensures r.Ok? ==> var d := env.sigHash(script, hashType);
      env.signDigest(key, d).Some? && r.value == env.signDigest(key, d).value + [hashType % 256]
  {
    SignDigest(env, LegacyDigest(env, script, hashType), hashType, key)
  }

  /** RawTxInWitnessSignature: a signature over the BIP 143 digest. */
  function RawTxInWitnessSignature(env: Env, script: Bytes, amt: int, hashType: HashType, key: PrivateKey): (r: Result<Bytes>)
    ensures !env.parses(script) ==> r == Err(ScriptParseError)
    ensures env.parses(script) && env.witnessSigHash(script, hashType, amt).None? ==> r == Err(SigHashError)
    ensures r.Ok? <==> env.parses(script) && env.witnessSigHash(script, hashType, amt).Some?
                       && env.signDigest(key, env.witnessSigHash(script, hashType, amt).value).Some?
    ensures env.parses(script) && env.witnessSigHash(script, hashType, amt).Some? && r.Err? ==> r.error == SigningError
    ensures r.Ok? ==> var d := env.witnessSigHash(script, hashType, amt).value;
      env.signDigest(key, d).Some? && r.value == env.signDigest(key, d).value + [hashType % 256]
  {
    SignDigest(env, WitnessDigest(env, script, amt, hashType), hashType, key)
  }

  /** The digest a signature made in `ctx` commits to. */
  function Digest(ctx: SigContext, hashType: HashType): Result<Hash>
  {
    if ctx.version == 1 then WitnessDigest(ctx.env, ctx.script, ctx.amt, hashType)
    else LegacyDigest(ctx.env, ctx.script, hashType)
  }

  /**
   * makeSignature: version 1 selects the BIP 143 digest, every other version
   * the legacy one; the signature is the key's DER bytes over that digest
   * followed by the hash-type byte.
   */
  function MakeSignature(ctx: SigContext, hashType: HashType, key: PrivateKey): (r: Result<Bytes>)
    ensures ctx.version == 1 ==> r == RawTxInWitnessSignature(ctx.env, ctx.script, ctx.amt, hashType, key)
    ensures ctx.version != 1 ==> r == RawTxInSignature(ctx.env, ctx.script, hashType, key)
    ensures r.Ok? <==> Digest(ctx, hashType).Ok? && ctx.env.signDigest(key, Digest(ctx, hashType).value).Some?
    ensures r.Ok? ==> |r.value| >= 1 && r.value[|r.value| - 1] == hashType % 256
    ensures r.Ok? ==> Some(r.value[..|r.value| - 1]) == ctx.env.signDigest(key, Digest(ctx, hashType).value)
  {
    if ctx.version == 1 then RawTxInWitnessSignature(ctx.env, ctx.script, ctx.amt, hashType, key)
    else RawTxInSignature(ctx.env, ctx.script, hashType, key)
  }

  /** signP2pk: the stack is exactly the one signature. */
  function SignP2pk(ctx: SigContext, hashType: HashType, key: PrivateKey): (r: Result<seq<Bytes>>)
    ensures r.Ok? <==> MakeSignature(ctx, hashType, key).Ok?
    ensures r.Ok? ==> r.value == [MakeSignature(ctx, hashType, key).value]
    ensures r.Err? ==> r.error == MakeSignature(ctx, hashType, key).error
  {
    match MakeSignature(ctx, hashType, key)
    case Err(e) => Err(e)
    case Ok(sig) => Ok([sig])
  }

  /** The serialised public key of `key`: compressed iff `compress`. */
  function PubKeyData(env: Env, key: PrivateKey, compress: bool): Bytes
  {
    if compress then env.serializeCompressed(key) else env.serializeUncompressed(key)
  }

  /** signP2pkh: the stack is exactly the signature followed by the public key. */
  function SignP2pkh(ctx: SigContext, hashType: HashType, key: PrivateKey, compress: bool): (r: Result<seq<Bytes>>)
    ensures r.Ok? <==> MakeSignature(ctx, hashType, key).Ok?
    ensures r.Ok? ==> |r.value| == 2 && r.value[0] == MakeSignature(ctx, hashType, key).value
    ensures r.Ok? && compress ==> r.value[1] == ctx.env.serializeCompressed(key)
    ensures r.Ok? && !compress ==> r.value[1] == ctx.env.serializeUncompressed(key)
    ensures r.Err? ==> r.error == MakeSignature(ctx, hashType, key).error
  {
    match MakeSignature(ctx, hashType, key)
    case Err(e) => Err(e)
    case Ok(sig) => Ok([sig, PubKeyData(ctx.env, key, compress)])
  }

  /**
   * SignatureScript: a legacy pay-to-pubkey-hash signature script, the
   * pushes of the signature and the public key.
   */
  function SignatureScript(env: Env, script: Bytes, hashType: HashType, key: PrivateKey, compress: bool): (r: Result<Bytes>)
    ensures var sig := RawTxInSignature(env, script, hashType, key);
      && (sig.Err? ==> r == Err(sig.error))
      && (sig.Ok? ==> (r.Ok? <==> env.buildScript([sig.value, PubKeyData(env, key, compress)]).Some?))
      && (r.Ok? ==> Some(r.value) == env.buildScript([sig.value, PubKeyData(env, key, compress)]))
  {
    match SignP2pkh(SigContext(env, script, 0, 0), hashType, key, compress)
    case Err(e) => Err(e)
    case Ok(stack) =>
      match env.buildScript(stack)
      case None => Err(ScriptBuildError)
      case Some(s) => Ok(s)
  }

  /**
   * WitnessSignature: a pay-to-witness-pubkey-hash witness, the BIP 143
   * signature followed by the public key.
   */
  function WitnessSignature(env: Env, script: Bytes, amt: int, hashType: HashType, key: PrivateKey, compress: bool): (r: Result<seq<Bytes>>)
    ensures var sig := RawTxInWitnessSignature(env, script, amt, hashType, key);
      && (r.Ok? <==> sig.Ok?)
      && (sig.Err? ==> r.error == sig.error)
      && (r.Ok? ==> r.value == [sig.value, PubKeyData(env, key, compress)])
  {
    SignP2pkh(SigContext(env, script, amt, 1), hashType, key, compress)
  }

  /** One iteration of signMultiSig: the signature for `a`, if its key is known and signing succeeds. */
  function Attempt(ctx: SigContext, kdb: KeyDB, hashType: HashType, a: Address): Option<Bytes>
  {
    if a !in kdb then None
    else match MakeSignature(ctx, hashType, kdb[a].key)
      case Err(_) => None
      case Ok(sig) => Some(sig)
  }

  function Attempts(ctx: SigContext, kdb: KeyDB, hashType: HashType, addrs: seq<Address>): (r: seq<Option<Bytes>>)
    ensures |r| == |addrs|
    ensures forall i :: 0 <= i < |addrs| ==> r[i] == Attempt(ctx, kdb, hashType, addrs[i])
  {
    seq(|addrs|, i requires 0 <= i < |addrs| => Attempt(ctx, kdb, hashType, addrs[i]))
  }

  /** `sig` is what signing with the key of one of `addrs` produced. */
  ghost predicate SignedForListed(ctx: SigContext, kdb: KeyDB, hashType: HashType, addrs: seq<Address>, sig: Bytes)
  {
    exists i :: 0 <= i < |addrs| && addrs[i] in kdb && MakeSignature(ctx, hashType, kdb[addrs[i]].key) == Ok(sig)
  }

  /** Every signature collected from the attempts was made with the key of one of the addresses. */
  lemma AttemptsProduced(ctx: SigContext, kdb: KeyDB, hashType: HashType, addrs: seq<Address>)
    ensures forall y :: y in Somes(Attempts(ctx, kdb, hashType, addrs)) ==> SignedForListed(ctx, kdb, hashType, addrs, y)
  {
    var attempts := Attempts(ctx, kdb, hashType, addrs);
    SomesMembers(attempts);
    forall y | y in Somes(attempts)
      ensures SignedForListed(ctx, kdb, hashType, addrs, y)
    {
      var i :| 0 <= i < |attempts| && attempts[i] == Some(y);
      assert Attempt(ctx, kdb, hashType, addrs[i]) == Some(y);
    }
  }

  /**
   * The stack signMultiSig builds: an empty placeholder (consumed by the
   * extra pop of OP_CHECKMULTISIG), then one signature per address whose key
   * is known and whose signing succeeds, in address order, until
   * `nRequired` of them are there.
   */
  function MultiSigStack(ctx: SigContext, kdb: KeyDB, hashType: HashType, addrs: seq<Address>, nRequired: int): (r: seq<Bytes>)
    ensures r == [[]] + TakeFirst(Somes(Attempts(ctx, kdb, hashType, addrs)), nRequired)
    ensures 1 <= nRequired ==> |r| <= 1 + nRequired
    ensures |r| <= 1 + |addrs|
    ensures forall k :: 1 <= k < |r| ==> SignedForListed(ctx, kdb, hashType, addrs, r[k])
  {
    var attempts := Attempts(ctx, kdb, hashType, addrs);
    var sigs := Somes(attempts);
    var r := Gather([[]], attempts, nRequired);
    GatherTakesFirst([[]], attempts, nRequired);
    assert forall k :: 1 <= k < |r| ==> r[k] == sigs[k - 1] && r[k] in sigs;
    AttemptsProduced(ctx, kdb, hashType, addrs);
    r
  }

  /**
   * signMultiSig: signs for as many addresses as possible, in order, and
   * reports whether exactly `nRequired` signatures were made; missing keys
   * and failed signings are skipped, so it never fails.
   */
  method SignMultiSig(ctx: SigContext, kdb: KeyDB, hashType: HashType, addrs: seq<Address>, nRequired: int) returns (stack: seq<Bytes>, ok: bool)
    ensures stack == MultiSigStack(ctx, kdb, hashType, addrs, nRequired)
    ensures ok <==> |stack| - 1 == nRequired
  {
    ghost var attempts := Attempts(ctx, kdb, hashType, addrs);
    var signed := 0;
    stack := [[]];
    var j := 0;
    while j < |addrs|
      invariant 0 <= j <= |addrs|
      invariant stack == Gather([[]], attempts[..j], nRequired)
      invariant signed == |stack| - 1
      invariant !Filled([[]], stack, nRequired)
    {
      assert attempts[..j + 1][..j] == attempts[..j];
      var sig := Attempt(ctx, kdb, hashType, addrs[j]);
      if sig.Some? {
        stack := stack + [sig.value];
        signed := signed + 1;
        if signed == nRequired {
          GatherStops([[]], attempts, nRequired, j + 1);
          break;
        }
      }
      j := j + 1;
    }
    if j == |addrs| {
      assert attempts[..j] == attempts;
    }
    ok := signed == nRequired;
  }

  /** The five results of `sign`; on error the stack and addresses are nil and the count zero. */
  datatype SignOutput = SignOutput(stack: seq<Bytes>, scriptClass: ScriptClass, addresses: seq<Address>, nRequired: int, err: Option<Error>)

  function Failed(c: ScriptClass, e: Error): SignOutput
  {
    SignOutput([], c, [], 0, Some(e))
  }

  /**
   * A successful `sign`: the classification is well formed and a
   * script-hash class carries its script alone on the stack.
   */
  predicate Succeeded(out: SignOutput)
  {
    && out.err.None?
    && WellFormed(Classification(out.scriptClass, out.addresses, out.nRequired))
    && (out.scriptClass == ScriptHashTy || out.scriptClass == WitnessV0ScriptHashTy ==> |out.stack| == 1)
  }

  /**
   * sign: classify `script` and produce the stack its template calls for,
   * looking keys up in `kdb` and redeem or witness scripts in `sdb`.
   */
  function Sign(env: Env, kdb: KeyDB, sdb: ScriptDB, script: Bytes, amt: int, version: int, hashType: HashType): (r: SignOutput)
    requires ClassifiesWell(env, script)
    ensures r.err.Some? ==> r.stack == [] && r.addresses == [] && r.nRequired == 0
    ensures r.err.None? ==> Succeeded(r)
    ensures env.classify(script).Err? ==> r == Failed(NonStandardTy, env.classify(script).error)
    ensures env.classify(script).Ok? ==>
      var c := env.classify(script).value;
      var ctx := SigContext(env, script, amt, version);
      && r.scriptClass == c.scriptClass
      && (r.err.None? ==> r.addresses == c.addresses && r.nRequired == c.nRequired)
      && (c.scriptClass == NullDataTy ==> r.err == Some(NullDataUnsignable))
      && (c.scriptClass == NonStandardTy ==> r.err == Some(UnknownUnsignable))
      && (c.scriptClass == ScriptHashTy || c.scriptClass == WitnessV0ScriptHashTy ==>
            (r.err.None? <==> c.addresses[0] in sdb)
            && (c.addresses[0] in sdb ==> r.stack == [sdb[c.addresses[0]]])
            && (c.addresses[0] !in sdb ==> r.err == Some(ScriptNotFound(c.addresses[0]))))
      && (c.scriptClass == PubKeyTy || c.scriptClass == PubKeyHashTy || c.scriptClass == WitnessV0PubKeyHashTy ==>
            (c.addresses[0] !in kdb ==> r.err == Some(KeyNotFound(c.addresses[0])))
            && (c.addresses[0] in kdb ==>
                  var e := kdb[c.addresses[0]];
                  var sig := MakeSignature(ctx, hashType, e.key);
                  && (r.err.None? <==> sig.Ok?)
                  && (sig.Err? ==> r.err == Some(sig.error))
                  && (sig.Ok? && c.scriptClass == PubKeyTy ==> r.stack == [sig.value])
                  && (sig.Ok? && c.scriptClass != PubKeyTy ==> r.stack == [sig.value, PubKeyData(env, e.key, e.compressed)])))
      && (c.scriptClass == MultiSigTy ==>
            r.err.None? && r.stack == MultiSigStack(ctx, kdb, hashType, c.addresses, c.nRequired))
  {
    match env.classify(script)
    case Err(e) => Failed(NonStandardTy, e)
    case Ok(c) =>
      var ctx := SigContext(env, script, amt, version);
      match c.scriptClass
      case PubKeyTy =>
        if c.addresses[0] !in kdb then Failed(c.scriptClass, KeyNotFound(c.addresses[0]))
        else
          (match SignP2pk(ctx, hashType, kdb[c.addresses[0]].key)
           case Err(e) => Failed(c.scriptClass, e)
           case Ok(stack) => SignOutput(stack, c.scriptClass, c.addresses, c.nRequired, None))
      case PubKeyHashTy =>
        SignSingleKeyHash(ctx, kdb, hashType, c)
      case WitnessV0PubKeyHashTy =>
        SignSingleKeyHash(ctx, kdb, hashType, c)
      case ScriptHashTy =>
        LookUpScript(sdb, c)
      case WitnessV0ScriptHashTy =>
        LookUpScript(sdb, c)
      case MultiSigTy =>
        SignOutput(MultiSigStack(ctx, kdb, hashType, c.addresses, c.nRequired), c.scriptClass, c.addresses, c.nRequired, None)
      case NullDataTy => Failed(c.scriptClass, NullDataUnsignable)
      case NonStandardTy => Failed(c.scriptClass, UnknownUnsignable)
  }

  /** The pay-to-pubkey-hash branches of `sign` (legacy and witness alike). */
  function SignSingleKeyHash(ctx: SigContext, kdb: KeyDB, hashType: HashType, c: Classification): SignOutput
    requires |c.addresses| >= 1
  {
    if c.addresses[0] !in kdb then Failed(c.scriptClass, KeyNotFound(c.addresses[0]))
    else
      var e := kdb[c.addresses[0]];
      match SignP2pkh(ctx, hashType, e.key, e.compressed)
      case Err(err) => Failed(c.scriptClass, err)
      case Ok(stack) => SignOutput(stack, c.scriptClass, c.addresses, c.nRequired, None)
  }

  /** The script-hash branches of `sign`: the redeem or witness script, alone on the stack. */
  function LookUpScript(sdb: ScriptDB, c: Classification): SignOutput
    requires |c.addresses| >= 1
  {
    if c.addresses[0] !in sdb then Failed(c.scriptClass, ScriptNotFound(c.addresses[0]))
    else SignOutput([sdb[c.addresses[0]]], c.scriptClass, c.addresses, c.nRequired, None)
  }
}
