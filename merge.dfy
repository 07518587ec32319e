/**
 * The merge engine of txscript/sign.go: reconciles a freshly produced
 * unlocking stack with a previous one for the same output. For multisig it
 * pools every candidate signature, binds each to the first address whose key
 * verifies it (never overwriting an earlier binding), and rebuilds the stack
 * in address order; for every other class the longer stack is kept.
 */
module Merge {
  import opened Types
  import opened Seqs
  import opened Signer

  /**
   * The digest a candidate with hash-type byte `hashType` is checked
   * against: the BIP 143 digest for version 1, which may fail, else the
   * legacy digest of the already parsed locking script.
   */
  function CandidateDigest(ctx: SigContext, hashType: HashType): (r: Result<Hash>)
    ensures ctx.version == 1 ==> (r.Ok? <==> ctx.env.witnessSigHash(ctx.script, hashType, ctx.amt).Some?)
    ensures ctx.version == 1 && r.Ok? ==> r.value == ctx.env.witnessSigHash(ctx.script, hashType, ctx.amt).value
    ensures ctx.version == 1 && r.Err? ==> r.error == SigHashError
    ensures ctx.version != 1 ==> r == Ok(ctx.env.sigHash(ctx.script, hashType))
  {
    if ctx.version == 1 then
      match ctx.env.witnessSigHash(ctx.script, hashType, ctx.amt)
      case None => Err(SigHashError)
      case Some(d) => Ok(d)
    else Ok(ctx.env.sigHash(ctx.script, hashType))
  }

  /** The index of the first address at or after `j` whose public key verifies `p` over `d`. */
  function FirstVerifier(env: Env, p: Signature, d: Hash, addrs: seq<Address>, j: nat): (r: Option<nat>)
    requires AllPubKey(addrs)
    requires j <= |addrs|
    decreases |addrs| - j
    ensures r.Some? ==> j <= r.value < |addrs| && env.verify(p, d, addrs[r.value].pubKey)
    ensures r.Some? ==> forall k :: j <= k < r.value ==> !env.verify(p, d, addrs[k].pubKey)
    ensures r.None? ==> forall k :: j <= k < |addrs| ==> !env.verify(p, d, addrs[k].pubKey)
  {
    if j == |addrs| then None
    else if env.verify(p, d, addrs[j].pubKey) then Some(j)
    else FirstVerifier(env, p, d, addrs, j + 1)
  }

  /**
   * Where a candidate goes: nowhere if it is empty, does not parse as DER
   * once its hash-type byte is removed, or verifies under no key; an error if
   * its digest cannot be computed; otherwise the encoding of the first
   * address whose key verifies it.
   */
  function Target(ctx: SigContext, addrs: seq<Address>, sig: Bytes): (r: Result<Option<string>>)
    requires AllPubKey(addrs)
    ensures |sig| < 1 || ctx.env.parseDER(sig[..|sig| - 1]).None? ==> r == Ok(None)
    ensures r.Err? <==> |sig| >= 1 && ctx.env.parseDER(sig[..|sig| - 1]).Some? && CandidateDigest(ctx, sig[|sig| - 1]).Err?
  {
    if |sig| < 1 then Ok(None)
    else match ctx.env.parseDER(sig[..|sig| - 1])
      case None => Ok(None)
      case Some(p) =>
        match CandidateDigest(ctx, sig[|sig| - 1])
        case Err(e) => Err(e)
        case Ok(d) =>
          match FirstVerifier(ctx.env, p, d, addrs, 0)
          case None => Ok(None)
          case Some(i) => Ok(Some(ctx.env.encode(addrs[i])))
  }

  /** `sig` is a well-formed signature that verifies under the key of `a`. */
  ghost predicate VerifiesUnder(ctx: SigContext, sig: Bytes, a: Address)
  {
    && a.PubKeyAddress?
    && |sig| >= 1
    && ctx.env.parseDER(sig[..|sig| - 1]).Some?
    && CandidateDigest(ctx, sig[|sig| - 1]).Ok?
    && ctx.env.verify(ctx.env.parseDER(sig[..|sig| - 1]).value, CandidateDigest(ctx, sig[|sig| - 1]).value, a.pubKey)
  }

  /**
   * A candidate targets the first address whose key verifies it, and is
   * dropped only when no key verifies it.
   */
  lemma TargetVerifies(ctx: SigContext, addrs: seq<Address>, sig: Bytes)
    requires AllPubKey(addrs)
    ensures var r := Target(ctx, addrs, sig);
      && (r.Ok? && r.value.Some? ==>
           exists j :: 0 <= j < |addrs| && r.value.value == ctx.env.encode(addrs[j]) && VerifiesUnder(ctx, sig, addrs[j])
                       && forall k :: 0 <= k < j ==> !VerifiesUnder(ctx, sig, addrs[k]))
      && (r == Ok(None) ==> forall j :: 0 <= j < |addrs| ==> !VerifiesUnder(ctx, sig, addrs[j]))
  {
    if |sig| >= 1 && ctx.env.parseDER(sig[..|sig| - 1]).Some? && CandidateDigest(ctx, sig[|sig| - 1]).Ok? {
      var p := ctx.env.parseDER(sig[..|sig| - 1]).value;
      var d := CandidateDigest(ctx, sig[|sig| - 1]).value;
      match FirstVerifier(ctx.env, p, d, addrs, 0)
      case None =>
      case Some(i) =>
        assert VerifiesUnder(ctx, sig, addrs[i]);
    }
  }

  /**
   * One round of the signature loop: bind `sig` to its target unless that
   * address already has a signature. An existing binding is never replaced.
   */
  function BindOne(ctx: SigContext, addrs: seq<Address>, m: map<string, Bytes>, sig: Bytes): (r: Result<map<string, Bytes>>)
    requires AllPubKey(addrs)
    ensures r.Err? <==> Target(ctx, addrs, sig).Err?
    ensures r.Ok? ==> forall k :: k in m ==> k in r.value && r.value[k] == m[k]
    ensures r.Ok? ==> forall k :: k in r.value && k !in m ==> r.value[k] == sig && Target(ctx, addrs, sig) == Ok(Some(k))
  {
    match Target(ctx, addrs, sig)
    case Err(e) => Err(e)
    case Ok(None) => Ok(m)
    case Ok(Some(a)) => if a in m then Ok(m) else Ok(m[a := sig])
  }

  /** The signature loop continued from `start` over `cands`, in order; an error stops it. */
  function BindFrom(ctx: SigContext, addrs: seq<Address>, start: Result<map<string, Bytes>>, cands: seq<Bytes>): Result<map<string, Bytes>>
    requires AllPubKey(addrs)
  {
    if cands == [] then start
    else match BindFrom(ctx, addrs, start, cands[..|cands| - 1])
      case Err(e) => Err(e)
      case Ok(m) => BindOne(ctx, addrs, m, cands[|cands| - 1])
  }

  /** The addrToSig map after examining `cands` in order, or the first digest error. */
  function BindAll(ctx: SigContext, addrs: seq<Address>, cands: seq<Bytes>): Result<map<string, Bytes>>
    requires AllPubKey(addrs)
  {
    BindFrom(ctx, addrs, Ok(map[]), cands)
  }

  /** For each address in order, its bound signature if any. */
  function Lookups(env: Env, addrs: seq<Address>, m: map<string, Bytes>): (r: seq<Option<Bytes>>)
    ensures |r| == |addrs|
    ensures forall i :: 0 <= i < |addrs| ==>
      r[i] == if env.encode(addrs[i]) in m then Some(m[env.encode(addrs[i])]) else None
  {
    seq(|addrs|, i requires 0 <= i < |addrs| =>
      if env.encode(addrs[i]) in m then Some(m[env.encode(addrs[i])]) else None)
  }

  /** The bound signatures, in the order of the address list. */
  function Bound(env: Env, addrs: seq<Address>, m: map<string, Bytes>): seq<Bytes>
  {
    Somes(Lookups(env, addrs, m))
  }

  /**
   * The merged stack: OP_FALSE for the extra pop of OP_CHECKMULTISIG, the
   * bound signatures in address order (at most `nRequired` of them), then
   * OP_0 for every missing one.
   */
  function Rebuild(env: Env, addrs: seq<Address>, m: map<string, Bytes>, nRequired: int): (r: seq<Bytes>)
    ensures |r| >= 1 && r[0] == [OP_FALSE]
    ensures 1 <= nRequired ==> |r| == 1 + nRequired
    ensures forall k :: 1 <= k < |r| ==> r[k] in Bound(env, addrs, m) || r[k] == [OP_0]
  {
    var sigs := TakeFirst(Bound(env, addrs, m), nRequired);
    [[OP_FALSE]] + sigs + Pad(nRequired - |sigs|)
  }

  /** What mergeMultiSig returns. */
  function MergeMultiSigResult(ctx: SigContext, addrs: seq<Address>, nRequired: int, stack: seq<Bytes>, prevStack: seq<Bytes>): Result<seq<Bytes>>
    requires AllPubKey(addrs)
  {
    if stack == [] then Ok(prevStack)
    else match BindAll(ctx, addrs, stack + prevStack)
      case Err(e) => Err(e)
      case Ok(m) => Ok(Rebuild(ctx.env, addrs, m, nRequired))
  }

  /**
   * mergeMultiSig: the pooled candidates are `stack` followed by
   * `prevStack`; a digest error aborts the merge.
   */
  method MergeMultiSig(ctx: SigContext, addrs: seq<Address>, nRequired: int, stack: seq<Bytes>, prevStack: seq<Bytes>) returns (r: Result<seq<Bytes>>)
    requires AllPubKey(addrs)
    ensures r == MergeMultiSigResult(ctx, addrs, nRequired, stack, prevStack)
  {
    if |stack| == 0 {
      return Ok(prevStack);
    }
    var possibleSigs := stack + prevStack;
    var addrToSig: map<string, Bytes> := map[];
    var i := 0;
    while i < |possibleSigs|
      invariant 0 <= i <= |possibleSigs|
      invariant BindAll(ctx, addrs, possibleSigs[..i]) == Ok(addrToSig)
    {
      assert possibleSigs[..i + 1][..i] == possibleSigs[..i];
      var bound := BindCandidate(ctx, addrs, addrToSig, possibleSigs[i]);
      if bound.Err? {
        BindAllStopsAtError(ctx, addrs, possibleSigs, i + 1);
        assert possibleSigs[..|possibleSigs|] == possibleSigs;
        return Err(bound.error);
      }
      addrToSig := bound.value;
      i := i + 1;
    }
    assert possibleSigs[..i] == possibleSigs;
    var mergedStack := RebuildStack(ctx.env, addrs, addrToSig, nRequired);
    r := Ok(mergedStack);
  }

  /**
   * One round of the signature loop of mergeMultiSig: try the keys in
   * address order and bind `sig` to the first that verifies it, unless that
   * address already has a signature.
   */
  method BindCandidate(ctx: SigContext, addrs: seq<Address>, addrToSig: map<string, Bytes>, sig: Bytes) returns (r: Result<map<string, Bytes>>)
    requires AllPubKey(addrs)
    ensures r == BindOne(ctx, addrs, addrToSig, sig)
  {
    if |sig| < 1 {
      return Ok(addrToSig);
    }
    var tSig := sig[..|sig| - 1];
    var hashType := sig[|sig| - 1];
    var pSig := ctx.env.parseDER(tSig);
    if pSig.None? {
      return Ok(addrToSig);
    }
    var hash := CandidateDigest(ctx, hashType);
    if hash.Err? {
      return Err(hash.error);
    }
    var j := 0;
    while j < |addrs|
      invariant 0 <= j <= |addrs|
      invariant FirstVerifier(ctx.env, pSig.value, hash.value, addrs, j) == FirstVerifier(ctx.env, pSig.value, hash.value, addrs, 0)
    {
      if ctx.env.verify(pSig.value, hash.value, addrs[j].pubKey) {
        var aStr := ctx.env.encode(addrs[j]);
        if aStr !in addrToSig {
          return Ok(addrToSig[aStr := sig]);
        }
        return Ok(addrToSig);
      }
      j := j + 1;
    }
    return Ok(addrToSig);
  }

  /** The second half of mergeMultiSig: rebuild the stack in address order and pad it. */
  method RebuildStack(env: Env, addrs: seq<Address>, addrToSig: map<string, Bytes>, nRequired: int) returns (mergedStack: seq<Bytes>)
    ensures mergedStack == Rebuild(env, addrs, addrToSig, nRequired)
  {
    var doneSigs;
    mergedStack, doneSigs := CollectBound(env, addrs, addrToSig, nRequired);
    GatherTakesFirst([[OP_FALSE]], Lookups(env, addrs, addrToSig), nRequired);
    mergedStack := AppendPadding(mergedStack, doneSigs, nRequired);
  }

  /**
   * The address loop of mergeMultiSig: OP_FALSE, then the bound signature of
   * each address in turn, stopping once `nRequired` are there; `doneSigs`
   * counts them.
   */
  method CollectBound(env: Env, addrs: seq<Address>, addrToSig: map<string, Bytes>, nRequired: int) returns (mergedStack: seq<Bytes>, doneSigs: int)
    ensures mergedStack == Gather([[OP_FALSE]], Lookups(env, addrs, addrToSig), nRequired)
    ensures doneSigs == |mergedStack| - 1
  {
    ghost var lookups := Lookups(env, addrs, addrToSig);
    mergedStack := [[OP_FALSE]];
    doneSigs := 0;
    var k := 0;
    while k < |addrs|
      invariant 0 <= k <= |addrs|
      invariant mergedStack == Gather([[OP_FALSE]], lookups[..k], nRequired)
      invariant doneSigs == |mergedStack| - 1
      invariant !Filled([[OP_FALSE]], mergedStack, nRequired)
    {
      assert lookups[..k + 1][..k] == lookups[..k];
      var aStr := env.encode(addrs[k]);
      assert lookups[k] == if aStr in addrToSig then Some(addrToSig[aStr]) else None;
      if aStr in addrToSig {
        mergedStack := mergedStack + [addrToSig[aStr]];
        doneSigs := doneSigs + 1;
        if doneSigs == nRequired {
          GatherStops([[OP_FALSE]], lookups, nRequired, k + 1);
          return;
        }
      }
      k := k + 1;
    }
    assert lookups[..k] == lookups;
  }

  /** The padding loop of mergeMultiSig: one OP_0 for each of the `nRequired - doneSigs` missing signatures. */
  method AppendPadding(stack: seq<Bytes>, doneSigs: int, nRequired: int) returns (padded: seq<Bytes>)
    ensures padded == stack + Pad(nRequired - doneSigs)
  {
    padded := stack;
    var i := doneSigs;
    while i < nRequired
      invariant doneSigs <= i
      invariant i <= nRequired || i == doneSigs
      invariant padded == stack + Pad(i - doneSigs)
    {
      padded := padded + [[OP_0]];
      i := i + 1;
    }
  }

  /** Once the fold meets a digest error, the rest of the candidates cannot undo it. */
  lemma {:induction false} BindAllStopsAtError(ctx: SigContext, addrs: seq<Address>, cands: seq<Bytes>, k: nat)
    requires AllPubKey(addrs)
    requires k <= |cands|
    requires BindAll(ctx, addrs, cands[..k]).Err?
    ensures BindAll(ctx, addrs, cands) == BindAll(ctx, addrs, cands[..k])
    decreases |cands| - k
  {
    if k < |cands| {
      assert cands[..k + 1][..k] == cands[..k];
      assert BindAll(ctx, addrs, cands[..k + 1]) == BindAll(ctx, addrs, cands[..k]);
      BindAllStopsAtError(ctx, addrs, cands, k + 1);
    } else {
      assert cands[..k] == cands;
    }
  }

  /** What mergeScripts returns. */
  function MergeScriptsResult(ctx: SigContext, scriptClass: ScriptClass, addrs: seq<Address>, nRequired: int, stack: seq<Bytes>, prevStack: seq<Bytes>): (r: Result<seq<Bytes>>)
    requires scriptClass == MultiSigTy ==> AllPubKey(addrs)
    ensures scriptClass == MultiSigTy ==> r == MergeMultiSigResult(ctx, addrs, nRequired, stack, prevStack)
    ensures scriptClass != MultiSigTy ==> r.Ok?
    ensures scriptClass != MultiSigTy && |stack| > |prevStack| ==> r.value == stack
    ensures scriptClass != MultiSigTy && |stack| <= |prevStack| ==> r.value == prevStack
  {
    if scriptClass == MultiSigTy then MergeMultiSigResult(ctx, addrs, nRequired, stack, prevStack)
    else if |stack| > |prevStack| then Ok(stack)
    else Ok(prevStack)
  }

  /**
   * mergeScripts: multisig stacks are merged signature by signature; for any
   * other class the longer stack wins, and on a tie the previous one.
   */
  method MergeScripts(ctx: SigContext, scriptClass: ScriptClass, addrs: seq<Address>, nRequired: int, stack: seq<Bytes>, prevStack: seq<Bytes>) returns (r: Result<seq<Bytes>>)
    requires scriptClass == MultiSigTy ==> AllPubKey(addrs)
    ensures r == MergeScriptsResult(ctx, scriptClass, addrs, nRequired, stack, prevStack)
  {
    match scriptClass {
      case MultiSigTy =>
        r := MergeMultiSig(ctx, addrs, nRequired, stack, prevStack);
      case _ =>
        if |stack| > |prevStack| {
          return Ok(stack);
        }
        return Ok(prevStack);
    }
  }
}
