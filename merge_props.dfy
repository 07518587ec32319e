/**
 * What mergeMultiSig guarantees: which candidates get bound (first match
 * wins, nothing is overwritten, new signatures beat previous ones), that
 * unusable candidates are skipped, the shape of the merged stack, and that
 * merging a stack with itself changes nothing.
 */
module MergeProps {
  import opened Types
  import opened Seqs
  import opened Merge
  import Signer

  /** Candidate `i` is the first in `cands` whose target is the address encoded as `k`. */
  ghost predicate FirstFor(ctx: SigContext, addrs: seq<Address>, cands: seq<Bytes>, k: string, i: int)
    requires AllPubKey(addrs)
  {
    && 0 <= i < |cands|
    && Target(ctx, addrs, cands[i]) == Ok(Some(k))
    && forall j :: 0 <= j < i ==> Target(ctx, addrs, cands[j]) != Ok(Some(k))
  }

  /** Splitting the candidates splits the loop. */
  lemma {:induction false} BindFromConcat(ctx: SigContext, addrs: seq<Address>, start: Result<map<string, Bytes>>, a: seq<Bytes>, b: seq<Bytes>)
    requires AllPubKey(addrs)
    ensures BindFrom(ctx, addrs, start, a + b) == BindFrom(ctx, addrs, BindFrom(ctx, addrs, start, a), b)
  {
    if b == [] {
      assert a + b == a;
    } else {
      var init := b[..|b| - 1];
      assert (a + b)[..|a + b| - 1] == a + init;
      assert (a + b)[|a + b| - 1] == b[|b| - 1];
      BindFromConcat(ctx, addrs, start, a, init);
    }
  }

  /** An error, once reached, is the result. */
  lemma {:induction false} BindFromError(ctx: SigContext, addrs: seq<Address>, e: Error, cands: seq<Bytes>)
    requires AllPubKey(addrs)
    ensures BindFrom(ctx, addrs, Err(e), cands) == Err(e)
  {
    if cands != [] {
      BindFromError(ctx, addrs, e, cands[..|cands| - 1]);
    }
  }

  /** The loop over `cands` fails exactly when some candidate's digest fails. */
  lemma {:induction false} BindAllOk(ctx: SigContext, addrs: seq<Address>, cands: seq<Bytes>)
    requires AllPubKey(addrs)
    ensures BindAll(ctx, addrs, cands).Ok? <==> forall i :: 0 <= i < |cands| ==> Target(ctx, addrs, cands[i]).Ok?
  {
    if cands != [] {
      var init := cands[..|cands| - 1];
      BindAllOk(ctx, addrs, init);
      assert forall i :: 0 <= i < |init| ==> cands[i] == init[i];
      if BindAll(ctx, addrs, init).Err? {
        var i :| 0 <= i < |init| && Target(ctx, addrs, init[i]).Err?;
        assert Target(ctx, addrs, cands[i]).Err?;
      }
    }
  }

  /** Without errors, an address is bound exactly when some candidate targets it. */
  lemma {:induction false} BindAllBinds(ctx: SigContext, addrs: seq<Address>, cands: seq<Bytes>)
    requires AllPubKey(addrs)
    requires BindAll(ctx, addrs, cands).Ok?
    ensures forall k :: k in BindAll(ctx, addrs, cands).value <==>
      exists i :: 0 <= i < |cands| && Target(ctx, addrs, cands[i]) == Ok(Some(k))
  {
    if cands != [] {
      var init := cands[..|cands| - 1];
      var x := cands[|cands| - 1];
      var m := BindAll(ctx, addrs, init).value;
      BindAllBinds(ctx, addrs, init);
      assert forall i :: 0 <= i < |init| ==> cands[i] == init[i];
      assert BindAll(ctx, addrs, cands) == BindOne(ctx, addrs, m, x);
      forall k | k !in m && exists i :: 0 <= i < |cands| && Target(ctx, addrs, cands[i]) == Ok(Some(k))
        ensures Target(ctx, addrs, x) == Ok(Some(k))
      {
        var i :| 0 <= i < |cands| && Target(ctx, addrs, cands[i]) == Ok(Some(k));
        assert i == |init|;
      }
    }
  }

  /**
   * Without errors, every bound address holds the first candidate that
   * targets it: first match wins and nothing is overwritten.
   */
  lemma {:induction false} BindAllFirstWins(ctx: SigContext, addrs: seq<Address>, cands: seq<Bytes>)
    requires AllPubKey(addrs)
    requires BindAll(ctx, addrs, cands).Ok?
    ensures forall k :: k in BindAll(ctx, addrs, cands).value ==>
      exists i :: FirstFor(ctx, addrs, cands, k, i) && BindAll(ctx, addrs, cands).value[k] == cands[i]
    ensures forall k, i :: FirstFor(ctx, addrs, cands, k, i) ==>
      k in BindAll(ctx, addrs, cands).value && BindAll(ctx, addrs, cands).value[k] == cands[i]
  {
    if cands != [] {
      var init := cands[..|cands| - 1];
      var n := |init|;
      var x := cands[n];
      var m := BindAll(ctx, addrs, init).value;
      var m' := BindAll(ctx, addrs, cands).value;
      BindAllFirstWins(ctx, addrs, init);
      BindAllBinds(ctx, addrs, init);
      assert forall i :: 0 <= i < n ==> cands[i] == init[i];
      assert BindAll(ctx, addrs, cands) == BindOne(ctx, addrs, m, x);
      forall k, i | 0 <= i < n
        ensures FirstFor(ctx, addrs, cands, k, i) <==> FirstFor(ctx, addrs, init, k, i)
      {
      }
      forall k | k in m'
        ensures exists i :: FirstFor(ctx, addrs, cands, k, i) && m'[k] == cands[i]
      {
        if k in m {
          var i :| FirstFor(ctx, addrs, init, k, i) && m[k] == init[i];
          assert FirstFor(ctx, addrs, cands, k, i);
        } else {
          assert FirstFor(ctx, addrs, cands, k, n);
        }
      }
      forall k, i | FirstFor(ctx, addrs, cands, k, i)
        ensures k in m' && m'[k] == cands[i]
      {
        if i < n {
          assert FirstFor(ctx, addrs, init, k, i);
        } else {
          assert k !in m;
        }
      }
    }
  }

  /**
   * A signature from the new stack beats one from the previous stack: if
   * `stack[i]` targets the address encoded as `k`, then `k` is bound to a
   * candidate of `stack` examined no later than `stack[i]`.
   */
  lemma StackWins(ctx: SigContext, addrs: seq<Address>, stack: seq<Bytes>, prevStack: seq<Bytes>, i: nat, k: string)
    requires AllPubKey(addrs)
    requires BindAll(ctx, addrs, stack + prevStack).Ok?
    requires i < |stack| && Target(ctx, addrs, stack[i]) == Ok(Some(k))
    ensures k in BindAll(ctx, addrs, stack + prevStack).value
    ensures BindAll(ctx, addrs, stack + prevStack).value[k] in stack[..i + 1]
  {
    var cands := stack + prevStack;
    BindAllFirstWins(ctx, addrs, cands);
    BindAllBinds(ctx, addrs, cands);
    assert cands[i] == stack[i];
    var i0 :| FirstFor(ctx, addrs, cands, k, i0) && BindAll(ctx, addrs, cands).value[k] == cands[i0];
    assert i0 <= i;
    assert cands[i0] == stack[..i + 1][i0];
  }

  /**
   * Candidates that are empty, do not parse as DER or verify under no key
   * are skipped: removing one changes nothing.
   */
  lemma SkippedCandidate(ctx: SigContext, addrs: seq<Address>, a: seq<Bytes>, x: Bytes, b: seq<Bytes>)
    requires AllPubKey(addrs)
    requires Target(ctx, addrs, x) == Ok(None)
    ensures BindAll(ctx, addrs, a + [x] + b) == BindAll(ctx, addrs, a + b)
  {
    BindFromConcat(ctx, addrs, Ok(map[]), a + [x], b);
    BindFromConcat(ctx, addrs, Ok(map[]), a, [x]);
    BindFromConcat(ctx, addrs, Ok(map[]), a, b);
    assert [x][..0] == [];
    match BindAll(ctx, addrs, a)
    case Err(e) =>
    case Ok(m) =>
  }

  /** Candidates already examined bind nothing new the second time. */
  lemma {:induction false} BindFromAbsorbs(ctx: SigContext, addrs: seq<Address>, cands: seq<Bytes>, more: seq<Bytes>)
    requires AllPubKey(addrs)
    requires BindAll(ctx, addrs, cands).Ok?
    requires forall y :: y in more ==> y in cands
    ensures BindFrom(ctx, addrs, BindAll(ctx, addrs, cands), more) == BindAll(ctx, addrs, cands)
  {
    if more != [] {
      var init := more[..|more| - 1];
      var y := more[|more| - 1];
      assert forall z :: z in init ==> z in more;
      BindFromAbsorbs(ctx, addrs, cands, init);
      BindAllOk(ctx, addrs, cands);
      BindAllBinds(ctx, addrs, cands);
      assert y in more;
      var i :| 0 <= i < |cands| && cands[i] == y;
      assert Target(ctx, addrs, cands[i]).Ok?;
      var m := BindAll(ctx, addrs, cands).value;
      assert BindFrom(ctx, addrs, BindAll(ctx, addrs, cands), more) == BindOne(ctx, addrs, m, y);
      if Target(ctx, addrs, y).value.Some? {
        assert Target(ctx, addrs, y).value.value in m;
      }
    }
  }

  /** Merging a stack with a copy of itself is merging it with nothing. */
  lemma MergeWithItself(ctx: SigContext, addrs: seq<Address>, nRequired: int, stack: seq<Bytes>)
    requires AllPubKey(addrs)
    ensures MergeMultiSigResult(ctx, addrs, nRequired, stack, stack) == MergeMultiSigResult(ctx, addrs, nRequired, stack, [])
  {
    assert stack + [] == stack;
    BindFromConcat(ctx, addrs, Ok(map[]), stack, stack);
    match BindAll(ctx, addrs, stack)
    case Err(e) =>
      BindFromError(ctx, addrs, e, stack);
    case Ok(m) =>
      BindFromAbsorbs(ctx, addrs, stack, stack);
  }

  /**
   * `y` is what the merge binds to address `idx`: the first pooled candidate
   * whose target is that address's encoding, verifying under the key of an
   * address with that encoding.
   */
  ghost predicate BoundAt(ctx: SigContext, addrs: seq<Address>, cands: seq<Bytes>, y: Bytes, idx: int)
    requires AllPubKey(addrs)
  {
    && 0 <= idx < |addrs|
    && (exists i :: FirstFor(ctx, addrs, cands, ctx.env.encode(addrs[idx]), i) && y == cands[i])
    && (exists j :: 0 <= j < |addrs| && ctx.env.encode(addrs[j]) == ctx.env.encode(addrs[idx])
                    && VerifiesUnder(ctx, y, addrs[j]))
  }

  /** Every address the rebuild finds a signature for holds the candidate bound to it. */
  lemma BoundEntries(ctx: SigContext, addrs: seq<Address>, cands: seq<Bytes>)
    requires AllPubKey(addrs)
    requires BindAll(ctx, addrs, cands).Ok?
    ensures var m := BindAll(ctx, addrs, cands).value;
      forall idx :: 0 <= idx < |addrs| && ctx.env.encode(addrs[idx]) in m ==>
        BoundAt(ctx, addrs, cands, m[ctx.env.encode(addrs[idx])], idx)
  {
    var m := BindAll(ctx, addrs, cands).value;
    BindAllFirstWins(ctx, addrs, cands);
    forall idx | 0 <= idx < |addrs| && ctx.env.encode(addrs[idx]) in m
      ensures BoundAt(ctx, addrs, cands, m[ctx.env.encode(addrs[idx])], idx)
    {
      var k := ctx.env.encode(addrs[idx]);
      var i :| FirstFor(ctx, addrs, cands, k, i) && m[k] == cands[i];
      TargetVerifies(ctx, addrs, cands[i]);
    }
  }

  /**
   * After its first entry `r` holds the signatures bound to the addresses at
   * the strictly increasing positions `pos`, then OP_0 up to its end.
   */
  ghost predicate SigsThenPadding(ctx: SigContext, addrs: seq<Address>, cands: seq<Bytes>, r: seq<Bytes>, pos: seq<nat>)
    requires AllPubKey(addrs)
  {
    && |pos| < |r|
    && (forall k1, k2 :: 0 <= k1 < k2 < |pos| ==> pos[k1] < pos[k2])
    && (forall k :: 0 <= k < |pos| ==> BoundAt(ctx, addrs, cands, r[k + 1], pos[k]))
    && (forall k :: |pos| < k < |r| ==> r[k] == [OP_0])
  }

  /** The address positions of the signatures the rebuild takes. */
  function TakenPositions(env: Env, addrs: seq<Address>, m: map<string, Bytes>, nRequired: int): seq<nat>
  {
    var lookups := Lookups(env, addrs, m);
    SomesPositions(lookups)[..|TakeFirst(Somes(lookups), nRequired)|]
  }

  /** An address the rebuild finds a signature for holds the candidate bound to it. */
  lemma LookupBound(ctx: SigContext, addrs: seq<Address>, cands: seq<Bytes>, idx: int, y: Bytes)
    requires AllPubKey(addrs)
    requires BindAll(ctx, addrs, cands).Ok? && 0 <= idx < |addrs|
    requires Lookups(ctx.env, addrs, BindAll(ctx, addrs, cands).value)[idx] == Some(y)
    ensures BoundAt(ctx, addrs, cands, y, idx)
  {
    BoundEntries(ctx, addrs, cands);
  }

  /**
   * The rebuilt stack is OP_FALSE, the signatures bound to addresses at
   * increasing positions, then OP_0 up to exactly `1 + nRequired` entries.
   */
  lemma RebuildShape(ctx: SigContext, addrs: seq<Address>, cands: seq<Bytes>, nRequired: int)
    requires AllPubKey(addrs)
    requires BindAll(ctx, addrs, cands).Ok? && 1 <= nRequired
    ensures var m := BindAll(ctx, addrs, cands).value;
      var r := Rebuild(ctx.env, addrs, m, nRequired);
      && |r| == 1 + nRequired
      && r[0] == [OP_FALSE]
      && SigsThenPadding(ctx, addrs, cands, r, TakenPositions(ctx.env, addrs, m, nRequired))
  {
    var m := BindAll(ctx, addrs, cands).value;
    var lookups := Lookups(ctx.env, addrs, m);
    var sigs := TakeFirst(Somes(lookups), nRequired);
    var r := Rebuild(ctx.env, addrs, m, nRequired);
    var pos := TakenPositions(ctx.env, addrs, m, nRequired);
    TakenAt(lookups, nRequired);
    forall k | 0 <= k < |pos|
      ensures BoundAt(ctx, addrs, cands, r[k + 1], pos[k])
    {
      assert r[k + 1] == sigs[k];
      LookupBound(ctx, addrs, cands, pos[k], sigs[k]);
    }
    forall k | |pos| < k < |r|
      ensures r[k] == [OP_0]
    {
      assert r[k] == Pad(nRequired - |sigs|)[k - 1 - |sigs|];
    }
  }

  /**
   * For `nRequired >= 1` the merged stack is OP_FALSE, then the candidates
   * bound to the addresses at the positions `TakenPositions` in address
   * order, then OP_0 up to exactly `1 + nRequired` entries. No bound address
   * is passed over: when fewer than `nRequired` signatures are taken every
   * bound address contributes, and otherwise every bound address up to the
   * last one taken does.
   */
  lemma MergedStackShape(ctx: SigContext, addrs: seq<Address>, nRequired: int, stack: seq<Bytes>, prevStack: seq<Bytes>)
    requires AllPubKey(addrs)
    requires stack != [] && 1 <= nRequired
    requires MergeMultiSigResult(ctx, addrs, nRequired, stack, prevStack).Ok?
    ensures var m := BindAll(ctx, addrs, stack + prevStack).value;
      var r := MergeMultiSigResult(ctx, addrs, nRequired, stack, prevStack).value;
      var pos := TakenPositions(ctx.env, addrs, m, nRequired);
      && |r| == 1 + nRequired
      && r[0] == [OP_FALSE]
      && SigsThenPadding(ctx, addrs, stack + prevStack, r, pos)
      && (forall idx ::
            (0 <= idx < |addrs| && ctx.env.encode(addrs[idx]) in m && (|pos| < nRequired || idx <= pos[|pos| - 1]))
            ==> idx in pos)
  {
    var cands := stack + prevStack;
    var m := BindAll(ctx, addrs, cands).value;
    RebuildShape(ctx, addrs, cands, nRequired);
    var lookups := Lookups(ctx.env, addrs, m);
    TakenComplete(lookups, nRequired);
    assert TakenPositions(ctx.env, addrs, m, nRequired) == SomesPositions(lookups)[..|TakeFirst(Somes(lookups), nRequired)|];
  }

  /** The merge fails exactly when the stack is not empty and some pooled candidate's digest fails. */
  lemma MergeFails(ctx: SigContext, addrs: seq<Address>, nRequired: int, stack: seq<Bytes>, prevStack: seq<Bytes>)
    requires AllPubKey(addrs)
    ensures MergeMultiSigResult(ctx, addrs, nRequired, stack, prevStack).Err?
      <==> stack != [] && exists i :: 0 <= i < |stack + prevStack| && Target(ctx, addrs, (stack + prevStack)[i]).Err?
  {
    BindAllOk(ctx, addrs, stack + prevStack);
  }

  /**
   * The merge reads back what the signer wrote: for a hash type that fits
   * in its byte, a produced signature splits into the key's DER bytes and
   * the hash type, and the merge checks it against the very digest it was
   * made over. Hence it targets the first address whose key verifies it.
   */
  lemma SignatureReadBack(ctx: SigContext, addrs: seq<Address>, hashType: HashType, key: PrivateKey)
    requires AllPubKey(addrs)
    requires hashType < 256
    requires Signer.MakeSignature(ctx, hashType, key).Ok?
    ensures var sig := Signer.MakeSignature(ctx, hashType, key).value;
      var der := sig[..|sig| - 1];
      && |sig| >= 1
      && Some(der) == ctx.env.signDigest(key, Signer.Digest(ctx, hashType).value)
      && sig[|sig| - 1] == hashType
      && CandidateDigest(ctx, sig[|sig| - 1]) == Signer.Digest(ctx, hashType)
      && (ctx.env.parseDER(der).Some? ==>
            var p := ctx.env.parseDER(der).value;
            var d := Signer.Digest(ctx, hashType).value;
            Target(ctx, addrs, sig) == match FirstVerifier(ctx.env, p, d, addrs, 0)
              case None => Ok(None)
              case Some(j) => Ok(Some(ctx.env.encode(addrs[j]))))
  {
    var sig := Signer.MakeSignature(ctx, hashType, key).value;
    assert hashType % 256 == hashType;
    if ctx.version == 1 {
      assert Signer.Digest(ctx, hashType) == Signer.WitnessDigest(ctx.env, ctx.script, ctx.amt, hashType);
    } else {
      assert Signer.Digest(ctx, hashType) == Signer.LegacyDigest(ctx.env, ctx.script, hashType);
    }
  }
}
