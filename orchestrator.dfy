/**
 * SignTxWitness and SignTxOutput of txscript/sign.go: sign the locking
 * script, resolve at most one level of pay-to-script-hash (BIP 16) and one
 * of pay-to-witness-script-hash (BIP 141), re-sign a pay-to-witness-pubkey-
 * hash output with the BIP 143 digest, merge with the previous signature
 * script or witness, and assemble the final script and witness.
 */
module Orchestrator {
  import opened Types
  import opened Signer
  import opened Merge

  /**
   * Where the resolution stands: the latest `sign` result, the digest
   * version, the script that result is for, and the redeem and witness
   * scripts met on the way.
   */
  datatype Stage = Stage(out: SignOutput, version: int, script: Bytes, redeem: Option<Bytes>, witnessScript: Option<Bytes>)

  /** The first step: sign the locking script itself, as version 0 with no amount. */
  function SignLockingScript(env: Env, kdb: KeyDB, sdb: ScriptDB, pkScript: Bytes, hashType: HashType): (r: Result<Stage>)
    requires WellFormedEnv(env)
    ensures r.Ok? ==> Succeeded(r.value.out) && r.value == Stage(r.value.out, 0, pkScript, None, None)
    ensures r.Err? <==> Sign(env, kdb, sdb, pkScript, 0, 0, hashType).err.Some?
    ensures r.Err? ==> r.error == Sign(env, kdb, sdb, pkScript, 0, 0, hashType).err.value
    ensures r.Ok? ==> r.value.out == Sign(env, kdb, sdb, pkScript, 0, 0, hashType)
  {
    var out := Sign(env, kdb, sdb, pkScript, 0, 0, hashType);
    if out.err.Some? then Err(out.err.value) else Ok(Stage(out, 0, pkScript, None, None))
  }

  /**
   * The pay-to-script-hash step: the redeem script is signed in turn
   * (version 0, no amount) and may not itself be pay-to-script-hash.
   */
  function ResolveScriptHash(env: Env, kdb: KeyDB, sdb: ScriptDB, hashType: HashType, st: Stage): (r: Result<Stage>)
    requires WellFormedEnv(env) && Succeeded(st.out)
    ensures st.out.scriptClass != ScriptHashTy ==> r == Ok(st)
    ensures st.out.scriptClass == ScriptHashTy ==>
      var redeem := st.out.stack[0];
      var out := Sign(env, kdb, sdb, redeem, 0, 0, hashType);
      && (out.err.Some? ==> r == Err(out.err.value))
      && (out.err.None? && out.scriptClass == ScriptHashTy ==> r == Err(NestedP2SH))
      && (r.Ok? <==> out.err.None? && out.scriptClass != ScriptHashTy)
      && (r.Ok? ==> r.value == Stage(out, 0, redeem, Some(redeem), st.witnessScript))
    ensures r.Ok? ==> Succeeded(r.value.out) && r.value.out.scriptClass != ScriptHashTy
  {
    if st.out.scriptClass != ScriptHashTy then Ok(st)
    else
      var redeem := st.out.stack[0];
      var out := Sign(env, kdb, sdb, redeem, 0, 0, hashType);
      if out.err.Some? then Err(out.err.value)
      else if out.scriptClass == ScriptHashTy then Err(NestedP2SH)
      else Ok(Stage(out, 0, redeem, Some(redeem), st.witnessScript))
  }

  /**
   * The witness step. A pay-to-witness-script-hash output has its witness
   * script signed as version 1 with the amount, and that script may be
   * neither kind of script hash. A pay-to-witness-pubkey-hash output is
   * signed again as version 1 with the key of its address.
   */
  function ResolveWitness(env: Env, kdb: KeyDB, sdb: ScriptDB, amt: int, hashType: HashType, st: Stage): (r: Result<Stage>)
    requires WellFormedEnv(env) && Succeeded(st.out) && st.out.scriptClass != ScriptHashTy
    ensures st.out.scriptClass == WitnessV0ScriptHashTy ==>
      var ws := st.out.stack[0];
      var out := Sign(env, kdb, sdb, ws, amt, 1, hashType);
      && (out.err.Some? ==> r == Err(out.err.value))
      && (out.err.None? && out.scriptClass == ScriptHashTy ==> r == Err(P2SHInsideP2WSH))
      && (out.err.None? && out.scriptClass == WitnessV0ScriptHashTy ==> r == Err(P2WSHInsideP2WSH))
      && (r.Ok? <==> out.err.None? && out.scriptClass != ScriptHashTy && out.scriptClass != WitnessV0ScriptHashTy)
      && (r.Ok? ==> r.value == Stage(out, 1, ws, st.redeem, Some(ws)))
    ensures st.out.scriptClass == WitnessV0PubKeyHashTy ==>
      var a := st.out.addresses[0];
      && (a !in kdb ==> r == Err(KeyNotFound(a)))
      && (a in kdb ==>
            var p := SignP2pkh(SigContext(env, st.script, amt, 1), hashType, kdb[a].key, kdb[a].compressed);
            && (p.Err? ==> r == Err(p.error))
            && (p.Ok? ==> r == Ok(st.(out := st.out.(stack := p.value), version := 1))))
    ensures st.out.scriptClass != WitnessV0ScriptHashTy && st.out.scriptClass != WitnessV0PubKeyHashTy ==> r == Ok(st)
    ensures r.Ok? ==>
      Succeeded(r.value.out) && r.value.out.scriptClass != ScriptHashTy && r.value.out.scriptClass != WitnessV0ScriptHashTy
  {
    if st.out.scriptClass == WitnessV0ScriptHashTy then
      var ws := st.out.stack[0];
      var out := Sign(env, kdb, sdb, ws, amt, 1, hashType);
      if out.err.Some? then Err(out.err.value)
      else if out.scriptClass == ScriptHashTy then Err(P2SHInsideP2WSH)
      else if out.scriptClass == WitnessV0ScriptHashTy then Err(P2WSHInsideP2WSH)
      else Ok(Stage(out, 1, ws, st.redeem, Some(ws)))
    else if st.out.scriptClass == WitnessV0PubKeyHashTy then
      var a := st.out.addresses[0];
      if a !in kdb then Err(KeyNotFound(a))
      else match SignP2pkh(SigContext(env, st.script, amt, 1), hashType, kdb[a].key, kdb[a].compressed)
        case Err(e) => Err(e)
        case Ok(stack) => Ok(st.(out := st.out.(stack := stack), version := 1))
    else Ok(st)
  }

  /**
   * The whole resolution. It ends on a class that is neither kind of
   * script hash, signed for the innermost script met, as version 1 exactly
   * when a witness program was met.
   */
  function Resolve(env: Env, kdb: KeyDB, sdb: ScriptDB, pkScript: Bytes, amt: int, hashType: HashType): (r: Result<Stage>)
    requires WellFormedEnv(env)
    ensures r.Ok? ==> var st := r.value;
      && Succeeded(st.out)
      && st.out.scriptClass != ScriptHashTy && st.out.scriptClass != WitnessV0ScriptHashTy
      && st.script == (if st.witnessScript.Some? then st.witnessScript.value
                       else if st.redeem.Some? then st.redeem.value else pkScript)
      && (st.version == 1 <==> st.witnessScript.Some? || st.out.scriptClass == WitnessV0PubKeyHashTy)
      && (st.version == 0 || st.version == 1)
  {
    match SignLockingScript(env, kdb, sdb, pkScript, hashType)
    case Err(e) => Err(e)
    case Ok(st0) =>
      match ResolveScriptHash(env, kdb, sdb, hashType, st0)
      case Err(e) => Err(e)
      case Ok(st1) => ResolveWitness(env, kdb, sdb, amt, hashType, st1)
  }

  /** Drop one trailing copy of `x` from `s`, if `s` ends with it. */
  function StripTrailing(s: seq<Bytes>, x: Bytes): (r: seq<Bytes>)
    ensures r + [x] == s <==> |s| > 0 && s[|s| - 1] == x
    ensures !(|s| > 0 && s[|s| - 1] == x) ==> r == s
  {
    if |s| > 0 && s[|s| - 1] == x then s[..|s| - 1] else s
  }

  /** What SignTxWitness returns: the signature script and the witness. */
  datatype Signed = Signed(script: Bytes, witnessStack: seq<Bytes>)

  /**
   * The stages after resolution: merge the new stack with the previous
   * data of the same kind (without a repeated redeem or witness script),
   * push the legacy stack and the redeem script, append the witness script
   * to the witness.
   */
  function Assemble(env: Env, amt: int, st: Stage, prevStack: seq<Bytes>, prevWitness: seq<Bytes>): (r: Result<Signed>)
    requires Succeeded(st.out)
    ensures var ctx := SigContext(env, st.script, amt, st.version);
      var prev := if st.redeem.Some? then StripTrailing(prevStack, st.redeem.value) else prevStack;
      var pw := if st.witnessScript.Some? then StripTrailing(prevWitness, st.witnessScript.value) else prevWitness;
      var merged := MergeScriptsResult(ctx, st.out.scriptClass, st.out.addresses, st.out.nRequired, st.out.stack,
                                       if st.version == 1 then pw else prev);
      var redeemPush := if st.redeem.Some? then [st.redeem.value] else [];
      && (merged.Err? ==> r == Err(merged.error))
      && (merged.Ok? && st.version == 1 ==> (r.Ok? <==> env.buildScript(redeemPush).Some?))
      && (merged.Ok? && st.version != 1 ==> (r.Ok? <==> env.buildScript(merged.value + redeemPush).Some?))
      && (r.Ok? && st.version == 1 ==> Some(r.value.script) == env.buildScript(redeemPush))
      && (r.Ok? && st.version != 1 ==> Some(r.value.script) == env.buildScript(merged.value + redeemPush))
      && (r.Ok? && st.version == 1 && st.witnessScript.Some? ==> r.value.witnessStack == merged.value + [st.witnessScript.value])
      && (r.Ok? && st.version == 1 && st.witnessScript.None? ==> r.value.witnessStack == merged.value)
      && (r.Ok? && st.version != 1 && st.witnessScript.None? ==> r.value.witnessStack == [])
  {
    var ctx := SigContext(env, st.script, amt, st.version);
    var prev := if st.redeem.Some? then StripTrailing(prevStack, st.redeem.value) else prevStack;
    var pw := if st.witnessScript.Some? then StripTrailing(prevWitness, st.witnessScript.value) else prevWitness;
    var merged := MergeScriptsResult(ctx, st.out.scriptClass, st.out.addresses, st.out.nRequired, st.out.stack,
                                     if st.version == 1 then pw else prev);
    match merged
    case Err(e) => Err(e)
    case Ok(m) =>
      var scriptStack := if st.version == 1 then [] else m;
      var witnessStack := if st.version == 1 then m else [];
      var redeemPush := if st.redeem.Some? then [st.redeem.value] else [];
      var pushes := scriptStack + redeemPush;
      assert st.version == 1 ==> pushes == redeemPush;
      match env.buildScript(pushes)
      case None => Err(ScriptBuildError)
      case Some(s) => Ok(Signed(s, witnessStack + (if st.witnessScript.Some? then [st.witnessScript.value] else [])))
  }

  /** What SignTxWitness returns for a locking script, the previous signature script and the previous witness. */
  function SignTxWitnessResult(env: Env, kdb: KeyDB, sdb: ScriptDB, pkScript: Bytes, amt: int, hashType: HashType,
                               previousScript: Bytes, previousWitness: seq<Bytes>): (r: Result<Signed>)
    requires WellFormedEnv(env)
    ensures env.pushedData(previousScript).None? ==> r == Err(PushedDataError)
    ensures env.pushedData(previousScript).Some? ==>
      match Resolve(env, kdb, sdb, pkScript, amt, hashType)
      case Err(e) => r == Err(e)
      case Ok(st) => r == Assemble(env, amt, st, env.pushedData(previousScript).value, previousWitness)
  {
    match env.pushedData(previousScript)
    case None => Err(PushedDataError)
    case Some(prevStack) =>
      match Resolve(env, kdb, sdb, pkScript, amt, hashType)
      case Err(e) => Err(e)
      case Ok(st) => Assemble(env, amt, st, prevStack, previousWitness)
  }

  /**
   * SignTxWitness: the stage-by-stage computation, reassigning the stack,
   * class, script and digest version as the source does.
   */
  method SignTxWitness(env: Env, kdb: KeyDB, sdb: ScriptDB, pkScript: Bytes, amt: int, hashType: HashType,
                       previousScript: Bytes, previousWitness: seq<Bytes>) returns (r: Result<Signed>)
    requires WellFormedEnv(env)
    ensures r == SignTxWitnessResult(env, kdb, sdb, pkScript, amt, hashType, previousScript, previousWitness)
  {
    var pushed := env.pushedData(previousScript);
    if pushed.None? {
      return Err(PushedDataError);
    }
    var prevStack := pushed.value;
    var st := ResolveStages(env, kdb, sdb, pkScript, amt, hashType);
    if st.Err? {
      return Err(st.error);
    }
    r := AssembleOutput(env, amt, st.value, prevStack, previousWitness);
  }

  /** The signing half of SignTxWitness: sign, then resolve one script-hash level and one witness level. */
  method ResolveStages(env: Env, kdb: KeyDB, sdb: ScriptDB, pkScript: Bytes, amt: int, hashType: HashType) returns (r: Result<Stage>)
    requires WellFormedEnv(env)
    ensures r == Resolve(env, kdb, sdb, pkScript, amt, hashType)
  {
    var sigVersion := 0;
    var redeemScript: Option<Bytes> := None;
    var witnessScript: Option<Bytes> := None;
    var script := pkScript;
    var out := Sign(env, kdb, sdb, script, 0, sigVersion, hashType);
    if out.err.Some? {
      return Err(out.err.value);
    }
    ghost var st0 := Stage(out, 0, pkScript, None, None);
    if out.scriptClass == ScriptHashTy {
      redeemScript := Some(out.stack[0]);
      script := out.stack[0];
      out := Sign(env, kdb, sdb, script, 0, sigVersion, hashType);
      if out.err.Some? {
        return Err(out.err.value);
      }
      if out.scriptClass == ScriptHashTy {
        return Err(NestedP2SH);
      }
    }
    ghost var st1 := Stage(out, sigVersion, script, redeemScript, witnessScript);
    assert ResolveScriptHash(env, kdb, sdb, hashType, st0) == Ok(st1);
    if out.scriptClass == WitnessV0ScriptHashTy {
      sigVersion := 1;
      witnessScript := Some(out.stack[0]);
      script := out.stack[0];
      out := Sign(env, kdb, sdb, script, amt, sigVersion, hashType);
      if out.err.Some? {
        return Err(out.err.value);
      }
      if out.scriptClass == ScriptHashTy {
        return Err(P2SHInsideP2WSH);
      } else if out.scriptClass == WitnessV0ScriptHashTy {
        return Err(P2WSHInsideP2WSH);
      }
    } else if out.scriptClass == WitnessV0PubKeyHashTy {
      sigVersion := 1;
      var a := out.addresses[0];
      if a !in kdb {
        return Err(KeyNotFound(a));
      }
      var stack := SignP2pkh(SigContext(env, script, amt, sigVersion), hashType, kdb[a].key, kdb[a].compressed);
      if stack.Err? {
        return Err(stack.error);
      }
      out := out.(stack := stack.value);
    }
    r := Ok(Stage(out, sigVersion, script, redeemScript, witnessScript));
  }

  /** The output half of SignTxWitness: strip, merge, build the script and extend the witness. */
  method AssembleOutput(env: Env, amt: int, st: Stage, prevStack: seq<Bytes>, previousWitness: seq<Bytes>) returns (r: Result<Signed>)
    requires Succeeded(st.out)
    ensures r == Assemble(env, amt, st, prevStack, previousWitness)
  {
    var prev := prevStack;
    if st.redeem.Some? && |prev| > 0 && prev[|prev| - 1] == st.redeem.value {
      prev := prev[..|prev| - 1];
    }
    var pw := previousWitness;
    if st.witnessScript.Some? && |pw| > 0 && pw[|pw| - 1] == st.witnessScript.value {
      pw := pw[..|pw| - 1];
    }
    var ctx := SigContext(env, st.script, amt, st.version);
    var scriptStack: seq<Bytes> := [];
    var witnessStack: seq<Bytes> := [];
    if st.version == 1 {
      var merged := MergeScripts(ctx, st.out.scriptClass, st.out.addresses, st.out.nRequired, st.out.stack, pw);
      if merged.Err? {
        return Err(merged.error);
      }
      witnessStack := merged.value;
    } else {
      var merged := MergeScripts(ctx, st.out.scriptClass, st.out.addresses, st.out.nRequired, st.out.stack, prev);
      if merged.Err? {
        return Err(merged.error);
      }
      scriptStack := merged.value;
    }
    var pushes := scriptStack;
    if st.redeem.Some? {
      pushes := pushes + [st.redeem.value];
    }
    assert pushes == scriptStack + if st.redeem.Some? then [st.redeem.value] else [];
    var s := env.buildScript(pushes);
    if s.None? {
      return Err(ScriptBuildError);
    }
    if st.witnessScript.Some? {
      witnessStack := witnessStack + [st.witnessScript.value];
    }
    r := Ok(Signed(s.value, witnessStack));
  }

  /** What SignTxOutput returns: the signature script of SignTxWitness with no amount and no previous witness. */
  function SignTxOutputResult(env: Env, kdb: KeyDB, sdb: ScriptDB, pkScript: Bytes, hashType: HashType, previousScript: Bytes): (r: Result<Bytes>)
    requires WellFormedEnv(env)
    ensures var w := SignTxWitnessResult(env, kdb, sdb, pkScript, 0, hashType, previousScript, []);
      && (r.Ok? <==> w.Ok?)
      && (w.Err? ==> r.error == w.error)
      && (w.Ok? ==> r.value == w.value.script)
  {
    match SignTxWitnessResult(env, kdb, sdb, pkScript, 0, hashType, previousScript, [])
    case Err(e) => Err(e)
    case Ok(s) => Ok(s.script)
  }

  /** SignTxOutput: SignTxWitness with a zero amount and no previous witness, keeping only the script. */
  method SignTxOutput(env: Env, kdb: KeyDB, sdb: ScriptDB, pkScript: Bytes, hashType: HashType, previousScript: Bytes) returns (r: Result<Bytes>)
    requires WellFormedEnv(env)
    ensures r == SignTxOutputResult(env, kdb, sdb, pkScript, hashType, previousScript)
  {
    var w := SignTxWitness(env, kdb, sdb, pkScript, 0, hashType, previousScript, []);
    if w.Err? {
      return Err(w.error);
    }
    r := Ok(w.value.script);
  }

  /** `script` classifies as `c` and its first address has a script in `sdb`, which is returned. */
  predicate LooksUp(env: Env, sdb: ScriptDB, script: Bytes, c: ScriptClass, found: Bytes)
  {
    && env.classify(script).Ok?
    && env.classify(script).value.scriptClass == c
    && |env.classify(script).value.addresses| >= 1
    && env.classify(script).value.addresses[0] in sdb
    && sdb[env.classify(script).value.addresses[0]] == found
  }

  /**
   * A pay-to-script-hash redeem script that is itself pay-to-script-hash is
   * refused: with "cannot nest P2SH scripts" when its script is known, with
   * the failed lookup otherwise.
   */
  lemma NestedScriptHashRejected(env: Env, kdb: KeyDB, sdb: ScriptDB, pkScript: Bytes, amt: int, hashType: HashType,
                                 previousScript: Bytes, previousWitness: seq<Bytes>, redeem: Bytes)
    requires WellFormedEnv(env)
    requires env.pushedData(previousScript).Some?
    requires LooksUp(env, sdb, pkScript, ScriptHashTy, redeem)
    requires env.classify(redeem).Ok? && env.classify(redeem).value.scriptClass == ScriptHashTy
    requires |env.classify(redeem).value.addresses| >= 1
    ensures var r := SignTxWitnessResult(env, kdb, sdb, pkScript, amt, hashType, previousScript, previousWitness);
      && r.Err?
      && (env.classify(redeem).value.addresses[0] in sdb ==> r == Err(NestedP2SH))
  {
    assert ClassifiesWell(env, redeem);
    assert ClassifiesWell(env, pkScript);
  }

  /**
   * A witness script that is pay-to-script-hash or pay-to-witness-script-
   * hash is refused, whether the witness program is the locking script or
   * is nested in a pay-to-script-hash redeem script.
   */
  lemma NestedInWitnessScriptHashRejected(env: Env, kdb: KeyDB, sdb: ScriptDB, pkScript: Bytes, amt: int, hashType: HashType,
                                          previousScript: Bytes, previousWitness: seq<Bytes>, program: Bytes, ws: Bytes)
    requires WellFormedEnv(env)
    requires env.pushedData(previousScript).Some?
    requires program == pkScript || LooksUp(env, sdb, pkScript, ScriptHashTy, program)
    requires LooksUp(env, sdb, program, WitnessV0ScriptHashTy, ws)
    requires env.classify(ws).Ok?
    requires env.classify(ws).value.scriptClass == ScriptHashTy || env.classify(ws).value.scriptClass == WitnessV0ScriptHashTy
    requires |env.classify(ws).value.addresses| >= 1
    ensures var r := SignTxWitnessResult(env, kdb, sdb, pkScript, amt, hashType, previousScript, previousWitness);
      && r.Err?
      && (env.classify(ws).value.addresses[0] in sdb ==>
            r == Err(if env.classify(ws).value.scriptClass == ScriptHashTy then P2SHInsideP2WSH else P2WSHInsideP2WSH))
  {
    assert ClassifiesWell(env, pkScript);
    assert ClassifiesWell(env, program);
    assert ClassifiesWell(env, ws);
  }
}
