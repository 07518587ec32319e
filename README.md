# Transaction-input signing and signature merging in btcd's txscript

This project models two parts of btcd's `txscript` package.

**The signer** (`txscript/sign.go`) produces unlocking data for one transaction input. It works in four layers:

- **Producers.** They make a signature, which is the DER bytes followed by one hash-type byte. From signatures they build the pay-to-pubkey stack `[sig]`, the pay-to-pubkey-hash stack `[sig, pubkey]` and a best-effort multisig stack.
- **Dispatch.** `sign` classifies the locking script and runs the producer its template calls for.
- **Merge.** `mergeScripts` and `mergeMultiSig` combine a new partial stack with a previous one for the same output.
- **Orchestration.** `SignTxWitness` and `SignTxOutput` do three things:
  - they resolve one level of pay-to-script-hash (BIP 16) and one level of pay-to-witness-script-hash (BIP 141);
  - they re-sign pay-to-witness-pubkey-hash outputs over the BIP 143 digest;
  - they strip a repeated redeem or witness script from the previous data, merge, and assemble the final signature script and witness.

**The signature-hash cache and sign-operation log** (`txscript/signop_cache.go`) are two small stateful classes:

- a map from hash type to digest;
- an append-only list of the signature-checking operations a script evaluation ran.

Collaborators the signer cannot see are fields of the `Env` datatype. Each is a function value:

- the script classifier (ExtractPkScriptAddrs);
- script parsing;
- the legacy and BIP 143 digests;
- ECDSA signing to DER, DER parsing and verification;
- public-key serialisation;
- address encoding;
- PushedData;
- the script builder.

The transaction, input index and BIP 143 midstates are fixed inside the digest closures. The key and script stores (`KeyDB`, `ScriptDB`) are partial maps, and a missing entry is the lookup error. The `addrToSig` map of the merge is keyed by the encoded address string, as the source keys it. The model does not assume that encoding is injective.

Files:

- `types.dfy`: the shared vocabulary, plus the sequence helpers both loops use. `Gather` is the "append present values until `n` are there" walk, and `TakeFirst`/`Somes` are its reference definition.
- `signer.dfy`: the producers and `sign`.
- `merge.dfy`: `mergeScripts` and `mergeMultiSig` as methods, proved equal to functional specifications.
- `merge_props.dfy`: what the merge guarantees.
- `orchestrator.dfy`: `SignTxWitness` and `SignTxOutput`.
- `signop_cache.dfy`: `SigHashCache`, `SignOp` and `SignOpCache`.

Two behaviours of the merge differ from what a reader might expect. The model follows the code in both:

- **Ties in the non-multisig merge.** One might expect "the longest stack wins" to prefer the new stack on a tie. mergeScripts instead keeps the previous stack when the two stacks have equal length (`len(stack) > len(prevStack)` at `txscript/sign.go:267`).
- **The empty placeholder is pooled.** One might expect the placeholder to be discarded up front. mergeMultiSig pools every element of both stacks, including the empty placeholder a previous signMultiSig put first. That element is dropped only because it is shorter than one byte, or because it does not parse as DER.

Two defects in `txscript/signop_cache.go` stop the code from compiling, so the model uses the evidently intended meaning:

- **GetOp returns one value, not two.** At line 116 it returns a single value from a two-result function; the model returns the operation and no error.
- **GetSigHash has the wrong declared type.** At lines 71-76 it returns a `*chainhash.Hash` where `[]*btcec.PublicKey` is declared. The model returns `Option<Hash>`.

The off-by-one guard of GetOp is a finding below.

## Model

| member | source | states |
|---|---|---|
| Seqs.GatherTakesFirst | txscript/sign.go:155-169 | walking the attempts (or address lookups) and stopping once `n` values are appended yields exactly the first `n` present values, or all of them when `n < 1` or there are fewer |
| Seqs.GatherStops | txscript/sign.go:166-168 | once `n` values are appended the walk ignores the rest of the input, which justifies the early `break` |
| Signer.LegacyDigest | txscript/sign.go:67-70 | the legacy digest fails exactly when the subscript does not parse and is otherwise the legacy hash of that subscript |
| Signer.WitnessDigest | txscript/sign.go:27-36 | the BIP 143 digest fails when the subscript does not parse or the digest collaborator fails; otherwise it is that digest |
| Signer.SignDigest | txscript/sign.go:38-42 | a digest error propagates; signing fails exactly when the key cannot sign; a signature is DER bytes followed by the low byte of the hash type, and splits back into the key's DER bytes |
| Signer.RawTxInSignature | txscript/sign.go:64-77 | an unparsable subscript is an error; otherwise a signature exists iff the key signs the legacy digest, and is its DER bytes followed by `hashType % 256` |
| Signer.RawTxInWitnessSignature | txscript/sign.go:22-43 | an unparsable subscript or failed BIP 143 digest is an error; otherwise a signature exists iff the key signs the BIP 143 digest, a signing failure is "cannot sign tx input", and a signature is its DER bytes followed by `hashType % 256` |
| Signer.MakeSignature | txscript/sign.go:79-84 | version 1 routes to the witness signature and any other version to the legacy one; the result is DER bytes over the chosen digest plus the hash-type byte |
| Signer.SignP2pk | txscript/sign.go:129-139 | the stack is exactly `[sig]`; a signing error propagates |
| Signer.SignP2pkh | txscript/sign.go:108-126 | the stack is exactly `[sig, pk]` with `pk` serialised compressed iff `compress`; a signing error propagates |
| Signer.SignatureScript | txscript/sign.go:95-105 | the script is the builder's pushes of the legacy signature and the public key; a signing or build error is returned |
| Signer.WitnessSignature | txscript/sign.go:50-60 | the witness is exactly the BIP 143 signature followed by the public key, or the signing error |
| Signer.AttemptsProduced | txscript/sign.go:155-164 | every collected multisig signature was made with the key of one of the listed addresses |
| Signer.MultiSigStack | txscript/sign.go:145-172 | the stack is the empty placeholder followed by the first `nRequired` signatures, in address order, of the addresses whose key is known and whose signing succeeds; so at most `1 + nRequired` entries for `nRequired >= 1`, and every entry after the first was produced for a listed address |
| Signer.SignMultiSig | txscript/sign.go:145-172 | the loop builds exactly `MultiSigStack`; the flag is true iff exactly `nRequired` signatures were added; there is no error result |
| Signer.Sign | txscript/sign.go:174-245 | a classifier error gives class NonStandard; NullData and unknown classes fail; script-hash classes give exactly `[script]` or the lookup error; single-key classes give the key-lookup error, the signing error, `[sig]` or `[sig, pk]`; multisig always succeeds with `MultiSigStack`; success means a well-formed classification |
| Merge.CandidateDigest | txscript/sign.go:318-331 | for version 1 the digest is the BIP 143 digest, or a digest error when that fails; for any other version it is the legacy digest of the locking script |
| Merge.FirstVerifier | txscript/sign.go:333-350 | the result is the first address index whose public key verifies the signature, and no earlier one does; none when no key verifies it |
| Merge.Target | txscript/sign.go:302-350 | an empty candidate or one whose bytes (without the hash-type byte) are not DER goes nowhere; the merge fails exactly when its digest fails |
| Merge.TargetVerifies | txscript/sign.go:333-350 | a candidate is bound to the encoding of the first listed address whose key verifies it, and is dropped only when no listed key verifies it |
| Merge.BindOne | txscript/sign.go:344-349 | one round never removes or changes an existing binding, and a new binding holds this candidate under the address it targets |
| Merge.BindFrom | txscript/sign.go:302-351 | definition: the signature loop as a left fold of BindOne over the candidates, stopping at the first error; its properties are the MergeProps lemmas |
| Merge.BindAll | txscript/sign.go:300-351 | definition: the loop from an empty addrToSig map; properties in MergeProps.BindAllOk, BindAllBinds and BindAllFirstWins |
| Merge.Rebuild | txscript/sign.go:354-377 | the rebuilt stack starts with OP_FALSE, has exactly `1 + nRequired` entries when `nRequired >= 1`, and every later entry is a bound signature or OP_0 |
| Merge.MergeMultiSigResult | txscript/sign.go:280-378 | definition of what mergeMultiSig returns; properties in MergeProps.MergeFails, MergedStackShape and MergeWithItself |
| Merge.MergeMultiSig | txscript/sign.go:280-378 | the method (pooling, binding loop, rebuild, padding) returns exactly `MergeMultiSigResult`: `prevStack` for an empty stack, the digest error, or the rebuilt stack |
| Merge.BindCandidate | txscript/sign.go:302-351 | the body of the signature loop computes exactly one `BindOne` round, including the early return on a digest error |
| Merge.RebuildStack | txscript/sign.go:354-377 | the rebuilt stack is OP_FALSE, the first `nRequired` bound signatures in address order, then OP_0 for each missing one |
| Merge.CollectBound | txscript/sign.go:356-370 | the address loop appends bound signatures in address order, stops at `nRequired`, and counts them in `doneSigs` |
| Merge.AppendPadding | txscript/sign.go:373-375 | the padding loop appends OP_0 exactly `nRequired - doneSigs` times (none when that is not positive) |
| Merge.BindAllStopsAtError | txscript/sign.go:323-328 | once a digest error occurs the remaining candidates cannot change the outcome |
| Merge.MergeScriptsResult | txscript/sign.go:253-272 | multisig goes to the multisig merge; any other class never fails and returns `stack` iff it is strictly longer than `prevStack`, else `prevStack` |
| Merge.MergeScripts | txscript/sign.go:253-272 | the method returns exactly `MergeScriptsResult` |
| MergeProps.BindFromConcat | txscript/sign.go:301-351 | the signature loop over two concatenated lists is the loop over the second continued from the first |
| MergeProps.BindFromError | txscript/sign.go:326-328 | an error, once reached, is the loop's result |
| MergeProps.BindAllOk | txscript/sign.go:323-328 | the binding loop fails exactly when some pooled candidate's digest fails |
| MergeProps.BindAllBinds | txscript/sign.go:333-350 | without errors an address is bound iff some pooled candidate targets it |
| MergeProps.BindAllFirstWins | txscript/sign.go:344-350 | without errors every bound address holds the first pooled candidate targeting it, and every first candidate for an address is the one bound |
| MergeProps.StackWins | txscript/sign.go:291-293 | a candidate of the new stack that targets an address makes that address hold a new-stack candidate examined no later, never a previous-stack one |
| MergeProps.SkippedCandidate | txscript/sign.go:306-315 | removing an empty, non-DER or unverifiable candidate from the pool changes nothing |
| MergeProps.BindFromAbsorbs | txscript/sign.go:346-348 | candidates already examined bind nothing new when examined again |
| MergeProps.MergeWithItself | txscript/sign.go:291-350 | merging a stack with a copy of itself gives the same result as merging it with nothing |
| MergeProps.BoundEntries | txscript/sign.go:333-365 | every address the rebuild finds a signature for holds the first pooled candidate targeting its encoding, and that candidate verifies under the key of an address with that encoding |
| MergeProps.LookupBound | txscript/sign.go:360-364 | the signature the rebuild looks up for an address is the candidate bound to that address, as BoundEntries describes |
| Seqs.SomesPositions | txscript/sign.go:360-370 | the positions the present values come from are in range, hold those values, and strictly increase |
| Seqs.SomesPositionsComplete | txscript/sign.go:360-364 | every address position whose lookup holds a signature is among the collected positions |
| Seqs.TakenComplete | txscript/sign.go:360-370 | taking the first `n` passes over no position before the last one taken, and takes every position when fewer than `n` hold values |
| Seqs.TakenAt | txscript/sign.go:360-370 | the first `n` present values sit, in order, at strictly increasing positions of the input |
| MergeProps.RebuildShape | txscript/sign.go:354-377 | for `nRequired >= 1` the rebuilt stack is OP_FALSE, then the signatures bound to the addresses at strictly increasing positions, then OP_0 up to `1 + nRequired` entries |
| MergeProps.MergedStackShape | txscript/sign.go:354-377 | for `nRequired >= 1` the merged stack has exactly `1 + nRequired` entries: OP_FALSE, then the candidates bound to the addresses at `TakenPositions` (strictly increasing, so in address order), each the first pooled candidate for that address's encoding verifying under that address's key (or that of an address with the same encoding), then OP_0 padding; no bound address is passed over, since every bound address is taken when fewer than `nRequired` are, and otherwise every bound address up to the last one taken |
| MergeProps.MergeFails | txscript/sign.go:283-328 | the multisig merge fails exactly when the new stack is non-empty and some pooled candidate's digest fails |
| MergeProps.SignatureReadBack | txscript/sign.go:308-331 | for a hash type below 256 a produced signature splits into the key's DER bytes and the hash type, and the merge checks it against the very digest it was made over |
| Orchestrator.SignLockingScript | txscript/sign.go:443-447 | the locking script is signed as version 0 with no amount; it fails exactly when that `sign` fails, with its error, and otherwise carries that `sign` result |
| Orchestrator.ResolveScriptHash | txscript/sign.go:449-466 | a P2SH redeem script is signed at version 0 and becomes the script; a sign error propagates; P2SH inside P2SH gives "cannot nest P2SH scripts"; it succeeds exactly when the redeem script signs and is not P2SH; other classes pass unchanged |
| Orchestrator.ResolveWitness | txscript/sign.go:468-501 | a P2WSH witness script is signed at version 1 with the amount; P2SH or P2WSH inside it is refused with the matching error, and it succeeds exactly when the witness script signs and is neither; P2WPKH is re-signed at version 1 with its address's key, or fails with the lookup or signing error |
| Orchestrator.Resolve | txscript/sign.go:443-501 | on success the final class is neither script-hash kind, the script is the innermost one met, and the version is 1 exactly when a witness program was met |
| Orchestrator.StripTrailing | txscript/sign.go:460-465 | one trailing copy of the redeem or witness script is removed exactly when the previous data ends with it |
| Orchestrator.Assemble | txscript/sign.go:503-532 | the merge runs on the witness (version 1) or the signature stack (version 0) with the repeated script stripped; the script is the pushes of the merged legacy stack and then the redeem script; the witness is the merged witness followed by the witness script, and empty for version 0 without a witness script |
| Orchestrator.SignTxWitnessResult | txscript/sign.go:432-533 | an unparsable previous script is an error; otherwise resolution errors propagate and success is the assembled output |
| Orchestrator.SignTxWitness | txscript/sign.go:432-533 | the method returns exactly `SignTxWitnessResult` |
| Orchestrator.ResolveStages | txscript/sign.go:434-501 | the stage-by-stage reassignment of stack, class, script and version computes exactly `Resolve` |
| Orchestrator.AssembleOutput | txscript/sign.go:460-532 | the stripping, merge, builder pushes and witness append compute exactly `Assemble` |
| Orchestrator.SignTxOutputResult | txscript/sign.go:417-423 | SignTxOutput succeeds exactly when SignTxWitness with a zero amount and no previous witness does, and returns its script |
| Orchestrator.SignTxOutput | txscript/sign.go:417-423 | the method returns exactly `SignTxOutputResult` |
| Orchestrator.NestedScriptHashRejected | txscript/sign.go:449-459 | P2SH whose redeem script is P2SH always fails, with "cannot nest P2SH scripts" when the inner script is known |
| Orchestrator.NestedInWitnessScriptHashRejected | txscript/sign.go:468-481 | a witness script that is P2SH or P2WSH always fails, whether the witness program is the locking script or sits inside P2SH, with the matching nesting error when the inner script is known |
| SignOps.SigHashCache.constructor | txscript/signop_cache.go:41-45 | a fresh cache is empty: Contains is false and Find gives nothing for every hash type |
| SignOps.SigHashCache.Add | txscript/signop_cache.go:19-21 | afterwards Contains holds and Find returns exactly the added hash; every other hash type is unchanged |
| SignOps.SigHashCache.Contains | txscript/signop_cache.go:24-27 | definition: a hash is cached for the hash type; its properties sit in the constructor, Add and Find |
| SignOps.SigHashCache.Find | txscript/signop_cache.go:31-37 | Find gives nothing iff Contains is false, otherwise the cached hash |
| SignOps.SignOp.IsCheckSig | txscript/signop_cache.go:57-59 | definition: OP_CHECKSIG or OP_CHECKSIGVERIFY; its properties sit in NewSignOp and CheckSig |
| SignOps.SignOp.IsCheckMultiSig | txscript/signop_cache.go:63-65 | definition: OP_CHECKMULTISIG or OP_CHECKMULTISIGVERIFY; its properties sit in NewSignOp and CheckMultiSig |
| SignOps.SignOp.GetKeys | txscript/signop_cache.go:67-69 | accessor without a contract of its own; CheckSig and CheckMultiSig ensure that the keys read back through it are the keys recorded |
| SignOps.SignOp.GetSigHash | txscript/signop_cache.go:71-76 | the hash cached for the hash type in the operation's shared cache, or nothing when none is cached |
| SignOps.NewSignOp | txscript/signop_cache.go:92-97 | the opcode is bumped by one iff `verify`; the other fields are stored as given; a CHECKSIG record is check-sig and a CHECKMULTISIG record is check-multisig for either flag |
| SignOps.SignOpCache.constructor | txscript/signop_cache.go:120-124 | a fresh log has no operations and GetOp fails for every index |
| SignOps.SignOpCache.CheckSig | txscript/signop_cache.go:100-102 | exactly one check-sig record needing one signature is appended, VERIFY iff `isVerify`, with the given keys and cache; GetKeys reads back the given keys and GetSigHash the given cache's hashes; earlier entries and their indices are unchanged |
| SignOps.SignOpCache.CheckMultiSig | txscript/signop_cache.go:105-107 | exactly one check-multisig record with the given count, keys and cache is appended, VERIFY iff `isVerify`; GetKeys reads back the given keys and GetSigHash the given cache's hashes; earlier entries are unchanged |
| SignOps.SignOpCache.GetOp | txscript/signop_cache.go:111-117 | the intended lookup gives the operation at `idx` iff `0 <= idx < len`, else "No operation at idx" |
| SignOps.SignOpCache.GetOpAsWritten | txscript/signop_cache.go:111-117 | the lookup as written panics exactly at `idx == len` and otherwise agrees with the intended one |
| SignOps.GetOpOffByOne | txscript/signop_cache.go:112-116 | on a log of one operation, index 1 passes the written guard and panics, whereas the intended lookup refuses it |

## Left out

- ECDSA signing, DER encoding and parsing, signature verification and public-key serialisation are abstract functions in `Env`; curve arithmetic is not modelled.
- The legacy and BIP 143 digest computations are abstract functions:
  - CalcSignatureHash, calcSignatureHash and calcWitnessSignatureHash live in files that are not part of this model;
  - CalcSignatureHash is taken to be "parse the subscript, then calcSignatureHash";
  - TxSigHashes midstates are inside the closures.
- A nil `sigHashes` is not modelled. SignTxOutput passes nil; in the model the BIP 143 digest is whatever `witnessSigHash` returns.
- ExtractPkScriptAddrs, parseScript, PushedData and the ScriptBuilder opcode encoding are abstract collaborators:
  - `pushedData` returns the pushes or fails;
  - `buildScript` returns the script for a list of pushes, or fails (AddData for each push, then Script).
  - The classifier is assumed to return at least one address for single-address classes, and only pay-to-pubkey addresses for multisig. The type assertion at `txscript/sign.go:337` relies on the latter.
- Merge.CandidateDigest: in mergeMultiSig the locking script is parsed with its error ignored (`txscript/sign.go:289`). The model hashes the script as given and does not model what an unparsable script would feed the digest.
- Address internals and EncodeAddress formats are abstract. `encode` is not assumed injective. The merge binds by encoding, so MergeProps.BoundEntries and MergedStackShape say that an entry verifies under the key of an address with the same encoding as the one it is bound to.
- KeyDB.GetKey and ScriptDB.GetScript can report arbitrary errors; the model has one error per missing key or script.
- SignTxWitness only checks for a nil redeem or witness script (`txscript/sign.go:521`, `:528`); a nil script returned by the script store is not told apart. The model distinguishes only "met" from "not met".
- SigHashCache.Add with a nil hash is not modelled.
- Concurrency: nothing in the code is concurrent.
- The benchmark in `btcec/b_test.go` (file I/O, timing) is not part of this model. `txscript/signop_cache_test.go` drives the script engine, which is not part of this model either; its loop over indices `0..len-1` is the use of GetOp the intended guard keeps safe.
- MergeProps.SignatureReadBack: stated only for hash types below 256. The signature keeps only the low byte of the hash type (`byte(hashType)`), and the merge recomputes the digest for that truncated type.

## Findings

| source | as written | input that shows it | evidently intended | confidence | as-written member | corrected member |
|---|---|---|---|---|---|---|
| txscript/signop_cache.go:112 | `if idx < 0 \|\| idx > len(opCache.ops)` refuses only indices past the end, so `idx == len` reaches `opCache.ops[idx]` and panics | a log holding one operation and `idx = 1` | refuse every `idx >= len` with "No operation at idx" | not executed | SignOps.SignOpCache.GetOpAsWritten | SignOps.SignOpCache.GetOp |
