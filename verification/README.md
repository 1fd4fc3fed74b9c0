# Layer-GKR: a verified model

This project models `layergkr/`, the prover and verifier prototype of VerInf over the Goldilocks
field P = 2^64 - 2^32 + 1, together with the top-k guards of `prover/topk_params.py`, and proves
what they promise.

- **Field and polynomials** (`NumberTheory`, `Field`, `Polynomial`, `Interpolation`). P is proved
  prime, so no result rests on a hypothesis about the modulus. Root counting and Lagrange
  interpolation, repeated arguments included, come from there.
- **Sumcheck** (`Sumcheck`, `Protocol`, `Prover`, `Verifier`, `Products`, `Soundness`, `Hiding`,
  `Charges`, `CountModel`). The round loops as they run, with the mask tape and the round transcript,
  proved against the protocol on values; completeness, soundness as a count of challenge vectors,
  hiding as a bijection of tapes, and the charged operations against their closed form.
- **Routed experts** (`Permutation`, `Confusion`, `Forgeries`, `Sorting`, `Order`, `Scan`, `Moe`,
  `MoeStep`). The sorted stream, the segmented scan and the identity that collapses a routed contraction to a scalar.
- **Integer layer** (`Lifting`, `Gates`, `Demands`, `Semantics`, `Forward`, `Flow`, `Emitter`). The
  builder that emits gates and queries while it computes, the arbiter, the quotient range, the
  closed-form counts, and when exactly the layer runs to its end. The data flow of the trace is stated
  over the trace itself: what every contraction reads, what every query asks, and that every step has
  its gate and its range queries.
- **Commitments and the seam** (`Domain`, `Rs`, `Merkle`, `Commit`, `Projection`, `Seam`, `Rows`,
  `PowerOfTwo`). The code and its distance, paths, block-major enrolment, projections.
- **Lookups and gates** (`EqWeights`, `Relations`, `Logup`, `LogupProver`, `Fractions`, `LogupSound`,
  `UnionBound`, `Transcript`). Completeness as exact conditions; for wrong counts and failing gates,
  how few of all coins together let them pass.
- **Whole layers** (`Contraction`, `MatmulStep`, `DenseLayer`, `Chain`; `FullVerifier`, `Enrolling`,
  `FullMatmul`, `FullMoE`, `LayerRun`, `FullProver`; `SeamSound`, `FullSound`). Prover and verifier run
  one after the other, for dense chains and for the full layer with routed experts. The layer's proof is
  determined: every part belongs to its part of the trace, and every coin is what the log before it
  yields. Whatever the verifiers accept, however it came about, is tied to the committed tensors.
- **Sampled audit** (`AuditPlan`, `Freivalds`, `ProductTree`, `AuditRelation`, `AuditLocal`,
  `AuditBlocks`, `AuditVerifier`, `AuditProver`, `AuditRun`, `AuditAccepted`, `AuditSound`). The sample
  hangs on the commitments; the honest audit is accepted exactly when its blocks pass; an accepted one
  was checked on the wires that were committed.

Hash functions, Fiat-Shamir coins, random tapes and the audit's verifier secret are function
parameters: every result holds for all of them, and where binding is claimed the hash is injective.
Soundness is stated by counting the challenges that let a wrong statement through. Exceptions are
results (`Raise`, `Refused`, `ValueError`, ...); where a verifier can both answer no and raise, the
audit's `Verify` answers no for both.

Where the code and its own comments differ, the model follows the code:

- `eq_vector` puts the first coordinate at the lowest index, not the highest, so it agrees with
  `mle_eval` at the reversed point (`EqWeights.EqIsMle`).
- The comment on `_PAD_SENTINEL` says no query can match a sentinel. A table that already holds one
  breaks this (`Logup.SentinelCounted`); `Logup.SentinelsSafe` gives the exact condition.
- A LogUp side or a gate batch with a one-point domain draws a one-coordinate point and so a two-entry
  `eq`, which does not fit its factors: such proofs raise.
- Binding with no opened column expects one block, so a multi-block matmul is then rejected
  (`MatmulStep.HonestBind`).
- `top1_guard_ok` is sufficient but one step stronger than necessary (`TopK.Top1Exact`).
- The full and the dense verifier bind `p_blocks` and `a_blocks` to the roots but run the sumcheck on
  `p_message` and `a_message`, which nothing compares with the blocks (`FullSound.FlatApart`):
  any two flat messages of the right length are accepted with their own inner product as the claim
  (`FullSound.AnyFlatAccepted`). Where they are the blocks' coordinates the claim is that of the
  committed tensors (`FullSound.ClaimSound`).
- One zero among its inputs makes `batch_inv` return zeros only (`Field.BatchInv`).

## Model

| member | source | states |
|---|---|---|
| Field.GoldilocksIsPrime | prover/topk_params.py:7 | the modulus is prime |
| Field.InvCorrect | layergkr/field.py:44-46 | a * a^(P-2) is 1 modulo P unless a is zero modulo P, and then the result is zero |
| Field.BatchInv | layergkr/field.py:84-101 | the prefix and peeling loops return every inverse when no input is zero, and zeros only when one is |
| Polynomial.PolyEvalCoeffs | layergkr/sumcheck.py:110-114 | Horner's loop evaluates the ascending coefficients |
| Interpolation.LagrangeInterpolate | layergkr/sumcheck.py:73-86 | the double loop computes the Lagrange value modulo P, with the inverse of zero taken as zero |
| Interpolation.LagrangeIsPolynomial | layergkr/sumcheck.py:73-86 | for any samples, repeated arguments included, x -> interpolation is one polynomial with at most as many coefficients as samples |
| Interpolation.InterpolationRecovers | layergkr/sumcheck.py:73-86 | on distinct reduced arguments interpolating a polynomial's samples gives its value at every x |
| Prover.MaskTape.Take | layergkr/sumcheck.py:91-101 | hands out the next n values and advances, or refuses without moving |
| Prover.RoundTranscript.Absorb | layergkr/sumcheck.py:165-175 | accepts exactly the next round's polynomial, whose x and y then enter the state modulo P, and otherwise changes nothing |
| Prover.RoundTranscript.Draw | layergkr/sumcheck.py:177-181 | a coin exists only for the round just absorbed and is the oracle's coin of the state reached by all that was absorbed |
| Prover.RoundsBind | layergkr/sumcheck.py:146-181 | with no collisions, equal states come from one context, as many rounds, and in every round the same arguments and values modulo P |
| Prover.RoundCoinsBind | layergkr/sumcheck.py:146-181 | so two contexts, or two runs that sent anything else in x or in y, get different challenges from some coin |
| Prover.MleEval | layergkr/sumcheck.py:42-64 | folding once per coordinate gives the multilinear extension |
| Prover.RoundSamples | layergkr/sumcheck.py:258-269 | the triple loop samples the honest round polynomial at 0..deg |
| Prover.ProveTerms | layergkr/sumcheck.py:217-290 | the round loop with tape, transcript and charge returns the protocol's proof, refuses without terms or tape, and charges the closed form |
| Verifier.VerifyTerms | layergkr/sumcheck.py:319-356 | the verifier's loops answer as the protocol defines for any proof and any terms, size errors and round counts included |
| Protocol.Completeness | layergkr/sumcheck.py:217-356 | the honest proof is accepted when masked, and unmasked exactly when no mask was carried in, for terms of mixed degree and any coins |
| Verifier.ProveThenVerify | layergkr/sumcheck.py:217-356 | prover and verifier run with separate transcripts over one context: accepted with a tape, and without one exactly when mu0 is zero |
| Soundness.FalseClaimNeedsLuck | layergkr/sumcheck.py:319-356 | an accepted unmasked proof of a false claim has a round whose polynomial is not the honest one and whose challenge is one of the at most deg points where they meet |
| Soundness.LuckyBound | layergkr/sumcheck.py:319-356 | a sent polynomial other than the honest one meets it at deg field elements at the most |
| Soundness.SoundnessError | layergkr/sumcheck.py:319-356 | against any adaptive strategy at most n*deg*P^(n-1) of the P^n challenge vectors are accepted |
| Hiding.SolveTapeExact | layergkr/sumcheck.py:104-127 | the tape-to-polynomial map is a bijection onto the polynomials that split mu, and the solver inverts it |
| Hiding.TapesCorrespond | layergkr/sumcheck.py:104-127 | for two statements of one shape with one masked claim each tape of the first has exactly one tape of the second sending the same claim and polynomials, coins depending on what was sent |
| Hiding.TapeDetermined | layergkr/sumcheck.py:258-290 | over a whole run a tape is determined by what it makes the prover send |
| Products.ProveProduct | layergkr/sumcheck.py:293-296 | the single-product wrapper proves that product |
| Products.HonestProductAccepted | layergkr/sumcheck.py:359-366 | a product's honest proof is accepted under its own challenges and claims the product's sum, for any coins |
| Charges.RoundSpent | layergkr/sumcheck.py:270-276 | one round adds its cells to the charge and folding keeps the factor counts |
| CountModel.SumcheckCounts | layergkr/count_model.py:89-104 | the halving loop adds up to size - 1 positions at deg + 1 points |
| CountModel.CountsMatch | layergkr/count_model.py:89-104 | running the prover, its charged multiplications and additions equal the closed form for any terms, coins and tape |
| Permutation.CompressTuple | layergkr/moe.py:76-82 | the accumulator loop is the polynomial in beta with the fields as coefficients |
| Permutation.CharacteristicProduct | layergkr/moe.py:85-89 | the loop computes the characteristic product of the fingerprints at z |
| Permutation.PermutationOk | layergkr/moe.py:92-97 | compares lengths and products, no more |
| Permutation.PermutationAccepted | layergkr/moe.py:92-97 | every rearrangement is accepted |
| Permutation.CollisionsAreFew | layergkr/moe.py:76-82 | tuples of one width that differ modulo P share a fingerprint for fewer betas than the width |
| Permutation.RecordCollisions | layergkr/moe.py:76-82 | two different records share a fingerprint for five betas at the most |
| Permutation.ForgeriesPassRarely | layergkr/moe.py:85-97 | lists of n records with different fingerprint multisets pass for fewer than n values of z |
| Confusion.MetRarely | layergkr/moe.py:76-82 | among n tuples of width w, those that differ from u modulo P share its print for at most n(w-1) betas |
| Confusion.ListsConfusedRarely | layergkr/moe.py:76-97 | lists of n tuples of width w that differ as multisets modulo P have one multiset of prints for at most n(w-1) betas |
| Forgeries.BetasThatConfuse | layergkr/moe.py:76-97 | at most 5n betas give two different lists of n reduced records one fingerprint multiset |
| Forgeries.ForgedPairs | layergkr/moe.py:76-97 | at most (6n-1)*P of the P^2 pairs (beta, z) pass lists that are not rearrangements of each other |
| Sorting.SortedIs | layergkr/moe.py:68-73 | insertion in arrival order rearranges a list into ascending order for any strict weak order |
| Order.StrictOrderOk | layergkr/moe.py:100-110 | the dictionary loop accepts exactly when keys strictly increase inside every lane |
| Order.OrderIsForced | layergkr/moe.py:68-110 | a rearrangement of the source that passes the order check equals the canonical sort on every (kind, j) lane |
| Order.SortAccepted | layergkr/moe.py:68-110 | the canonical sort passes exactly when the source names no place twice |
| Order.HonestStreamAccepted | layergkr/moe.py:61-110 | the prover's own stream passes the permutation and order checks for every beta and z |
| Scan.ScanConstraintsOk | layergkr/moe.py:156-188 | the loop accepts exactly the traces whose rows meet every local constraint, and reports an index out of tau |
| Scan.ScanSound | layergkr/moe.py:156-188 | in any accepted row list the value emitted at the delimiter labelled e+1 is the weighted sum of expert e's token rows, empty experts included |
| Scan.DelimiterFor | layergkr/moe.py:156-188 | in an accepted trace every expert e has exactly one delimiter labelled e+1 |
| Scan.BuildLane | layergkr/moe.py:129-153 | the trace is accepted, its token rows are the lane's records expert by expert in order, and A is what the delimiters emit, each expert's sum |
| Scan.SegmentSums | layergkr/moe.py:191-200 | the direct loop computes every expert's weighted sum at every coordinate |
| Moe.ScanComputesSegmentSum | layergkr/moe.py:129-200 | an accepted trace whose tokens are a rearrangement of the source emits segment_sums[e][j] |
| Moe.LaneSumsAreSegmentSums | layergkr/moe.py:129-200 | on the sorted stream build_lane returns the direct segment sums at every coordinate |
| Moe.PayoffIdentity | layergkr/moe.py:203-234 | the routed contraction equals the sum over experts and coordinates of segment sums times projections, for every route, tau and rho |
| Moe.IdentitySides | layergkr/moe.py:220-234 | both sides, computed by their own loops, come out equal |
| Lifting.QuotientWordsExact | layergkr/semantics.py:103-110 | the word count keeps the bound within 63 bits and one more word would not |
| Lifting.LiftingExact | layergkr/semantics.py:86-110 | with remainder and words ranged the field equations hold exactly when q, r are integer quotient and remainder and the words are q's digits; a raw value beyond the range has no solution |
| Lifting.UnrangedQuotientIsFree | layergkr/semantics.py:234-250 | without the quotient range every remainder satisfies the equation |
| Gates.RangedGatesDivide | layergkr/relations.py:69-84 | a rescale gate and a word gate that vanish, with ranged columns, mean integer division, and conversely |
| Semantics.Builder.constructor | layergkr/semantics.py:206-213 | a fresh builder is sound, empty, asks no table and counts nothing |
| Semantics.Builder.Rescale | layergkr/semantics.py:220-232 | returns the floor quotients and refuses exactly by range; else its division gate over raws, quotients and remainders, their word gate, and a range query for every remainder and word are recorded; every gate vanishes and every query is a row |
| Semantics.Builder.BoundQuotient | layergkr/semantics.py:234-250 | records words that sum to the quotients, their gate and a range query for each, or refuses exactly when a quotient is out of range |
| Semantics.Builder.RangeCheck | layergkr/semantics.py:252-258 | records a query for every value, or refuses a bound beyond the table |
| Semantics.Builder.Bracket | layergkr/semantics.py:260-272 | the same division by the table size, the low parts returned |
| Semantics.Builder.Lookup | layergkr/semantics.py:274-278 | returns table entries and records exactly the queries (argument, entry), in order |
| Semantics.Builder.MulRescaled | layergkr/semantics.py:280-284 | the product's gate over its own columns and its rescale are recorded |
| Semantics.Builder.Add | layergkr/semantics.py:286-290 | the sum's gate over its own columns is recorded and vanishes |
| Semantics.Builder.Matmul | layergkr/semantics.py:292-303 | records this node, X and W as given and Y their contraction modulo P, divides every entry on record, and returns the quotients |
| Semantics.Builder.MoeMatmul | layergkr/semantics.py:305-319 | the same with each token contracted by its own expert |
| Emitter.AttentionStage | layergkr/semantics.py:403-465 | returns the integer attention half, recording its five contractions and its queries in order, every step's gate and range queries included, or stops exactly where the integer layer leaves its ranges |
| Emitter.FeedStage | layergkr/semantics.py:467-486 | the same for the routed feed-forward half and its three nodes |
| Emitter.ForwardLayer | layergkr/semantics.py:403-486 | runs to its end exactly when every quotient of the integer layer is in range; then the trace holds, has predict_trace_shape's counts, and flows: each contraction is the integer one on the weights it names and on what was recorded before it, each query is the score, sum or gate it stands for, the tables hold their formulas, and the output is input plus rescaled Wo plus rescaled moe_down, modulo P |
| Flow.AttentionFlow | layergkr/semantics.py:413-465 | of a fine attention half: the norm, the turned rows, causal scores row by row, softmax, values, output projection and residual, each from the recorded results before it |
| Flow.FeedFlow | layergkr/semantics.py:467-481 | of a fine feed-forward half: gate and up read h, the silu query of (t, j) is gate entry (t, j), down reads silu times up |
| Flow.LayerCovers | layergkr/semantics.py:220-290 | every product, sum, mask and division of that flow has its gate over its own columns, every division its word gate, every remainder and word its range query |
| Emitter.TraceFlows | layergkr/semantics.py:403-486 | the emitted trace flows so, its five tables and its output included |
| Emitter.CheckTrace | layergkr/semantics.py:825-866 | the arbiter's loops accept exactly the traces in which every gate, contraction and query holds |
| Emitter.ForwardThenCheck | layergkr/semantics.py:403-866 | emitter then arbiter: the trace is accepted whenever there is one |
| Emitter.ClosedForm | layergkr/count_model.py:333-392 | the stages' counts add up to predict_trace_shape for every geometry |
| Domain.RootOrder | layergkr/gpu.py:128-163 | the K-th root of unity has order exactly K |
| Domain.ZetaDistinct | layergkr/gpu.py:128-163 | the message points are different |
| Domain.EtaDistinct | layergkr/gpu.py:128-163 | the codeword points are different |
| Domain.Disjoint | layergkr/gpu.py:128-163 | no codeword point is a message point |
| Rs.CellIsBasis | layergkr/rs.py:80-107 | each cell of the batched matrix is the basis polynomial of degree K-1 evaluated at the codeword point |
| Rs.BuildLagrange | layergkr/rs.py:80-107 | the loops with batched inverses build exactly that matrix |
| Rs.MessagePolyAtZeta | layergkr/rs.py:110-132 | the encoded polynomial takes the message's values at the message points |
| Rs.EncodeRow | layergkr/rs.py:110-132 | a message longer than ELL is refused, any other becomes its codeword |
| Rs.Distance | layergkr/rs.py:110-132 | two different codewords agree in at most K-1 of the N positions |
| Rs.EncodingInjective | layergkr/rs.py:110-132 | messages with equal codewords are equal modulo P |
| Rs.CodeIsLinear | layergkr/rs.py:263-280 | combining codewords encodes the combined messages, padding slots included |
| Rs.LinearCombination | layergkr/rs.py:263-280 | the loop combines pointwise and refuses a length mismatch |
| Rs.SampleColumns | layergkr/rs.py:283-295 | rejection sampling returns the first distinct columns of the stream |
| Merkle.BuildTree | layergkr/rs.py:135-144 | the level loop builds the tree, a lone last node paired with itself |
| Merkle.MerklePath | layergkr/rs.py:147-157 | the loop returns the leaf's siblings and sides |
| Merkle.PathRoot | layergkr/sampled_audit.py:91-96 | climbing a path as the audit does |
| Merkle.RoundTrip | layergkr/sampled_audit.py:68-96 | every leaf climbs its own path to the root |
| Merkle.PathBinds | layergkr/sampled_audit.py:91-96 | with an injective hash two paths with equal sides that reach one root start from one leaf |
| Merkle.OnlyHonestOpens | layergkr/rs.py:248-253 | against a tree's root a position opens to its own leaf by its own path and to nothing else |
| Merkle.RootBinds | layergkr/rs.py:135-157 | with an injective hash one root stands for one list of leaves |
| Commit.FromMessages | layergkr/rs.py:196-213 | commits to the codewords, or refuses a message that does not fit |
| Commit.OpeningAccepted | layergkr/rs.py:248-253 | every column opens against the root |
| Commit.OpeningBinds | layergkr/rs.py:248-253 | what a binding hash accepts at a column is the committed column |
| Projection.Enroll | layergkr/projection.py:76-109 | block-major messages with the secret tail in the last block only, refused exactly when the padding is too short |
| Projection.ProjectMessage | layergkr/projection.py:150-179 | one combined block after the other, refused for a chi of the wrong length |
| Projection.FlattenProjection | layergkr/projection.py:182-189 | the blocks without their tails, coordinate by coordinate |
| Projection.FlatIsProjection | layergkr/projection.py:150-189 | across all blocks coordinate j is sum_i chi[i]*W[i][j] |
| Projection.CommitProjection | layergkr/projection.py:204-220 | one committed row per block, each the codeword of its projected block |
| Projection.BlockCombination | layergkr/projection.py:192-220 | combining a block's codewords gives the codeword of its projection |
| Seam.OpenProjection | layergkr/projection.py:223-233 | the opening holds both committed columns and their paths |
| Seam.VerifyProjection | layergkr/projection.py:236-271 | the loop answers column by column as stated, errors included |
| Seam.HonestSeamAccepted | layergkr/projection.py:204-271 | every honest opening is accepted, for any columns, blocks, padding and coefficients |
| Seam.AcceptedMeansAgreement | layergkr/projection.py:236-271 | an accepted opening agrees with the true projected codeword at every opened column |
| Seam.ForgedProjectionExposed | layergkr/projection.py:236-271 | a committed codeword that is not the projection passes at K-1 different columns at the most |
| SeamSound.SideSound | layergkr/full_layer.py:323-364 | seam and binding accepted at K different columns: the sent blocks are the projection of the enrolled tensor, block by block and codeword by codeword, and any commitment behind the projection's root holds those values at the opened columns |
| SeamSound.ProductSound | layergkr/sumcheck.py:319-366 | an accepted unmasked product proof of a false claim was lucky in a round |
| EqWeights.EqVector | layergkr/logup.py:61-69 | the doubling loop builds the weights |
| EqWeights.EqIsMle | layergkr/logup.py:61-69 | eq_vector(z) weighs v to its multilinear extension at z reversed |
| EqWeights.ZeroAtAllPoints | layergkr/logup.py:61-69 | the weighted sum is zero at every z exactly when v is zero everywhere |
| EqWeights.ZeroPointsAreFew | layergkr/logup.py:61-69 | a nonzero vector's extension vanishes at n in P of the points at the most |
| Relations.BatchDomain | layergkr/relations.py:98-103 | the doubling loop finds the smallest power of two for all gates |
| Relations.ProveBatch | layergkr/relations.py:119-138 | returns the batch's honest proof, and says when it is refused |
| Relations.VerifyBatch | layergkr/relations.py:141-160 | answers as stated for any proof |
| Relations.HonestBatchAccepted | layergkr/relations.py:119-160 | vanishing gates are accepted for every z, lambdas, coins and tape |
| Relations.ClaimIsExtension | layergkr/relations.py:119-138 | the batch's claim is the combined residual's extension at z reversed |
| Relations.WrongBatchRarelyZero | layergkr/relations.py:141-160 | combined residuals that are not zero give claim zero at n in P of the points at the most |
| Relations.OneLambdaHides | layergkr/relations.py:119-138 | a failing gate is hidden at an index by one value of its lambda at the most |
| UnionBound.TwoPhases | layergkr/relations.py:119-160 | two phases of coins, the second chosen after the first, lose at most the sum of what each loses |
| UnionBound.BatchSoundness | layergkr/relations.py:119-160 | if a gate fails at any index then of all weights, points and challenges at most 1 + 4n in P let a proof through, whatever the prover's strategy |
| Logup.PaddedMembers | layergkr/logup.py:121-146 | padding both sides keeps every query in the table |
| Logup.MultiplicityIs | layergkr/logup.py:148-153 | a row's multiplicity is the number of queries equal to it, unless a later equal row takes them |
| Logup.PaddedTotal | layergkr/logup.py:148-153 | the padded multiplicities add up to the padded number of queries |
| Logup.SentinelsExact | layergkr/logup.py:142-153 | every appended row is counted zero times exactly when no padded query equals one |
| Logup.SentinelsSafe | layergkr/logup.py:47-49 | the appended rows are zero for every query list exactly when the table holds none of them |
| Logup.SentinelCounted | layergkr/logup.py:47-49 | a table and query for which a sentinel is counted |
| Logup.SidesAgree | layergkr/logup.py:293-302 | both sides of the identity are equal for every beta and every alpha that misses |
| Logup.Verify | layergkr/logup.py:247-290 | answers as stated for any proof |
| Logup.HonestLogUpAccepted | layergkr/logup.py:194-290 | the honest proof is accepted exactly when alpha misses every compressed table value |
| Fractions.PolesVanishRarely | layergkr/logup.py:293-302 | a sum of n weighted reciprocals with a nonzero weight at some pole vanishes at fewer than n points |
| Fractions.PolesCancel | layergkr/logup.py:293-302 | with no weight left at any pole it vanishes everywhere |
| LogupSound.VerdictExact | layergkr/logup.py:206-290 | for any values and multiplicities an honestly computed proof is accepted exactly when alpha misses both sides and they balance |
| LogupSound.WrongCountsPassRarely | layergkr/logup.py:206-290 | one value counted wrong modulo P: fewer alphas than values on both sides accept |
| LogupSound.RightCountsPass | layergkr/logup.py:206-290 | no value counted wrong: accepted at every alpha that misses |
| LogupSound.ForgedLogUpPairs | layergkr/logup.py:173-290 | one tuple of width w miscounted among n on both sides: at most ((w+1)n-1)*P of the P^2 pairs (beta, alpha) accept |
| LogupSound.OutsideIsMiscounted | layergkr/logup.py:121-153 | a query outside the table is miscounted under any multiplicities |
| LogupSound.CountedMultiplicities | layergkr/logup.py:148-153 | the multiplicities the constructor counts leave no tuple miscounted |
| LogupProver.NewLogUp | layergkr/logup.py:121-128 | refuses an empty table or a query that is no row, naming it |
| LogupProver.LogUp.constructor | layergkr/logup.py:121-153 | pads both sides and counts the multiplicities, whose sum is the number of queries |
| LogupProver.LogUp.CommitRaw | layergkr/logup.py:159-170 | refused out of order; logs the root of its own padded tuples and multiplicities |
| LogupProver.LogUp.Compress | layergkr/logup.py:173-191 | only after the raw commitment, fixing the compressed values and logging the root of both columns |
| LogupProver.LogUp.Build | layergkr/logup.py:194-203 | only after compression, fixing the reciprocals |
| LogupProver.LogUp.Prove | layergkr/logup.py:206-244 | whenever both sides have two entries and nothing is refused, the honest proof on the six coins the log yields |
| LogupProver.RunLogUp | layergkr/logup.py:121-244 | proved exactly with two queries and two rows; the argument of these queries, this table and this id, beta drawn after the tuples' root, alpha after the compressed root, the rest after alpha |
| LogupProver.BetaBinds | layergkr/logup.py:159-191 | queries or multiplicities that differ modulo P where they are committed have different roots, and some oracle then gives them different betas |
| LogupProver.ArgumentAccepted | layergkr/logup.py:247-290 | that argument is accepted exactly when alpha missed the compressed table |
| Transcript.Schedule.Check | layergkr/transcript.py:42-49 | accepts exactly the next declared step and otherwise changes nothing |
| Transcript.Transcript.Absorb | layergkr/transcript.py:80-88 | logs the entry and feeds its frame, or is refused by the schedule and changes nothing |
| Transcript.Transcript.DrawCoin | layergkr/transcript.py:96-112 | coin i is the oracle's challenge for the digest of all bytes fed before the call, modulo P, and the draw is logged |
| Transcript.Transcript.CoinBytes | layergkr/transcript.py:114-121 | the seed is the oracle's for the digest of all bytes fed before the call, logged with count zero |
| Transcript.FramingInjective | layergkr/transcript.py:80-121 | the bytes fed determine kinds, labels and data when labels are shorter than 0x6300 |
| Transcript.FramingCollides | layergkr/transcript.py:80-121 | at 0x6300 they do not |
| Transcript.SameBytesSameLog | layergkr/transcript.py:80-121 | two transcripts that fed the same bytes logged the same entries |
| Transcript.CoinsBind | layergkr/transcript.py:80-121 | logs that differ in kinds, labels, data or order reach different states under a digest without collisions, and some challenges and seeds tell their next coins apart |
| Transcript.EntryBinds | layergkr/transcript.py:80-112 | so do logs that differ in one entry |
| Transcript.Replay | layergkr/transcript.py:127-139 | replaying a log reaches its state, zero-count coins included, exactly when the log is a prefix of the schedule |
| Contraction.ContractionIdentity | layergkr/full_layer.py:216-230 | the inner product of both projections is the doubly weighted output |
| Contraction.DirectSum | layergkr/full_layer.py:225-228 | the prover's double loop computes the doubly weighted output |
| MatmulStep.BindBlocks | layergkr/full_layer.py:323-337 | re-encodes and compares block by block, answering as stated |
| MatmulStep.HonestBind | layergkr/full_layer.py:323-337 | honest blocks bind exactly when a column was opened or there is one block |
| MatmulStep.ContractionAccepted | layergkr/full_layer.py:216-230 | the sumcheck over both flat projections is accepted and claims the doubly weighted output |
| DenseLayer.Layer.Compute | layergkr/layer.py:89-97 | Y is the reduced product and both states are committed |
| DenseLayer.VerifyLayer | layergkr/layer.py:167-192 | answers as stated for any proof |
| DenseLayer.HonestLayerAccepted | layergkr/layer.py:100-192 | an honest layer proof is accepted for any weights, padding, input, coins and columns |
| Chain.ProveLayer | layergkr/layer.py:100-147 | follows the schedule to its end, never fails its identity assertion, returns an honest proof |
| Chain.VerifyChain | layergkr/layer.py:195-207 | answers layer by layer with the root links |
| FullSound.LayerSound | layergkr/layer.py:167-192 | an accepted dense layer binds both sides' blocks to the committed tensors as in the full layer |
| FullSound.ChainSound | layergkr/layer.py:195-207 | and so at every layer of an accepted chain, the input being what the previous output root commits to |
| Chain.ChainAccepted | layergkr/layer.py:195-207 | accepted exactly when every layer is and every input root is the previous output root |
| Chain.RootsLink | layergkr/layer.py:195-207 | a layer fed with the previous output opens under the previous output root |
| Chain.ProveThenVerifyChain | layergkr/layer.py:195-220 | an honest chain of any length, each X the previous Y, is accepted |
| Enrolling.Enrollment.Enroll | layergkr/full_layer.py:137-151 | a tensor seen before keeps its number and adds nothing; a new one is appended with padding only where a tail exists |
| FullMatmul.ProveMatmul | layergkr/full_layer.py:202-239 | the identity assertion never fails; the work is this matmul's (name, weights, input), honest for any number of blocks, and its coins and roots are logged in order, each coin what the log before it yields |
| FullMatmul.MatmulCoinsBind | layergkr/full_layer.py:202-222 | after one log, another input root or projection root gives, for some oracle, another tau, and another projected input other round challenges |
| FullMatmul.MatmulAccepted | layergkr/full_layer.py:344-366 | an honest matmul proof is accepted once a column is opened |
| MoeStep.CheckStream | layergkr/full_layer.py:263-281 | the prover's permutation and scan checks always pass on its own stream |
| MoeStep.RoutedAccepted | layergkr/full_layer.py:283-294 | the flattened sumcheck is accepted and claims the routed, doubly weighted output |
| FullMoE.ProveMoE | layergkr/full_layer.py:241-300 | the identity assertion never fails; the work is this node's (name, experts, segment sums under its route, its stream's product), honest for any route, coins and roots logged in order |
| FullMoE.MoEAccepted | layergkr/full_layer.py:367-387 | an honest routed proof is accepted, empty experts included |
| FullVerifier.VerifyFullLayer | layergkr/full_layer.py:340-399 | answers phase by phase as stated for any proof; what an accepted one is worth is FullSound's |
| FullSound.FullChecks | layergkr/full_layer.py:340-399 | accepted as a whole: every matmul, every routed node, the gate batch and every lookup was accepted |
| FullSound.FullMatmulSound | layergkr/full_layer.py:344-366 | in an accepted layer proof, against honestly enrolled tensors behind the roots and K different opened columns, every matmul's weight blocks are the true projection by rho and its activation blocks that by tau |
| FullSound.FullRoutedSound | layergkr/full_layer.py:367-387 | the same for every expert of a routed node, whose scan passed and whose two permutation products agree |
| FullSound.MatmulSound | layergkr/full_layer.py:344-366 | the same for one matmul's verdict |
| FullSound.RoutedSound | layergkr/full_layer.py:367-387 | the same for one routed node's verdict |
| FullSound.BatchSound | layergkr/full_layer.py:388-392 | an accepted unmasked gate batch claims the gates' combined extension, or was lucky in a round |
| FullSound.LogUpChecks | layergkr/logup.py:247-290 | an accepted lookup is its four product proofs, both constants and equal sums, and no more |
| FullSound.FlatApart | layergkr/full_layer.py:353-364 | replacing the flat messages and the sumcheck of an accepted matmul leaves only the sumcheck's own answer |
| FullSound.AnyFlatAccepted | layergkr/full_layer.py:353-364 | so any two flat messages pass, claiming their own inner product |
| FullSound.ClaimSound | layergkr/full_layer.py:344-366 | where they are the bound blocks' coordinates, the claim is the doubly weighted product of the committed tensors, or a round was lucky |
| FullProver.ProveLookups | layergkr/full_layer.py:180-193 | one argument per lookup of the trace, of its own table and queries, each at its place in the log |
| FullProver.ProveMatmuls | layergkr/full_layer.py:199-238 | one honest work per matmul of the trace, in order, each at its place in the log |
| FullProver.ProveRouted | layergkr/full_layer.py:240-300 | the same for the routed nodes |
| FullProver.ProvePhases | layergkr/full_layer.py:157-300 | states, mask, lookups, gates, matmuls and routed nodes, none left out, in that order on one log |
| FullProver.ProveFullLayer | layergkr/full_layer.py:157-320 | on any trace the arbiter accepts no assertion fails, what is returned is the proof of that trace (all roots, parts, coins and columns determined by trace, weights and log) and the verifier accepts it exactly when every alpha missed |
| FullProver.ProofCovers | layergkr/full_layer.py:157-320 | such a proof has one part per matmul, routed node and lookup of the trace: same name, the trace's own weights behind the root it is checked against, claim the weighted output, the trace's own table rows compressed |
| FullProver.ProveThenVerifyFull | layergkr/full_layer.py:157-399 | prover and verifier run: the proof is the trace's and is accepted exactly when every alpha missed |
| FullProver.EmittedProvable | layergkr/full_layer.py:157-320 | every trace emitted for two tokens or more meets the prover's conditions |
| FullProver.ForwardProveVerify | layergkr/full_layer.py:157-399 | emitter, prover and verifier composed for any weights and route: a trace that flows from the weights to the layer's output, the proof of that trace, accepted exactly when every alpha missed |
| AuditPlan.SampleCountExact | layergkr/sampled_audit.py:114-119 | the least count whose share is at least sample_per_window / window_size, and sample_per_window for a full window |
| AuditPlan.ChosenExact | layergkr/sampled_audit.py:346-356 | the k smallest (tag, index) pairs win and come out in block order |
| AuditPlan.ChosenUnique | layergkr/sampled_audit.py:346-356 | no other increasing list of as many blocks comes before all the rest |
| AuditPlan.WindowSelection | layergkr/sampled_audit.py:346-356 | returns the proportional number of the window's blocks, increasing, each before every block left out by (tag, index); the only such list |
| AuditPlan.SelectionTotals | layergkr/sampled_audit.py:121-124 | over all windows strictly increasing, in range, exactly selected_blocks entries |
| AuditPlan.PickedExact | layergkr/sampled_audit.py:346-356 | each window, the tail included, gives at least its proportional share |
| AuditPlan.WindowShare | layergkr/sampled_audit.py:649-656 | the whole sample splits at every window into what comes before, its own choice and what comes after |
| Freivalds.FreivaldsExact | layergkr/sampled_audit.py:561-574 | with recomputed projections the check passes exactly when no row has a combined error |
| Freivalds.RightMatmulPasses | layergkr/sampled_audit.py:561-574 | a right block passes for every rho |
| Freivalds.OneRhoPasses | layergkr/sampled_audit.py:561-574 | a wrong Y[t][i] passes for one value of rho[i] at the most |
| ProductTree.ProductLevels | layergkr/sampled_audit.py:389-397 | the level loop builds the padded product tree |
| ProductTree.RootIsProduct | layergkr/sampled_audit.py:389-397 | its root is the product of the leaves |
| ProductTree.TupleFp | layergkr/sampled_audit.py:405-409 | the loop compresses the tuple behind its table id |
| AuditRelation.ClaimIsExtension | layergkr/sampled_audit.py:412-420 | the weighted claim is the residual's multilinear extension at z reversed |
| AuditRelation.RelationExact | layergkr/sampled_audit.py:575-588 | the honest proof passes exactly when that extension vanishes |
| AuditRelation.WrongRelationRarelyZero | layergkr/sampled_audit.py:575-588 | a relation wrong anywhere has claim zero at n in P of the points at the most |
| AuditRelation.WrongRelationNeedsLuck | layergkr/sampled_audit.py:575-588 | elsewhere an accepted proof was lucky in one of its rounds |
| UnionBound.RelationSoundness | layergkr/sampled_audit.py:575-588 | a relation wrong anywhere passes for at most n + n*deg in P of all points and challenges, whatever the prover's strategy |
| AuditLocal.ProveLocal | layergkr/sampled_audit.py:432-455 | the honest local proof of each kind of block |
| AuditLocal.VerifyLocal | layergkr/sampled_audit.py:556-608 | accepts exactly what each kind's check says |
| AuditLocal.LookupExact | layergkr/sampled_audit.py:589-608 | the honest lookup passes exactly when counts add up and products agree |
| AuditLocal.WrongLookupPassesRarely | layergkr/sampled_audit.py:589-608 | where a beta leaves query and table prints different as multisets, fewer alphas than queries pass, whatever trees are sent |
| AuditLocal.ForgedLookupPairs | layergkr/sampled_audit.py:589-608 | queries that are not the table's rows as often as counted: at most ((w+1)n-1)*P of the P^2 pairs (beta, alpha) pass, whatever trees are sent |
| AuditLocal.TrueBlockPasses | layergkr/sampled_audit.py:432-608 | a right block passes under any coins |
| AuditBlocks.FromBlocks | layergkr/sampled_audit.py:268-276 | refused exactly for bad parameters, a wrong count or indices other than 0..n-1 |
| AuditBlocks.ReadManifest | layergkr/sampled_audit.py:617-627 | accepts exactly one schema per wire and lists wires in order of first mention |
| AuditVerifier.Verify | layergkr/sampled_audit.py:611-710 | the verifier's loops accept exactly what the conditions say; the blocks of an accepted proof are, window by window, those whose secret values for the root over the window's own commitments come first, each challenged under that root |
| AuditVerifier.SampleIsByRoots | layergkr/sampled_audit.py:346-356 | the sample of any commitments is decided window by window by the root over them |
| AuditVerifier.CommitmentsDecideSample | layergkr/sampled_audit.py:346-356 | with a binding node hash other commitments have another root, and some secret then picks other blocks |
| AuditVerifier.ChallengeByRoot | layergkr/sampled_audit.py:358-361 | a block's challenge comes from the root over its own window |
| AuditSound.AuditSound | layergkr/sampled_audit.py:611-710 | in an accepted audit every selected block is the statement's, committed over its wires' roots, its wires opened from records under the root of all records at the columns its digest draws, and its local relation holds on what was opened |
| AuditSound.CommittedWiresChecked | layergkr/sampled_audit.py:611-710 | with K columns and a binding hash every message opened there is the committed wire's own, modulo P |
| AuditVerifier.OneRootOneWord | layergkr/sampled_audit.py:689-704 | two openings under one root agree row by row at every shared column |
| AuditVerifier.FalseMessageExposed | layergkr/sampled_audit.py:689-704 | a message opened falsely against a committed wire survives K-1 different columns at the most |
| AuditProver.CommitWire | layergkr/sampled_audit.py:492-505 | commits a wire once and refuses it exactly when it comes back different or does not fit |
| AuditRun.ProveWindows | layergkr/sampled_audit.py:482-535 | window by window: stops exactly when some wire is bound twice or is too wide |
| AuditRun.Prove | layergkr/sampled_audit.py:466-553 | succeeds exactly for matching blocks, enough columns and no rebinding, with one record per wire in manifest order; the blocks proved are those the windows' commitments decide, each challenged under its window's root |
| AuditAccepted.HonestAuditExact | layergkr/sampled_audit.py:466-710 | the honest proof is accepted exactly when every sampled block's own argument passes |
| AuditAccepted.ProveThenVerify | layergkr/sampled_audit.py:466-710 | statement, prover and verifier run: right blocks are accepted under any hash, secret and sample |
| TopK.Top1Exact | prover/topk_params.py:15-17 | the guard suffices, and one step less would be exactly necessary |
| TopK.ThresholdExact | prover/topk_params.py:20-25 | the guard holds exactly when no threshold can reverse a selected and an unselected score |
| TopK.ThresholdWordsSound | prover/topk_params.py:28-41 | returned parameters cover the width and meet the guard, and the default is the fewest words |
| TopK.BracketIsDivision | prover/topk_params.py:44-52 | under the guard the field equation is integer division of C*s by Z |

## Left out

- GPU and tensor paths (`gpu.py`, `_TBuilder`, `forward_tensor`): the scalar code is modelled.
- Domains whose size is not a power of two up to 2^31: `prover/protocol.py`, which defines the domains, is not part of this model, and every configuration in the repository uses powers of two.
- Concrete hash functions, UTF-8 of labels that are not ASCII, and canonical JSON: digests are functions of the values themselves.
- Termination of column sampling on a real hash stream: the stream is assumed to hold enough different columns.
- Soundness of masked proofs, whose final mask is authenticated outside the modelled files.
- One number for the soundness of a whole layer proof or audit: what acceptance implies against the committed data is stated (`FullSound`, `AuditSound`), and each phase carries its bound over all of its own coins (gate batch, relation block, lookups, permutation, seam); the union over the phases is not.
- Float rounding: `sample_count` is the exact ceiling, which the source's division meets for products below 2^53; `int(x ** 0.5)` in the table builder is a parameter.
- A batch or relation with P factors or more in one term: completeness assumes fewer.
- Counters other than the sumcheck's and the trace's, the byte and time models of `count_model.py`, profiling.
- Table rows and the `quotient_bound=False` variant in `predict_trace_shape`, and `verify_sumcheck_counts`.
- Multiplicities handed to `LogUp` by its caller: they are always counted here.
- The state left behind by a call that raises halfway: results speak of calls that return, and of what raising calls promise not to have changed only where the contract says so.
- Order of audit role dictionaries as an adversarial proof may send it: roles are looked up by name, and a raise counts as a rejection.
- Demos, analysis scripts, cost plots and the Ligero prover.
