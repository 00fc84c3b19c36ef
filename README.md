# eslimpp subjective logic in Dafny

This project models the core of eslimpp, a C++ library for Subjective Logic following Jøsang, *Subjective Logic* (2016). It covers:

- the opinion algebra;
- the multi-source engine built on top of it, for fusion, conflict, trust revision and trusted fusion.

The floating-point type `FloatT` becomes `real`. The tolerance `EPS_v<double>` becomes the constant `Util.EPS` = 1e-10, and every "near zero" test in the library is an explicit `Abs(x) < EPS` branch. With that mapping, every formula is exact and the properties below are algebraic.

Modules, one per header:

- `Util` (`util.hpp`): the tolerances, `is_binomial`, `constexpr_for`, and `min`/`max` over an index range.
- `CudaArray` (`cuda_compatible_array.hpp`): the fixed-size buffer `Array<N, T>`.
  - It is a class over an `array<real>`.
  - Its constructors, `fill` and compound operators update the entries in place, in loops.
  - The copying operators copy first and then apply the compound operator.
  - `Sum` and the element-wise functions on `seq<real>` specify them.
- `NoBaseOpinions` (`opinion_no_base.hpp`): `OpinionNoBase`, a vector of belief masses whose uncertainty is 1 minus their sum.
  - Covers validity, projection, conflict and harmony, multiplication and comultiplication.
  - Covers cumulative, averaging, belief-constraint, weighted and consensus-compromise fusion, with their unfusion.
  - Covers trust discount, limited trust discount, trust revision, reduction, interpolation and equality.
- `Opinions` (`opinion.hpp`): `Opinion<N>`, masses plus a prior. It forwards each operator and states how each one combines the priors.
- `TrustedOpinions` (`trusted_opinion.hpp`): a pair of a binomial trust and an opinion, with discounting, trust revision and the list extractions.
- `OpinionObjects` (the same three headers): the three opinion classes as objects whose members are arrays, with every in-place `*_` operator as a method that overwrites them.
- `Dirichlet` (`dirichlet_distribution.hpp`): `DirichletDistribution` (evidence plus prior), with alphas, mean, variance and moment matching.
- `Convert` (`convert.hpp`): the four conversions between opinions and Dirichlet distributions, and the moment-matching update of opinions.
- `Fusion` (`fusion_operators.hpp`): `Fusion::fuse_opinions` over a list.
  - It handles the single-opinion case and the dogmatic shortcut.
  - It implements cumulative, averaging and belief-constraint fusion, and the averaged prior.
  - `FusionOrder` proves that the cumulative and averaging results do not depend on the order of the list.
- `Conflicts` (`conflict_operators.hpp`): the selection mask; ACCUMULATE, AVERAGE and the belief conflict types; conflict shares; conflicts against a reference; uncertainty differentials.
- `TrustRevision` (`trust_revision_operators.hpp`): the revision factors of the normal, conflict-shares and reference-fusion revision types.
  - It follows the configuration the header selects, `BELIEF_REVISION_FOLLOWING_JOSAN`: the discounted opinions are fused, and the raw opinions are measured against that fusion.
- `TrustedFusion` (`trusted_fusion_operators.hpp`): the weighted revision factors, then the fusion of the opinions discounted by the revised trusts.
  - It covers both the copying overload and the in-place overload.
- `Algebra`: named real-arithmetic identities that the proofs share.

The library's value types are Dafny datatypes.

- **Methods that change values in place.** The in-place `*_` methods of `OpinionNoBase`, `Opinion` and `TrustedOpinion` are methods of the classes in `OpinionObjects`. Each overwrites its arrays with the loops of the header and is proved to leave the object holding the value that the matching function of `NoBaseOpinions`, `Opinions` or `TrustedOpinions` computes from the old value. The properties are proved about those functions.
- **Loops.** The loops of the library are methods over `seq` or `array`. Each method is proved equal to the function that specifies it:
  - the multi-source operators;
  - the moment-matching update;
  - the `min`/`max` scans;
  - the buffer operators.
- **Errors.** A `std::logic_error` becomes a `Failure` carrying the library's message.
- **Division.** Where the library would divide by zero and continue with an infinity or NaN, the model requires a non-zero denominator. The one exception is `limited_trust_discount` of a vacuous opinion, where the quotient (1 - limit) / 0 feeds only `std::max` and `std::min`: the model writes out the factor the IEEE comparison yields (`NoBaseOpinions.LimitedFactor`).

Where the code and the library's own documentation disagree, the model follows the code. The defects this shows are listed under "Findings". Each has an as-written member and a corrected member beside it, with the intended property proved about the corrected one. The operations the rest of the library builds on keep the behaviour of the code. In particular, for N > 2 `Opinions.DegreeOfConflict` and `Opinions.DegreeOfHarmony` project both opinions with the first opinion's prior, as opinion.hpp:984 and opinion.hpp:995 do. The conflict operators, trust revision and trusted fusion use these measures, so their results are those of the code. The intended measures are `Opinions.DegreeOfConflictCorrected` and `Opinions.DegreeOfHarmonyCorrected`, which project each opinion with its own prior. `Opinions.ConflictAgreesWhenPriorsMatch` proves that the two pairs agree for binomial opinions and whenever the priors are equal. Symmetry of the conflict, and every engine property that rests on it, is proved only under those conditions.

## Model

| member | source | states |
|---|---|---|
| Util.ConstexprFor | library/include/subjective_logic_lib/util.hpp:141-157 | the indices visited start at Start, step by Inc, all lie in [Start, End), and the walk is non-empty exactly when Start < End and stops at the first index whose successor reaches End |
| Util.ConstexprForUnit | library/include/subjective_logic_lib/util.hpp:141-157 | with step 1 the visit order is exactly Start, Start+1, ..., End-1 |
| Util.MinOver | library/include/subjective_logic_lib/util.hpp:168-181 | the running strict-less-than scan returns a value that is at most every f(i) over the range and equals f(j) for some visited j |
| Util.MaxOver | library/include/subjective_logic_lib/util.hpp:192-205 | the running strict-greater-than scan returns a value that is at least every f(i) over the range and equals f(j) for some visited j |
| CudaArray.Array.Zeros | library/include/subjective_logic_lib/types/cuda_compatible_array.hpp:201-205 | a default-constructed array holds N zeros |
| CudaArray.Array.Filled | library/include/subjective_logic_lib/types/cuda_compatible_array.hpp:207-211 | Array(default_entry) holds N copies of the value |
| CudaArray.Array.FromStdArray | library/include/subjective_logic_lib/types/cuda_compatible_array.hpp:213-217 | Array(std::array) holds exactly the given entries in order |
| CudaArray.Array.FromValues | library/include/subjective_logic_lib/types/cuda_compatible_array.hpp:219-239 | the variadic constructor, filling index (N-1)-k from the value with k values after it, stores the values in argument order |
| CudaArray.Array.Fill | library/include/subjective_logic_lib/types/cuda_compatible_array.hpp:241-245 | after fill(v) every entry equals v and the length is unchanged |
| CudaArray.Array.Get | library/include/subjective_logic_lib/types/cuda_compatible_array.hpp:485-489 | the const subscript returns the entry at the index and changes nothing |
| CudaArray.Array.Set | library/include/subjective_logic_lib/types/cuda_compatible_array.hpp:479-483 | writing through the subscript changes exactly that entry |
| CudaArray.Array.SumEntries | library/include/subjective_logic_lib/types/cuda_compatible_array.hpp:470-477 | sum() of a non-empty array is the sum of all its entries, entry 0 included |
| CudaArray.Array.AddAssign | library/include/subjective_logic_lib/types/cuda_compatible_array.hpp:381-387 | += of an array adds the other array entry-wise and leaves the other unchanged |
| CudaArray.Array.SubAssign | library/include/subjective_logic_lib/types/cuda_compatible_array.hpp:405-411 | -= of an array subtracts entry-wise |
| CudaArray.Array.MulAssign | library/include/subjective_logic_lib/types/cuda_compatible_array.hpp:429-435 | *= of an array multiplies entry-wise |
| CudaArray.Array.DivAssign | library/include/subjective_logic_lib/types/cuda_compatible_array.hpp:453-459 | /= of an array divides entry-wise (non-zero divisors) |
| CudaArray.Array.AddScalarAssign | library/include/subjective_logic_lib/types/cuda_compatible_array.hpp:389-395 | += of a scalar adds it to every entry |
| CudaArray.Array.SubScalarAssign | library/include/subjective_logic_lib/types/cuda_compatible_array.hpp:413-419 | -= of a scalar subtracts it from every entry |
| CudaArray.Array.ScaleAssign | library/include/subjective_logic_lib/types/cuda_compatible_array.hpp:437-443 | *= of a scalar multiplies every entry |
| CudaArray.Array.DivScalarAssign | library/include/subjective_logic_lib/types/cuda_compatible_array.hpp:461-467 | /= of a non-zero scalar divides every entry |
| CudaArray.Array.Plus | library/include/subjective_logic_lib/types/cuda_compatible_array.hpp:374-380 | operator+ returns a fresh entry-wise sum and leaves both operands unchanged |
| CudaArray.Array.Minus | library/include/subjective_logic_lib/types/cuda_compatible_array.hpp:398-404 | operator- returns a fresh entry-wise difference |
| CudaArray.Array.Times | library/include/subjective_logic_lib/types/cuda_compatible_array.hpp:422-428 | operator* returns a fresh entry-wise product |
| CudaArray.Array.Over | library/include/subjective_logic_lib/types/cuda_compatible_array.hpp:446-452 | operator/ returns a fresh entry-wise quotient |
| CudaArray.Array.AsVector | library/include/subjective_logic_lib/types/cuda_compatible_array.hpp:519-526 | as written, the vector holds entries 1..N-1 only (N-1 values, entry 0 dropped) |
| CudaArray.Array.AsVectorCorrected | library/include/subjective_logic_lib/types/cuda_compatible_array.hpp:519-526 | with the loop from index 0, the vector is every entry in order |
| CudaArray.Array.AsArray | library/include/subjective_logic_lib/types/cuda_compatible_array.hpp:528-534 | as written, only positions 1..N-1 are copied; position 0 is unconstrained |
| CudaArray.Array.AsArrayCorrected | library/include/subjective_logic_lib/types/cuda_compatible_array.hpp:528-534 | with the loop from index 0, the std::array equals the entries |
| CudaArray.PlusScalar | library/include/subjective_logic_lib/types/cuda_compatible_array.hpp:318-329 | value + array and array + value add the value to every entry of a copy |
| CudaArray.MinusScalar | library/include/subjective_logic_lib/types/cuda_compatible_array.hpp:339-344 | array - value subtracts the value from every entry of a copy |
| CudaArray.ScalarMinusArray | library/include/subjective_logic_lib/types/cuda_compatible_array.hpp:331-338 | value - array gives value - entry at every index (operand order kept) |
| CudaArray.TimesScalar | library/include/subjective_logic_lib/types/cuda_compatible_array.hpp:346-357 | value * array and array * value scale every entry of a copy |
| CudaArray.OverScalar | library/include/subjective_logic_lib/types/cuda_compatible_array.hpp:366-371 | array / value divides every entry of a copy |
| CudaArray.ScalarOverArray | library/include/subjective_logic_lib/types/cuda_compatible_array.hpp:359-365 | value / array gives value / entry at every index |
| CudaArray.SumScale | library/include/subjective_logic_lib/types/cuda_compatible_array.hpp:437-443 | scaling every entry scales sum() by the same factor |
| CudaArray.AddSubCancel | library/include/subjective_logic_lib/types/cuda_compatible_array.hpp:381-419 | subtracting an array and adding it back restores the original entries |
| NoBaseOpinions.VacuousIsFullyUncertain | library/include/subjective_logic_lib/opinions/opinion_no_base.hpp:851-867 | the vacuous opinion (all masses zero) is valid and has uncertainty 1 |
| NoBaseOpinions.NeutralIsDogmatic | library/include/subjective_logic_lib/opinions/opinion_no_base.hpp:845-861 | the neutral opinion (every mass 1/N) is valid and has uncertainty 0 |
| NoBaseOpinions.BinomialMasses | library/include/subjective_logic_lib/opinions/opinion_no_base.hpp:759-785 | belief, disbelief and uncertainty of a binomial opinion sum to one |
| NoBaseOpinions.Complement | library/include/subjective_logic_lib/opinions/opinion_no_base.hpp:787-793 | complement() swaps belief and disbelief |
| NoBaseOpinions.ComplementInvolution | library/include/subjective_logic_lib/opinions/opinion_no_base.hpp:787-793 | complementing twice gives back the opinion, and complementing keeps the uncertainty |
| NoBaseOpinions.InterpolateEnds | library/include/subjective_logic_lib/opinions/opinion_no_base.hpp:832-843 | interpolate with factor 0 returns this opinion and with factor 1 the other |
| NoBaseOpinions.InterpolateUncertainty | library/include/subjective_logic_lib/opinions/opinion_no_base.hpp:832-843 | the interpolated uncertainty is the same convex combination of the two uncertainties |
| NoBaseOpinions.ProbabilitiesSumToOne | library/include/subjective_logic_lib/opinions/opinion_no_base.hpp:916-925 | getProbabilities() (masses over 1 - u) sums to one whenever u != 1 |
| NoBaseOpinions.ProjectionSumsToOne | library/include/subjective_logic_lib/opinions/opinion_no_base.hpp:934-942 | getProjection(a) with a base rate summing to one is a probability distribution |
| NoBaseOpinions.ProjectionIsDistribution | library/include/subjective_logic_lib/opinions/opinion_no_base.hpp:934-942 | getProjection of an opinion with non-negative masses summing to at most 1, with a distribution as base rate, is a distribution: every entry non-negative and the entries summing to 1 |
| NoBaseOpinions.ExactUncertainty | library/include/subjective_logic_lib/opinions/opinion_no_base.hpp:819-823 | uncertainty() = 1 - sum of the masses lies in [0, 1] when the masses are non-negative and sum to at most 1 |
| NoBaseOpinions.UncertaintyDifferentialsComplement | library/include/subjective_logic_lib/opinions/opinion_no_base.hpp:944-949 | the uncertainty differentials of o against o' and of o' against o add up to one |
| NoBaseOpinions.DegreeOfConflictMeaning | library/include/subjective_logic_lib/opinions/opinion_no_base.hpp:951-983 | the array degree_of_conflict as written (for N > 2 both opinions projected with this base rate) equals the corrected degree whenever the two base rates are equal or the opinions are binomial; it is 0 when either opinion is vacuous; it lies in [0, 1] for opinions with non-negative masses summing to at most 1 and base rates that are distributions |
| NoBaseOpinions.DegreeOfHarmony | library/include/subjective_logic_lib/opinions/opinion_no_base.hpp:985-1017 | the array degree_of_harmony as written: for N == 2 it equals the degree of conflict |
| NoBaseOpinions.DegreeOfHarmonyMeaning | library/include/subjective_logic_lib/opinions/opinion_no_base.hpp:985-1017 | the array degree_of_harmony as written equals the corrected degree for N > 2 whenever the two base rates are equal; it is 0 when either opinion is vacuous; it lies in [0, 1] for opinions with non-negative masses summing to at most 1 and base rates that are distributions |
| NoBaseOpinions.DegreeOfConflictBounded | library/include/subjective_logic_lib/opinions/opinion_no_base.hpp:951-1017 | for opinions with non-negative masses summing to at most 1 and base rates that are distributions, degree of conflict and degree of harmony as written both lie in [0, 1] |
| NoBaseOpinions.WrittenSplit | library/include/subjective_logic_lib/opinions/opinion_no_base.hpp:964-983 | for opinions that are not binomial, the array `degree_of_conflict` plus `degree_of_harmony` as written is the joint certainty (1 - u)(1 - u') |
| NoBaseOpinions.CorrectedSplit | library/include/subjective_logic_lib/opinions/opinion_no_base.hpp:951-1017 | the corrected degree of conflict plus the corrected degree of harmony is the joint certainty (1 - u)(1 - u') |
| NoBaseOpinions.OppositeDogmaticConflict | library/include/subjective_logic_lib/opinions/opinion_no_base.hpp:951-997 | two opposite dogmatic binomial opinions have conflict 1 and harmony 0 |
| NoBaseOpinions.HarmonyAsWrittenExample | library/include/subjective_logic_lib/opinions/opinion_no_base.hpp:998-1017 | the binomial branch of the array degree_of_harmony gives 1 where the harmony is 0 |
| NoBaseOpinions.ConflictAsWrittenExample | library/include/subjective_logic_lib/opinions/opinion_no_base.hpp:964-983 | projecting both opinions with this base rate gives 0 conflict where projecting each with its own gives 0.125 |
| NoBaseOpinions.VacuousNoConflict | library/include/subjective_logic_lib/opinions/opinion_no_base.hpp:951-1017 | vacuous opinions have neither conflict nor harmony, both for the degrees as written and for the corrected degrees |
| NoBaseOpinions.ConflictCorrectedSymmetric | library/include/subjective_logic_lib/opinions/opinion_no_base.hpp:951-1017 | the corrected degrees of conflict and harmony are symmetric in the two opinions |
| NoBaseOpinions.ReviseTrust | library/include/subjective_logic_lib/opinions/opinion_no_base.hpp:1036-1055 | revise_trust(f) keeps the opinion binomial |
| NoBaseOpinions.ReviseTrustUncertainty | library/include/subjective_logic_lib/opinions/opinion_no_base.hpp:1036-1055 | revision multiplies the uncertainty by 1 - abs(f), f clamped to [-1, 1] |
| NoBaseOpinions.ReviseTrustValid | library/include/subjective_logic_lib/opinions/opinion_no_base.hpp:1036-1055 | revision keeps a valid binomial opinion valid for any factor |
| NoBaseOpinions.ReviseTrustZero | library/include/subjective_logic_lib/opinions/opinion_no_base.hpp:1036-1055 | a zero factor leaves the opinion unchanged |
| NoBaseOpinions.ReviseTrustByConflict | library/include/subjective_logic_lib/opinions/opinion_no_base.hpp:1019-1026 | revise_trust(doc, other) is revise_trust with factor uncertainty_differential(other) * doc |
| NoBaseOpinions.Multiply | library/include/subjective_logic_lib/opinions/opinion_no_base.hpp:1064-1077 | multiply keeps the opinion binomial |
| NoBaseOpinions.Comultiply | library/include/subjective_logic_lib/opinions/opinion_no_base.hpp:1088-1101 | comultiply keeps the opinion binomial |
| NoBaseOpinions.MultiplyUncertainty | library/include/subjective_logic_lib/opinions/opinion_no_base.hpp:1064-1077 | the product's uncertainty is Jøsang's u u' + ((1 - a') b u' + (1 - a) u b') / (1 - a a') |
| NoBaseOpinions.ComultiplyUncertainty | library/include/subjective_logic_lib/opinions/opinion_no_base.hpp:1088-1101 | the coproduct's uncertainty is Jøsang's u u' + (a' d u' + a u d') / (a + a' - a a') |
| NoBaseOpinions.MultiplyProjection | library/include/subjective_logic_lib/opinions/opinion_no_base.hpp:1064-1077 | with base rate a a' the product's projected probability is P(x) P(y) |
| NoBaseOpinions.ComultiplyDisbeliefProjection | library/include/subjective_logic_lib/opinions/opinion_no_base.hpp:1088-1101 | the coproduct's projected disbelief is the product of the projected disbeliefs |
| NoBaseOpinions.ComultiplyProjection | library/include/subjective_logic_lib/opinions/opinion_no_base.hpp:1088-1101 | with base rate a + a' - a a' the coproduct's projected probability is P(x) + P(y) - P(x) P(y) |
| NoBaseOpinions.CumFuse | library/include/subjective_logic_lib/opinions/opinion_no_base.hpp:1112-1135 | cum_fuse keeps the number of hypotheses (EPS fallback: the mean of the masses) |
| NoBaseOpinions.CumUnfuse | library/include/subjective_logic_lib/opinions/opinion_no_base.hpp:1137-1161 | cum_unfuse keeps the number of hypotheses (EPS fallback: the mean of the masses) |
| NoBaseOpinions.CumFuseCommutative | library/include/subjective_logic_lib/opinions/opinion_no_base.hpp:1112-1135 | cumulative fusion is symmetric in its two opinions, fallback included |
| NoBaseOpinions.CumFuseUncertainty | library/include/subjective_logic_lib/opinions/opinion_no_base.hpp:1112-1135 | outside the fallback the fused uncertainty is u u' / (u + u' - u u') |
| NoBaseOpinions.CumFuseVacuousIdentity | library/include/subjective_logic_lib/opinions/opinion_no_base.hpp:1112-1135 | fusing with the vacuous opinion leaves an opinion unchanged |
| NoBaseOpinions.CumFuseUnfuseRoundTrip | library/include/subjective_logic_lib/opinions/opinion_no_base.hpp:1112-1161 | cum_unfuse(y) undoes cum_fuse(y) whenever neither takes its fallback |
| NoBaseOpinions.ConflictClosedForm | library/include/subjective_logic_lib/opinions/opinion_no_base.hpp:1191-1207 | conflict equals (sum b)(sum b') minus the agreement sum of b_i b'_i |
| NoBaseOpinions.ConflictSymmetric | library/include/subjective_logic_lib/opinions/opinion_no_base.hpp:1191-1207 | conflict is symmetric in the two opinions |
| NoBaseOpinions.ComputeConflict | library/include/subjective_logic_lib/opinions/opinion_no_base.hpp:1191-1207 | the two nested loops skipping equal indices compute (sum b)(sum b') - sum b_i b'_i |
| NoBaseOpinions.BcFuse | library/include/subjective_logic_lib/opinions/opinion_no_base.hpp:1209-1226 | bc_fuse keeps the number of hypotheses (fallback: the neutral distribution) |
| NoBaseOpinions.HarmonyPlusConflict | library/include/subjective_logic_lib/opinions/opinion_no_base.hpp:1174-1207 | total harmony plus conflict is 1 - u u' |
| NoBaseOpinions.BcFuseUncertainty | library/include/subjective_logic_lib/opinions/opinion_no_base.hpp:1209-1226 | outside the fallback the uncertainty after belief-constraint fusion is u u' / (1 - conflict) |
| NoBaseOpinions.BcFuseTotalConflict | library/include/subjective_logic_lib/opinions/opinion_no_base.hpp:1209-1226 | two opposite dogmatic opinions give the neutral opinion |
| NoBaseOpinions.BcFuseCommutative | library/include/subjective_logic_lib/opinions/opinion_no_base.hpp:1209-1226 | belief-constraint fusion of two opinions does not depend on their order, as the comment at fusion_operators.hpp:323 assumes |
| NoBaseOpinions.AverageFuse | library/include/subjective_logic_lib/opinions/opinion_no_base.hpp:1234-1255 | average_fuse keeps the number of hypotheses (EPS fallback: the mean) |
| NoBaseOpinions.AverageFuseCommutative | library/include/subjective_logic_lib/opinions/opinion_no_base.hpp:1234-1255 | averaging fusion is symmetric in its two opinions |
| NoBaseOpinions.AverageFuseUncertainty | library/include/subjective_logic_lib/opinions/opinion_no_base.hpp:1234-1255 | outside the fallback the averaged uncertainty is 2 u u' / (u + u') |
| NoBaseOpinions.AverageUnfuse | library/include/subjective_logic_lib/opinions/opinion_no_base.hpp:1264-1288 | average_unfuse as written, with + b'_i u in the numerator |
| NoBaseOpinions.AverageUnfuseCorrected | library/include/subjective_logic_lib/opinions/opinion_no_base.hpp:1264-1288 | average_unfuse with the sign of Jøsang's operator, - b'_i u |
| NoBaseOpinions.AverageFuseUnfuseRoundTrip | library/include/subjective_logic_lib/opinions/opinion_no_base.hpp:1234-1288 | the corrected unfusion undoes averaging fusion whenever neither takes its fallback |
| NoBaseOpinions.AverageUnfuseAsWrittenBreaksRoundTrip | library/include/subjective_logic_lib/opinions/opinion_no_base.hpp:1264-1288 | unfusing (0, 0.5) from the fusion (0.25, 0.25) gives (0.5, 1.0) as written, (0.5, 0) corrected |
| NoBaseOpinions.CcFuse | library/include/subjective_logic_lib/opinions/opinion_no_base.hpp:1296-1358 | cc_fuse keeps the number of hypotheses (fallback: vacuous) |
| NoBaseOpinions.CcFuseUncertainty | library/include/subjective_logic_lib/opinions/opinion_no_base.hpp:1296-1358 | outside the fallback consensus-and-compromise fusion leaves uncertainty u u' |
| NoBaseOpinions.CcFuseVacuous | library/include/subjective_logic_lib/opinions/opinion_no_base.hpp:1296-1358 | two vacuous opinions fuse to the vacuous opinion |
| NoBaseOpinions.WbFuse | library/include/subjective_logic_lib/opinions/opinion_no_base.hpp:1381-1413 | wb_fuse keeps the number of hypotheses (fallbacks: the mean when u u' is near 0, otherwise vacuous) |
| NoBaseOpinions.WbFuseUncertainty | library/include/subjective_logic_lib/opinions/opinion_no_base.hpp:1381-1413 | outside the fallback the weighted fusion leaves uncertainty (2 - u - u') u u' / (u + u' - 2 u u') |
| NoBaseOpinions.WbFuseVacuous | library/include/subjective_logic_lib/opinions/opinion_no_base.hpp:1381-1413 | two vacuous opinions fuse to the vacuous opinion |
| NoBaseOpinions.TrustDiscount | library/include/subjective_logic_lib/opinions/opinion_no_base.hpp:1435-1440 | trust_discount(p) keeps the number of hypotheses |
| NoBaseOpinions.TrustDiscountUncertainty | library/include/subjective_logic_lib/opinions/opinion_no_base.hpp:1435-1440 | the discounted uncertainty is 1 - p (1 - u) |
| NoBaseOpinions.TrustDiscountValid | library/include/subjective_logic_lib/opinions/opinion_no_base.hpp:1435-1440 | discounting by p in [0, 1] keeps a valid opinion valid |
| NoBaseOpinions.TrustDiscountKeepsRatios | library/include/subjective_logic_lib/opinions/opinion_no_base.hpp:1435-1440 | discounting keeps the ratios between the belief masses |
| NoBaseOpinions.TrustDiscountByTrust | library/include/subjective_logic_lib/opinions/opinion_no_base.hpp:1421-1426 | discounting by a trust opinion is discounting by its binomial projection |
| NoBaseOpinions.LimitedFactor | library/include/subjective_logic_lib/opinions/opinion_no_base.hpp:1464-1477 | the discount factor of limited_trust_discount_ is at most 1; for u != 1 it is at least (1 - limit) / (1 - u) unless that bound exceeds 1; for u == 1 (where the code divides by zero) it is 1 when limit <= 1; it is always 1, p or the lower bound |
| NoBaseOpinions.LimitedTrustDiscountBound | library/include/subjective_logic_lib/opinions/opinion_no_base.hpp:1464-1477 | with u <= limit the result has uncertainty at most limit, exactly limit when p was raised |
| NoBaseOpinions.LimitedTrustDiscountAboveLimit | library/include/subjective_logic_lib/opinions/opinion_no_base.hpp:1464-1477 | with u > limit the opinion is left unchanged |
| NoBaseOpinions.LimitedTrustDiscountVacuous | library/include/subjective_logic_lib/opinions/opinion_no_base.hpp:1464-1477 | a vacuous opinion (u == 1, the case in which the code divides by zero) is left unchanged by every limit and every p |
| NoBaseOpinions.LimitedTrustDiscountByTrust | library/include/subjective_logic_lib/opinions/opinion_no_base.hpp:1448-1454 | the trust-opinion overload uses the trust's binomial projection as p |
| NoBaseOpinions.GetReducedOpinion | library/include/subjective_logic_lib/opinions/opinion_no_base.hpp:1619-1633 | getReducedOpinion adds each mass into its mapped hypothesis; the total mass, hence the uncertainty, is kept |
| NoBaseOpinions.ReduceKeepsTotal | library/include/subjective_logic_lib/opinions/opinion_no_base.hpp:1619-1633 | the reduced masses sum to the original sum |
| NoBaseOpinions.SummedAbsDifference | library/include/subjective_logic_lib/opinions/opinion_no_base.hpp:1644-1654 | the loop of operator== computes the L1 distance of the two mass vectors |
| NoBaseOpinions.IsEqual | library/include/subjective_logic_lib/opinions/opinion_no_base.hpp:1644-1654 | operator== holds exactly when the L1 distance is below EPS |
| NoBaseOpinions.EqualReflexiveSymmetric | library/include/subjective_logic_lib/opinions/opinion_no_base.hpp:1644-1654 | operator== is reflexive and symmetric |
| NoBaseOpinions.EqualMassesClose | library/include/subjective_logic_lib/opinions/opinion_no_base.hpp:1644-1654 | equal opinions differ by less than EPS in every single mass |
| Opinions.Default | library/include/subjective_logic_lib/opinions/opinion.hpp:707-711 | the default opinion has N vacuous masses and N prior entries |
| Opinions.DefaultIsValidAndVacuous | library/include/subjective_logic_lib/opinions/opinion.hpp:707-711 | the default opinion is valid and fully uncertain |
| Opinions.FromValues | library/include/subjective_logic_lib/opinions/opinion.hpp:725-731 | Opinion(values...) keeps the given masses (prior: the neutral distribution) |
| Opinions.FromBinomial | library/include/subjective_logic_lib/opinions/opinion.hpp:740-745 | Opinion(b, d, a) is binomial |
| Opinions.FromBinomialValid | library/include/subjective_logic_lib/opinions/opinion.hpp:740-756 | Opinion(b, d, a) is valid exactly when its numbers are in range |
| Opinions.DogmaticTrust | library/include/subjective_logic_lib/opinions/opinion.hpp:872-877 | DogmaticTrust() is a binomial opinion |
| Opinions.VacuousTrust | library/include/subjective_logic_lib/opinions/opinion.hpp:879-884 | VacuousTrust() is a binomial opinion |
| Opinions.NeutralBeliefOpinion | library/include/subjective_logic_lib/opinions/opinion.hpp:836-840 | NeutralBeliefOpinion() has N masses and N prior entries |
| Opinions.VacuousBeliefOpinion | library/include/subjective_logic_lib/opinions/opinion.hpp:842-846 | VacuousBeliefOpinion() has N masses and N prior entries |
| Opinions.NeutralBeliefOpinionValid | library/include/subjective_logic_lib/opinions/opinion.hpp:836-840 | the neutral opinion is valid and dogmatic |
| Opinions.VacuousBeliefOpinionNotValid | library/include/subjective_logic_lib/opinions/opinion.hpp:842-846 | VacuousBeliefOpinion() is fully uncertain but, with its all-zero prior, not valid |
| Opinions.TrustConstants | library/include/subjective_logic_lib/opinions/opinion.hpp:872-884 | dogmatic trust projects to 1 with uncertainty 0; vacuous trust projects to 1/2 with uncertainty 1 |
| Opinions.BinomialProjectionBounds | library/include/subjective_logic_lib/opinions/opinion.hpp:957-962 | a binomial opinion with non-negative masses and a prior in [0, 1] projects into [0, 1] |
| Opinions.Complement | library/include/subjective_logic_lib/opinions/opinion.hpp:797-802 | complement() as written swaps belief and disbelief and keeps the prior |
| Opinions.ComplementCorrected | library/include/subjective_logic_lib/opinions/opinion.hpp:797-802 | the corrected complement also swaps the prior entries |
| Opinions.ComplementProjectionAsWritten | library/include/subjective_logic_lib/opinions/opinion.hpp:797-802 | as written the complement projects to 1 - P(x) + u (2a - 1), which is 1 - P(x) exactly when u == 0 or a == 1/2 |
| Opinions.ComplementAsWrittenExample | library/include/subjective_logic_lib/opinions/opinion.hpp:797-802 | for (0.2, 0.3, a 0.8) the complement projects to 0.7 as written and to 0.4 = 1 - 0.6 when corrected |
| Opinions.ComplementCorrectedProjection | library/include/subjective_logic_lib/opinions/opinion.hpp:797-802 | the corrected complement projects to 1 - P(x) and is an involution |
| Opinions.Interpolate | library/include/subjective_logic_lib/opinions/opinion.hpp:810-822 | interpolate keeps the sizes |
| Opinions.InterpolateProperties | library/include/subjective_logic_lib/opinions/opinion.hpp:810-822 | factor 0 gives this opinion, 1 the other; uncertainty interpolates linearly; priors that sum to one still do |
| Opinions.ConflictHarmonySplit | library/include/subjective_logic_lib/opinions/opinion.hpp:976-996 | degree_of_conflict plus degree_of_harmony, both as written and corrected, equals (1 - u)(1 - u') |
| Opinions.WrittenSplit | library/include/subjective_logic_lib/opinions/opinion.hpp:976-996 | degree_of_conflict plus degree_of_harmony as written is the joint certainty of the two opinions, for binomial opinions and for N > 2 |
| Opinions.ConflictAgreesWhenPriorsMatch | library/include/subjective_logic_lib/opinions/opinion.hpp:976-996 | degree_of_conflict and degree_of_harmony as written (other projected with this prior for N > 2) equal the corrected ones (each opinion with its own prior) for binomial opinions and whenever the two priors are equal |
| Opinions.ConflictSymmetric | library/include/subjective_logic_lib/opinions/opinion.hpp:976-996 | the corrected degree of conflict is symmetric; the degree of conflict as written is symmetric for binomial opinions and whenever the two priors are equal |
| Opinions.ConflictAsymmetricExample | library/include/subjective_logic_lib/opinions/opinion.hpp:976-996 | with masses (0.8, 0, 0), prior (1, 0, 0) and masses (0, 0.5, 0), prior (0, 1, 0), degree_of_conflict as written is 0.2 one way and 0.32 the other, where the corrected value is 0.4 |
| Opinions.UncertaintyDifferentialsComplement | library/include/subjective_logic_lib/opinions/opinion.hpp:970-974 | the two uncertainty differentials of a pair add up to one |
| Opinions.ReviseTrust | library/include/subjective_logic_lib/opinions/opinion.hpp:1013-1026 | revise_trust(f) keeps the opinion binomial and its prior |
| Opinions.ReviseTrustByConflict | library/include/subjective_logic_lib/opinions/opinion.hpp:998-1011 | revise_trust(doc, other) keeps the opinion binomial and its prior |
| Opinions.ReviseTrustKeepsValidity | library/include/subjective_logic_lib/opinions/opinion.hpp:998-1026 | revision keeps a valid opinion valid and never raises a non-negative uncertainty |
| Opinions.Multiply | library/include/subjective_logic_lib/opinions/opinion.hpp:1028-1044 | multiply keeps the opinion binomial |
| Opinions.Comultiply | library/include/subjective_logic_lib/opinions/opinion.hpp:1046-1062 | comultiply keeps the opinion binomial |
| Opinions.MultiplyProjection | library/include/subjective_logic_lib/opinions/opinion.hpp:1028-1044 | the product projects to P(x) P(y) and its prior sums to one |
| Opinions.ComultiplyProjection | library/include/subjective_logic_lib/opinions/opinion.hpp:1046-1062 | the coproduct projects to P(x) + P(y) - P(x) P(y) and its prior sums to one |
| Opinions.MultiplyExample | library/include/subjective_logic_lib/opinions/opinion.hpp:1028-1044 | Jøsang's worked multiplication example |
| Opinions.ComultiplyExample | library/include/subjective_logic_lib/opinions/opinion.hpp:1046-1062 | Jøsang's worked comultiplication example |
| Opinions.CumulativePriorSum | library/include/subjective_logic_lib/opinions/opinion.hpp:1064-1084 | the cumulatively fused prior of two distributions sums to one |
| Opinions.CertaintyPriorSum | library/include/subjective_logic_lib/opinions/opinion.hpp:1114-1132 | the certainty-weighted prior of two distributions sums to one |
| Opinions.CumFuse | library/include/subjective_logic_lib/opinions/opinion.hpp:1064-1084 | cum_fuse keeps the sizes |
| Opinions.CumUnfuse | library/include/subjective_logic_lib/opinions/opinion.hpp:1085-1090 | cum_unfuse unfuses the masses and keeps the prior |
| Opinions.BcFuse | library/include/subjective_logic_lib/opinions/opinion.hpp:1114-1132 | bc_fuse keeps the sizes |
| Opinions.AverageFuse | library/include/subjective_logic_lib/opinions/opinion.hpp:1140-1147 | average_fuse keeps the sizes |
| Opinions.WbFuse | library/include/subjective_logic_lib/opinions/opinion.hpp:1155-1174 | wb_fuse keeps the sizes |
| Opinions.CcFuse | library/include/subjective_logic_lib/opinions/opinion.hpp:1182-1188 | cc_fuse keeps the prior unchanged |
| Opinions.FusionKeepsPriorDistribution | library/include/subjective_logic_lib/opinions/opinion.hpp:1064-1188 | every fusion and unfusion operator turns two prior distributions into a prior distribution |
| Opinions.CumFuseCommutative | library/include/subjective_logic_lib/opinions/opinion.hpp:1064-1084 | cumulative fusion of opinions, prior included, is symmetric |
| Opinions.CumUnfuseExample | library/include/subjective_logic_lib/opinions/opinion.hpp:1085-1090 | Jøsang's worked unfusion example: (0.9, 0.05) without (0.7, 0.1) is (0.90625, 0.03125) |
| Opinions.TrustDiscount | library/include/subjective_logic_lib/opinions/opinion.hpp:1226-1233 | trust_discount(p) keeps the prior and the number of masses |
| Opinions.TrustDiscountByTrust | library/include/subjective_logic_lib/opinions/opinion.hpp:1211-1217 | trust_discount(trust) keeps the prior and the number of masses |
| Opinions.LimitedTrustDiscount | library/include/subjective_logic_lib/opinions/opinion.hpp:1258-1265 | limited_trust_discount(limit, p) keeps the prior and the number of masses |
| Opinions.LimitedTrustDiscountByTrust | library/include/subjective_logic_lib/opinions/opinion.hpp:1243-1249 | limited_trust_discount(limit, trust) keeps the prior and the number of masses |
| Opinions.TrustDiscountByConstantTrust | library/include/subjective_logic_lib/opinions/opinion.hpp:1211-1217 | dogmatic trust leaves an opinion unchanged; vacuous trust halves every mass |
| Opinions.TrustDiscountByTrustValid | library/include/subjective_logic_lib/opinions/opinion.hpp:1211-1217 | discounting a valid opinion by a trust with masses and prior in range keeps it valid, with uncertainty 1 - P(trust)(1 - u) |
| Opinions.GetReducedOpinion | library/include/subjective_logic_lib/opinions/opinion.hpp:1296-1312 | masses and prior are both accumulated into their mapped hypotheses; uncertainty and prior total are kept |
| Opinions.IsEqual | library/include/subjective_logic_lib/opinions/opinion.hpp:1323-1332 | operator== holds exactly when the prior L1 distance is below EPS and the masses compare equal |
| Opinions.EqualReflexiveSymmetric | library/include/subjective_logic_lib/opinions/opinion.hpp:1323-1332 | operator== is reflexive and symmetric |
| TrustedOpinions.DefaultTrusted | library/include/subjective_logic_lib/opinions/trusted_opinion.hpp:70-73 | the default pair is well formed (binomial trust, N-hypothesis opinion) |
| TrustedOpinions.DefaultTrustedIsVacuous | library/include/subjective_logic_lib/opinions/trusted_opinion.hpp:70-73 | the default pair holds vacuous trust and a valid, fully uncertain opinion |
| TrustedOpinions.EqualTrustedReflexiveSymmetric | library/include/subjective_logic_lib/opinions/trusted_opinion.hpp:325-329 | operator== (trust and opinion both equal) is reflexive and symmetric |
| TrustedOpinions.DiscountedOpinion | library/include/subjective_logic_lib/opinions/trusted_opinion.hpp:276-281 | discounted_opinion() keeps the opinion's prior and size |
| TrustedOpinions.DiscountedOpinionProperties | library/include/subjective_logic_lib/opinions/trusted_opinion.hpp:276-281 | full trust passes the opinion on unchanged; a valid opinion stays valid with uncertainty 1 - P(trust)(1 - u) |
| TrustedOpinions.ReviseTrusted | library/include/subjective_logic_lib/opinions/trusted_opinion.hpp:290-301 | revise_trust(f) keeps the trust binomial |
| TrustedOpinions.ReviseTrustedProperties | library/include/subjective_logic_lib/opinions/trusted_opinion.hpp:290-301 | revision changes only the trust, keeps its prior and validity, and never raises its uncertainty |
| TrustedOpinions.RevisePairProperties | library/include/subjective_logic_lib/opinions/trusted_opinion.hpp:303-316 | `PairRevisionFactors` and `RevisePair`: the two revision factors add up to the degree of conflict, the opinions are untouched, and for binomial opinions or equal priors swapping the pair swaps the results |
| TrustedOpinions.RevisePairSplit | library/include/subjective_logic_lib/opinions/trusted_opinion.hpp:303-316 | `PairRevisionFactors`: the two factors of PairRevisionFactors, each an uncertainty differential times the degree of conflict, add up to the degree of conflict |
| TrustedOpinions.RevisePairSwap | library/include/subjective_logic_lib/opinions/trusted_opinion.hpp:303-316 | for binomial opinions or equal priors, computing PairRevisionFactors for the swapped pair swaps the two factors |
| TrustedOpinions.ExtractOpinions | library/include/subjective_logic_lib/opinions/trusted_opinion.hpp:176-188 | extractOpinions lists the opinion of every pair in order |
| TrustedOpinions.ExtractTrusts | library/include/subjective_logic_lib/opinions/trusted_opinion.hpp:202-214 | extractTrusts lists the trust of every pair in order |
| TrustedOpinions.ExtractDiscountedOpinions | library/include/subjective_logic_lib/opinions/trusted_opinion.hpp:228-239 | extractDiscountedOpinions lists the discounted opinion of every pair in order |
| TrustedOpinions.ExtractRoundTrip | library/include/subjective_logic_lib/opinions/trusted_opinion.hpp:176-214 | zipping the extracted trusts and opinions gives back the list |
| TrustedOpinions.DogmaticDiscountExtract | library/include/subjective_logic_lib/opinions/trusted_opinion.hpp:176-239 | with dogmatic trusts the discounted opinions are the plain opinions |
| Dirichlet.Alphas | library/include/subjective_logic_lib/types/dirichlet_distribution.hpp:263-267 | alphas() has one entry per hypothesis |
| Dirichlet.StrengthSplit | library/include/subjective_logic_lib/types/dirichlet_distribution.hpp:263-267 | the sum of the alphas is the total evidence plus N times the prior total |
| Dirichlet.Default | library/include/subjective_logic_lib/types/dirichlet_distribution.hpp:205-209 | the default distribution has N evidence and prior entries |
| Dirichlet.DefaultIsUniform | library/include/subjective_logic_lib/types/dirichlet_distribution.hpp:205-209 | every alpha of the default distribution is 1, its strength is N and its mean is uniform |
| Dirichlet.FromAlphas | library/include/subjective_logic_lib/types/dirichlet_distribution.hpp:211-216 | the alphas constructor takes the neutral prior, and alphas() gives back the alphas it was built from |
| Dirichlet.FromEvidences | library/include/subjective_logic_lib/types/dirichlet_distribution.hpp:232-236 | from_evidences keeps the evidence and takes the neutral prior |
| Dirichlet.FromEvidencesIsFromAlphas | library/include/subjective_logic_lib/types/dirichlet_distribution.hpp:211-236 | evidence e is the same distribution as alphas e + 1 |
| Dirichlet.Mean | library/include/subjective_logic_lib/types/dirichlet_distribution.hpp:298-304 | mean() has one entry per hypothesis |
| Dirichlet.MeanIsDistribution | library/include/subjective_logic_lib/types/dirichlet_distribution.hpp:298-304 | the mean sums to one; with positive alphas every entry lies in (0, 1] |
| Dirichlet.MeanBinomial | library/include/subjective_logic_lib/types/dirichlet_distribution.hpp:306-313 | mean_binomial() is the first entry of mean() |
| Dirichlet.Variance | library/include/subjective_logic_lib/types/dirichlet_distribution.hpp:315-322 | variance() has one entry per hypothesis |
| Dirichlet.VarianceBounds | library/include/subjective_logic_lib/types/dirichlet_distribution.hpp:315-322 | with positive alphas each variance lies in [0, 1 / (4 (S + 1))] |
| Dirichlet.MomentMatchingUpdate | library/include/subjective_logic_lib/types/dirichlet_distribution.hpp:324-361 | moment matching keeps the prior and sets the alphas to the moments times the factor |
| Dirichlet.MomentsSumToOne | library/include/subjective_logic_lib/types/dirichlet_distribution.hpp:324-361 | when the probabilities sum to one the moments (alpha_i + p_i)/(1 + S) sum to one |
| Dirichlet.MomentMatchingMean | library/include/subjective_logic_lib/types/dirichlet_distribution.hpp:324-361 | the updated distribution has strength equal to the factor and mean equal to the moments |
| Dirichlet.ScaledDistribution | library/include/subjective_logic_lib/types/dirichlet_distribution.hpp:324-361 | a probability vector scaled by f sums to f, and dividing by f gives it back |
| Dirichlet.MatchMoments | library/include/subjective_logic_lib/types/dirichlet_distribution.hpp:324-361 | the entry-by-entry loop over moments, second moments, numerators and denominators computes the update |
| Convert.EvidenceOfTotal | library/include/subjective_logic_lib/types/convert.hpp:9-14 | evidence N b / u totals N (1 - u) / u, so its sum plus N is N / u |
| Convert.BeliefsEvidenceRoundTrip | library/include/subjective_logic_lib/types/convert.hpp:9-36 | belief masses to evidence and back recovers the masses whenever u != 0 |
| Convert.BeliefsOfRemaining | library/include/subjective_logic_lib/types/convert.hpp:23-36 | the belief masses of evidence e leave uncertainty N / (sum(e) + N), never zero |
| Convert.EvidenceBeliefsRoundTrip | library/include/subjective_logic_lib/types/convert.hpp:9-36 | evidence to belief masses and back recovers the evidence |
| Convert.ToDirichlet | library/include/subjective_logic_lib/types/convert.hpp:9-14 | Opinion to Dirichlet keeps the prior |
| Convert.NoBaseToDirichlet | library/include/subjective_logic_lib/types/convert.hpp:16-21 | OpinionNoBase to Dirichlet takes the neutral prior |
| Convert.ToOpinion | library/include/subjective_logic_lib/types/convert.hpp:23-29 | Dirichlet to Opinion keeps the prior |
| Convert.ToNoBaseOpinion | library/include/subjective_logic_lib/types/convert.hpp:31-36 | Dirichlet to OpinionNoBase has one mass per hypothesis |
| Convert.OpinionRoundTrip | library/include/subjective_logic_lib/types/convert.hpp:9-29 | an opinion with u != 0 comes back unchanged from its Dirichlet distribution |
| Convert.NoBaseOpinionRoundTrip | library/include/subjective_logic_lib/types/convert.hpp:16-36 | the same holds for an opinion without base rate |
| Convert.DirichletRoundTrip | library/include/subjective_logic_lib/types/convert.hpp:9-29 | a distribution with non-zero evidence total plus N comes back unchanged from its opinion |
| Convert.DirichletNoBaseRoundTrip | library/include/subjective_logic_lib/types/convert.hpp:16-36 | through OpinionNoBase a distribution comes back exactly when its prior is the neutral one |
| Convert.ProjectionIsMean | library/include/subjective_logic_lib/types/convert.hpp:23-29 | the converted opinion's projection is the distribution's mean |
| Convert.MeanIsProjection | library/include/subjective_logic_lib/types/convert.hpp:9-14 | the mean of an opinion's distribution is the opinion's projection |
| Convert.MomentMatchingUpdate | library/include/subjective_logic_lib/opinions/opinion.hpp:1196-1209 | Opinion::moment_matching_update keeps the prior |
| Convert.MomentMatchingProjection | library/include/subjective_logic_lib/opinions/opinion.hpp:1196-1209 | the updated opinion projects to the matched moments |
| Convert.NoBaseMomentMatchingUpdate | library/include/subjective_logic_lib/opinions/opinion_no_base.hpp:1366-1380 | OpinionNoBase::moment_matching_update keeps the number of hypotheses |
| Convert.NoBaseMomentMatchingProjection | library/include/subjective_logic_lib/opinions/opinion_no_base.hpp:1366-1380 | the updated opinion, projected with the neutral base rate, gives the matched moments |
| Fusion.DogmaticOpinionsFound | library/include/subjective_logic_lib/multi_source/fusion_operators.hpp:219-229 | the filtered list of near-dogmatic opinions is non-empty exactly when some opinion has abs(u) < EPS |
| Fusion.FusedMasses | library/include/subjective_logic_lib/multi_source/fusion_operators.hpp:156-180 | fusion of opinions without base rate fails exactly for an unsupported type (WEIGHTED); otherwise it has N masses |
| Fusion.Fused | library/include/subjective_logic_lib/multi_source/fusion_operators.hpp:156-180 | fusion of Opinion<N> fails exactly for WEIGHTED; otherwise the result has N masses and N prior entries |
| Fusion.MassTotals | library/include/subjective_logic_lib/multi_source/fusion_operators.hpp:278-313 | the masses of m opinions total m minus the sum of their uncertainties |
| Fusion.DogmaticMeanUncertainty | library/include/subjective_logic_lib/multi_source/fusion_operators.hpp:231-250 | `DogmaticMean`: the dogmatic shortcut has the mean uncertainty of the opinions it averages |
| Fusion.DogmaticMeanIsDogmatic | library/include/subjective_logic_lib/multi_source/fusion_operators.hpp:231-250 | `DogmaticMean`: the mean of dogmatic opinions is dogmatic |
| Fusion.NumeratorsTotal | library/include/subjective_logic_lib/multi_source/fusion_operators.hpp:289-297 | the numerators total the sum of the cofactors p / u_i less m p |
| Fusion.WeightedMassesLeftover | library/include/subjective_logic_lib/multi_source/fusion_operators.hpp:278-366 | `WeightedMasses`: the fused masses of CUMULATIVE or AVERAGE leave 1 - (sum p / u_i - m p) / D uncertain |
| Fusion.CumulativeUncertainty | library/include/subjective_logic_lib/multi_source/fusion_operators.hpp:278-313 | cumulative fusion of m non-dogmatic opinions leaves uncertainty p / D, with p the product of the uncertainties |
| Fusion.AverageUncertainty | library/include/subjective_logic_lib/multi_source/fusion_operators.hpp:332-366 | averaging fusion of m non-dogmatic opinions leaves uncertainty m p / D |
| Fusion.CofactorsAtLeast | library/include/subjective_logic_lib/multi_source/fusion_operators.hpp:299-304 | with uncertainties in (0, 1] the cofactors p / u_i total at least m p |
| Fusion.NoneDogmatic | library/include/subjective_logic_lib/multi_source/fusion_operators.hpp:219-229 | uncertainties of at least EPS rule out the dogmatic shortcut |
| Fusion.NormalizersPositive | library/include/subjective_logic_lib/multi_source/fusion_operators.hpp:299-304 | uncertainties between EPS and 1 keep both denominators positive, so CUMULATIVE and AVERAGE are defined |
| Fusion.AveragePriorIsDistribution | library/include/subjective_logic_lib/multi_source/fusion_operators.hpp:182-201 | `AveragePrior`: the average of prior distributions is a distribution |
| Fusion.FusedPriorIsDistribution | library/include/subjective_logic_lib/multi_source/fusion_operators.hpp:254-276 | fusing opinions whose priors are distributions gives a prior distribution, whichever path is taken |
| Fusion.CumulativePairwise | library/include/subjective_logic_lib/multi_source/fusion_operators.hpp:278-313 | for two opinions, multi-source cumulative fusion equals the pairwise cum_fuse |
| Fusion.AveragePairwise | library/include/subjective_logic_lib/multi_source/fusion_operators.hpp:332-366 | for two opinions, multi-source averaging fusion equals the pairwise average_fuse |
| Fusion.BcFuseVacuousLeft | library/include/subjective_logic_lib/multi_source/fusion_operators.hpp:315-330 | `BcFold` starts from the default opinion: belief-constraint fusion of the default opinion with o gives o |
| Fusion.BcFoldFromFirst | library/include/subjective_logic_lib/multi_source/fusion_operators.hpp:315-330 | folding from the default opinion is folding from the first opinion |
| Fusion.BeliefConstraintPairwise | library/include/subjective_logic_lib/multi_source/fusion_operators.hpp:315-330 | for two opinions, multi-source belief-constraint fusion equals the pairwise bc_fuse |
| Fusion.AverageOpinionPairwise | library/include/subjective_logic_lib/multi_source/fusion_operators.hpp:254-276 | for two Opinion<N>, multi-source averaging equals the pairwise average_fuse, prior included |
| Fusion.CumulativeOpinionPairwise | library/include/subjective_logic_lib/multi_source/fusion_operators.hpp:254-313 | for two Opinion<N>, multi-source cumulative fusion has the pairwise cum_fuse masses and the mean prior |
| Fusion.AddRow | library/include/subjective_logic_lib/multi_source/fusion_operators.hpp:236-243 | the accumulating std::transform adds one opinion's masses entry-wise |
| Fusion.DivideAll | library/include/subjective_logic_lib/multi_source/fusion_operators.hpp:245-248 | the final std::transform divides every entry by the count |
| Fusion.MeanOfRows | library/include/subjective_logic_lib/multi_source/fusion_operators.hpp:182-201 | accumulating rows into zeros and dividing by their number gives the entry-wise mean |
| Fusion.FindDogmatic | library/include/subjective_logic_lib/multi_source/fusion_operators.hpp:214-229 | the loop collects the uncertainties, whether any is below EPS, and the dogmatic opinions in order |
| Fusion.PreprocessOpinions | library/include/subjective_logic_lib/multi_source/fusion_operators.hpp:203-252 | one opinion is returned as is; any dogmatic opinion gives the mean of the dogmatic ones with the default prior; otherwise no result yet and the uncertainties |
| Fusion.ProductOf | library/include/subjective_logic_lib/multi_source/fusion_operators.hpp:265-267 | std::accumulate with std::multiplies from 1 gives the product of the uncertainties |
| Fusion.CofactorSum | library/include/subjective_logic_lib/multi_source/fusion_operators.hpp:299-303 | std::accumulate of p / u_i from 0 gives the sum of the cofactors |
| Fusion.AccumulateNumerators | library/include/subjective_logic_lib/multi_source/fusion_operators.hpp:289-297 | the nested loop accumulates mass k as the sum over opinions of b_ik p / u_i |
| Fusion.CumulativeOperator | library/include/subjective_logic_lib/multi_source/fusion_operators.hpp:278-313 | cumulative_fusion_operator divides the numerators by the cofactor sum less (m - 1) p |
| Fusion.AverageOperator | library/include/subjective_logic_lib/multi_source/fusion_operators.hpp:332-366 | average_fusion_operator divides the numerators by the cofactor sum |
| Fusion.BeliefConstraintOperator | library/include/subjective_logic_lib/multi_source/fusion_operators.hpp:315-330 | `BcFold`: belief_constraint_fusion_operator is bc_fuse of the default opinion with each opinion in turn |
| Fusion.ComputeAveragePrior | library/include/subjective_logic_lib/multi_source/fusion_operators.hpp:182-201 | average_prior computes the entry-wise mean of the priors |
| Fusion.FuseOpinions | library/include/subjective_logic_lib/multi_source/fusion_operators.hpp:156-180 | fuse_opinions computes the specified fusion: refusal for WEIGHTED, the preprocessing result, or the type's operator with the average prior |
| Fusion.DogmaticShortcutMasses | library/include/subjective_logic_lib/multi_source/fusion_operators.hpp:219-250 | fusing (1, 0), (1, 0), (0, 1), (0, 1) without base rate by any listed type takes the dogmatic shortcut and gives the mean (0.5, 0.5) |
| Fusion.DogmaticShortcutExample | library/include/subjective_logic_lib/multi_source/fusion_operators.hpp:254-273 | the same four opinions with any priors fuse to (0.5, 0.5) with the neutral prior (0.5, 0.5): the prior is averaged only after the shortcut |
| FusionOrder.DogmaticReordered | library/include/subjective_logic_lib/multi_source/fusion_operators.hpp:219-229 | reordering the list reorders the dogmatic opinions the shortcut averages: same multiset |
| FusionOrder.NormalizerReordered | library/include/subjective_logic_lib/multi_source/fusion_operators.hpp:299-304 | the product of the uncertainties and both the cumulative and the averaging denominator are independent of the order of the list |
| FusionOrder.NumeratorsReordered | library/include/subjective_logic_lib/multi_source/fusion_operators.hpp:289-297 | the numerators Σ_i b_i,k Π_{j≠i} u_j are independent of the order of the list |
| FusionOrder.FusedMassesReordered | library/include/subjective_logic_lib/multi_source/fusion_operators.hpp:203-366 | a reordered list is still fusable, and cumulative and averaging fusion without base rate (and every type on the dogmatic shortcut) give the same masses for any order |
| FusionOrder.BeliefConstraintPairReordered | library/include/subjective_logic_lib/multi_source/fusion_operators.hpp:315-330 | belief-constraint fusion of a list of two non-dogmatic opinions gives the same masses in either order, as the comment at line 323 promises |
| FusionOrder.FusedReordered | library/include/subjective_logic_lib/multi_source/fusion_operators.hpp:182-366 | fuse_opinions on Opinion<N> for cumulative and averaging fusion gives the same masses and the same mean prior for any order of the list |
| Conflicts.BeliefFusionType | library/include/subjective_logic_lib/multi_source/conflict_operators.hpp:178-204 | succeeds exactly for the four belief conflict types; ACCUMULATE and AVERAGE fail with the library's message naming the enumerator |
| Conflicts.BeliefFusionTypeInjective | library/include/subjective_logic_lib/multi_source/conflict_operators.hpp:178-197 | distinct belief conflict types map to distinct fusion types, and only BELIEF_WEIGHTED maps to WEIGHTED |
| Conflicts.SelectCount | library/include/subjective_logic_lib/multi_source/conflict_operators.hpp:211-225 | the masked list holds exactly one element per set flag, each taken from the input |
| Conflicts.SelectAll | library/include/subjective_logic_lib/multi_source/conflict_operators.hpp:211-229 | a mask with every flag set keeps the whole list, as the unmasked path does |
| Conflicts.SelectLeaveOut | library/include/subjective_logic_lib/multi_source/conflict_operators.hpp:382-397 | switching off flag i keeps every other opinion in its original order |
| Conflicts.SelectUsed | library/include/subjective_logic_lib/multi_source/conflict_operators.hpp:211-229 | the mask loop pushes back exactly the flagged opinions in order, or takes the list as it is without a mask |
| Conflicts.UsedSized | library/include/subjective_logic_lib/multi_source/conflict_operators.hpp:211-229 | the opinions an aggregate works on all have N masses and N prior entries |
| Conflicts.ConnectionsStep | library/include/subjective_logic_lib/multi_source/conflict_operators.hpp:344-348 | one more opinion adds m - 1 pairs to m (m - 1) / 2 |
| Conflicts.ConnectionsPositive | library/include/subjective_logic_lib/multi_source/conflict_operators.hpp:338-348 | two or more opinions have at least one pair, so the average never divides by zero |
| Conflicts.PairTotalUniform | library/include/subjective_logic_lib/multi_source/conflict_operators.hpp:306-332 | `PairTotal`: when every pair relates by the same value c, the accumulated relation is the number of pairs times c |
| Conflicts.AveragedUniform | library/include/subjective_logic_lib/multi_source/conflict_operators.hpp:334-349 | `Averaged`: when every pair relates by the same value c, the average relation over two or more opinions is c |
| Conflicts.AveragedOfRepeated | library/include/subjective_logic_lib/multi_source/conflict_operators.hpp:334-349 | `Averaged`: over two or more opinions, a pair total of c per pair averages to exactly c |
| Conflicts.PairTotalOfTwo | library/include/subjective_logic_lib/multi_source/conflict_operators.hpp:306-349 | `Relation` (degree of conflict or harmony as written), `PairTotal` and `Averaged`: for two opinions both ACCUMULATE and AVERAGE equal their pairwise degree of conflict or harmony |
| Conflicts.AccumulatedOperator | library/include/subjective_logic_lib/multi_source/conflict_operators.hpp:306-332 | the nested loop over the pairs i < j sums to the pair total, 0 for fewer than two opinions |
| Conflicts.RowTotal | library/include/subjective_logic_lib/multi_source/conflict_operators.hpp:318-328 | the inner loop adds up opinion i against every later opinion |
| Conflicts.AverageOperator | library/include/subjective_logic_lib/multi_source/conflict_operators.hpp:334-349 | the pair total divided by the number of pairs, 0 for fewer than two opinions |
| Conflicts.DogmaticPairConflict | library/test/unittest/subjective_logic/multi_source/conflict_operators.cpp:46-64 | two dogmatic opinions conflict with degree 1 on different hypotheses and 0 on the same one, whatever their priors |
| Conflicts.DistinctDogmaticConflict | library/test/unittest/subjective_logic/multi_source/conflict_operators.cpp:46-64 | opinions dogmatic on pairwise distinct hypotheses give ACCUMULATE = m (m - 1) / 2 and AVERAGE = 1 |
| Conflicts.AgreeingDogmaticConflict | library/test/unittest/subjective_logic/multi_source/conflict_operators.cpp:93-120 | opinions dogmatic on one hypothesis give ACCUMULATE = AVERAGE = 0 |
| Conflicts.RunningMaxBounds | library/include/subjective_logic_lib/multi_source/conflict_operators.hpp:438-447 | the running maximum from 0 is non-negative, at least every conflict, and either 0 or one of them |
| Conflicts.Reference | library/include/subjective_logic_lib/multi_source/conflict_operators.hpp:412-420 | the supplied reference is used if present; otherwise the fusion of the list, which fails exactly for WEIGHTED |
| Conflicts.BeliefConflicts | library/include/subjective_logic_lib/multi_source/conflict_operators.hpp:405-451 | one conflict per opinion in order, a maximum at least every conflict and non-negative, and failure exactly when WEIGHTED fusion must build the reference |
| Conflicts.Against | library/include/subjective_logic_lib/multi_source/conflict_operators.hpp:422-450 | `ReferenceConflicts` and `Against`: against a known reference: one conflict per opinion, the maximum bounding each of them, and the mean |
| Conflicts.ComputeBeliefConflicts | library/include/subjective_logic_lib/multi_source/conflict_operators.hpp:405-451 | the reference, the conflict loop and the max/sum pass compute exactly the belief conflicts |
| Conflicts.ConflictsAgainst | library/include/subjective_logic_lib/multi_source/conflict_operators.hpp:422-450 | the two loops after the reference is known compute the conflicts, their maximum and their mean |
| Conflicts.MaxAndSum | library/include/subjective_logic_lib/multi_source/conflict_operators.hpp:438-447 | the pass over the conflicts yields the running maximum from 0 and the sum |
| Conflicts.BeliefAggregate | library/include/subjective_logic_lib/multi_source/conflict_operators.hpp:351-359 | the belief conflict operator is the mean conflict against the fused reference, and fails exactly for BELIEF_WEIGHTED |
| Conflicts.Aggregate | library/include/subjective_logic_lib/multi_source/conflict_operators.hpp:205-254 | the dispatch applies the mask, then ACCUMULATE, AVERAGE or the belief operator; it fails exactly for BELIEF_WEIGHTED |
| Conflicts.FunctionSwitch | library/include/subjective_logic_lib/multi_source/conflict_operators.hpp:205-254 | the mask loop followed by the operator of the type computes exactly the aggregate |
| Conflicts.ConflictShares | library/include/subjective_logic_lib/multi_source/conflict_operators.hpp:361-403 | one share per opinion; an aggregate below EPS gives 0 and all-zero shares |
| Conflicts.ComputeConflictShares | library/include/subjective_logic_lib/multi_source/conflict_operators.hpp:361-403 | the aggregate of the list, then one masked aggregate per opinion, gives exactly the conflict shares |
| Conflicts.SharesLoop | library/include/subjective_logic_lib/multi_source/conflict_operators.hpp:382-400 | every share is 1 - (aggregate without that opinion) / aggregate |
| Conflicts.ShareOf | library/include/subjective_logic_lib/multi_source/conflict_operators.hpp:387-399 | switching one flag off and back on leaves every flag set and yields that opinion's share |
| Conflicts.AgreeingDogmaticShares | library/test/unittest/subjective_logic/multi_source/conflict_operators.cpp:93-120 | with no conflict among the opinions, ACCUMULATE and AVERAGE shares are all 0 and so is the aggregate |
| Conflicts.OutlierAverage | library/test/unittest/subjective_logic/multi_source/conflict_operators.cpp:122-135 | two agreeing opinions and one full outlier have an average conflict of 2/3 |
| Conflicts.OutlierLeftOut | library/test/unittest/subjective_logic/multi_source/conflict_operators.cpp:122-135 | leaving out an agreeing opinion leaves average conflict 1; leaving out the outlier leaves 0 |
| Conflicts.ConflictSharesOutlier | library/test/unittest/subjective_logic/multi_source/conflict_operators.cpp:122-135 | the outlier example gives the aggregate 2/3 and the shares (-0.5, -0.5, 1) |
| Conflicts.UncertaintyDifferentialsSplitOne | library/include/subjective_logic_lib/multi_source/conflict_operators.hpp:453-476 | `UncertaintyDifferentials`: when the uncertainties sum to EPS or more, the differentials sum to 1 and lie in [0, 1] for non-negative uncertainties; otherwise all are 0 |
| Conflicts.ComputeUncertaintyDifferentials | library/include/subjective_logic_lib/multi_source/conflict_operators.hpp:453-476 | the accumulated uncertainty and the transform give exactly the uncertainty differentials |
| Conflicts.ComputeTrustDifferentials | library/include/subjective_logic_lib/multi_source/conflict_operators.hpp:478-484 | the overload for trusted opinions gives the differentials of the extracted trusts |
| Conflicts.TrustDifferentialsSplitOne | library/include/subjective_logic_lib/multi_source/conflict_operators.hpp:478-484 | `TrustDifferentials`: when the trusts' uncertainties sum to EPS or more the differentials sum to 1, otherwise they are all 0 |
| TrustRevision.RelationOf | library/include/subjective_logic_lib/multi_source/trust_revision_operators.hpp:138-177 | the HARMONY_ revision types are driven by harmony, every other type by conflict |
| TrustRevision.Signed | library/include/subjective_logic_lib/multi_source/trust_revision_operators.hpp:213-216 | a conflict score is kept and a harmony score negated |
| TrustRevision.SumScores | library/include/subjective_logic_lib/multi_source/trust_revision_operators.hpp:210-218 | the scores of a list by a common factor add up to the score of their sum |
| TrustRevision.DiscountedSized | library/include/subjective_logic_lib/multi_source/trust_revision_operators.hpp:194-195 | the discounted opinions keep the size of every opinion |
| TrustRevision.NormalFactors | library/include/subjective_logic_lib/multi_source/trust_revision_operators.hpp:186-221 | one factor per opinion; failure exactly for BELIEF_WEIGHTED, which cannot fuse the discounted opinions |
| TrustRevision.NormalFactorsDistribute | library/include/subjective_logic_lib/multi_source/trust_revision_operators.hpp:186-221 | the factors add up to the aggregate over the discounted opinions (negated for harmony) in proportion to the trust uncertainties; all are 0 when the trust uncertainties sum below EPS |
| TrustRevision.SpreadScores | library/include/subjective_logic_lib/multi_source/trust_revision_operators.hpp:210-218 | `Scores`: weights that add up to 1 spread exactly the signed factor; zero weights give zero scores |
| TrustRevision.ScoreAdd | library/include/subjective_logic_lib/multi_source/trust_revision_operators.hpp:208-218 | `Score` is additive in the scored value: score(a) + score(b) = score(a + b), for conflict and for harmony |
| TrustRevision.ComputeNormalFactors | library/include/subjective_logic_lib/multi_source/trust_revision_operators.hpp:186-221 | the differentials, the aggregate over the discounted opinions and the scoring loop give exactly the normal factors |
| TrustRevision.ScoreEach | library/include/subjective_logic_lib/multi_source/trust_revision_operators.hpp:208-218 | the loop scores each differential by the aggregate, negated for harmony |
| TrustRevision.Magnitude | library/include/subjective_logic_lib/multi_source/trust_revision_operators.hpp:243-255 | the AVERAGE aggregate of the raw opinions, or for any other type that type's aggregate over the discounted opinions; failure exactly for BELIEF_WEIGHTED |
| TrustRevision.SharesFactors | library/include/subjective_logic_lib/multi_source/trust_revision_operators.hpp:223-276 | one factor per opinion from the AVERAGE shares of the raw opinions; failure exactly for BELIEF_WEIGHTED |
| TrustRevision.ScaledSharesSign | library/include/subjective_logic_lib/multi_source/trust_revision_operators.hpp:257-273 | `ScaledShares`: keeping only positive scores with a non-negative magnitude, conflict factors are at least 0 and harmony factors at most 0; without the filter the factors add up to the magnitude times the sum of the shares (negated for harmony) |
| TrustRevision.SharesFactorsAgreement | library/include/subjective_logic_lib/multi_source/trust_revision_operators.hpp:243-273 | when the raw opinions' AVERAGE aggregate is below EPS, every shares factor is 0 |
| TrustRevision.ComputeSharesFactors | library/include/subjective_logic_lib/multi_source/trust_revision_operators.hpp:223-276 | the shares, the magnitude and the scoring loop give exactly the shares factors |
| TrustRevision.ScaleEachShare | library/include/subjective_logic_lib/multi_source/trust_revision_operators.hpp:257-273 | the loop scales each share by the magnitude, zeroes negative shares when asked and negates for harmony |
| TrustRevision.RelativeScoresBounds | library/include/subjective_logic_lib/multi_source/trust_revision_operators.hpp:301-321 | `RelativeScores`: each reference score lies in [0, max] (negated for harmony), is non-zero exactly for conflicts above the mean when the maximum is positive, and the most conflicting opinion scores the maximum |
| TrustRevision.RelativeScoresMonotone | library/include/subjective_logic_lib/multi_source/trust_revision_operators.hpp:301-321 | `RelativeScores`: an opinion with more conflict gets a factor at least as large (for harmony, at least as negative) |
| TrustRevision.ReferenceFactors | library/include/subjective_logic_lib/multi_source/trust_revision_operators.hpp:278-324 | one factor per opinion; failure exactly for a non-belief conflict type or BELIEF_WEIGHTED |
| TrustRevision.ReferenceConflictsOf | library/include/subjective_logic_lib/multi_source/trust_revision_operators.hpp:287-295 | the conflicts of the raw opinions with the fusion of the discounted opinions, one per opinion, bounded by their maximum |
| TrustRevision.ReferenceFactorsBounds | library/include/subjective_logic_lib/multi_source/trust_revision_operators.hpp:287-321 | a successful reference revision scores the conflicts of the raw opinions with the fused discounted opinions, within [0, max], non-zero exactly above the mean, growing with the conflict |
| TrustRevision.ComputeReferenceFactors | library/include/subjective_logic_lib/multi_source/trust_revision_operators.hpp:278-324 | fusing the discounted opinions, measuring the raw ones against that reference and the scoring loop give exactly the reference factors |
| TrustRevision.ScoreAboveMean | library/include/subjective_logic_lib/multi_source/trust_revision_operators.hpp:303-321 | the loop gives 0 at or below the mean and max (c - mean) / (max - mean) above it, negated for harmony |
| TrustRevision.RevisionFactors | library/include/subjective_logic_lib/multi_source/trust_revision_operators.hpp:110-184 | the mask is applied, then one factor per selected opinion; failure exactly for BELIEF_WEIGHTED, or a reference type with a non-belief conflict type |
| TrustRevision.ComputeRevisionFactors | library/include/subjective_logic_lib/multi_source/trust_revision_operators.hpp:110-184 | the mask loop and the dispatch on the revision type give exactly the revision factors |
| TrustRevision.LoneSourceNormal | library/include/subjective_logic_lib/multi_source/trust_revision_operators.hpp:186-221 | a lone opinion has a zero ACCUMULATE or AVERAGE aggregate, so its normal factor is 0 |
| TrustRevision.LoneSourceShares | library/include/subjective_logic_lib/multi_source/trust_revision_operators.hpp:223-276 | a lone opinion has no AVERAGE conflict to share, so its shares factor is 0 |
| TrustRevision.LoneSourceReference | library/include/subjective_logic_lib/multi_source/trust_revision_operators.hpp:278-324 | a lone opinion's conflict equals the mean, so its reference factor is 0 |
| TrustRevision.LoneSourceKeepsTrust | library/include/subjective_logic_lib/multi_source/trust_revision_operators.hpp:110-184 | any revision type that succeeds on a lone opinion gives the factor 0 (for NORMAL only with ACCUMULATE or AVERAGE) |
| TrustedFusion.CombinedFactors | library/include/subjective_logic_lib/multi_source/trusted_fusion_operators.hpp:161-172 | one combined factor per trusted opinion, or the failure of the first weighted type whose factors fail |
| TrustedFusion.CombinedFactorsStep | library/include/subjective_logic_lib/multi_source/trusted_fusion_operators.hpp:163-172 | one more weighted type makes the combination fail exactly when the earlier types failed or the new one fails |
| TrustedFusion.CombinedFactorsFailure | library/include/subjective_logic_lib/multi_source/trusted_fusion_operators.hpp:163-172 | the combined factors fail exactly when the factors of one of the weighted types fail, whatever its weight |
| TrustedFusion.FailureSticks | library/include/subjective_logic_lib/multi_source/trusted_fusion_operators.hpp:163-172 | once a prefix of the weighted types fails, the whole combination fails with that failure |
| TrustedFusion.SingleTypeFactors | library/include/subjective_logic_lib/multi_source/trusted_fusion_operators.hpp:84-104 | one revision type with weight 1.0 combines to exactly that type's revision factors |
| TrustedFusion.AccumulateWeighted | library/include/subjective_logic_lib/multi_source/trusted_fusion_operators.hpp:168-171 | the inner loop adds weight times factor i to entry i of the combined factors, for every source |
| TrustedFusion.ComputeCombinedFactors | library/include/subjective_logic_lib/multi_source/trusted_fusion_operators.hpp:161-172 | the loop over the weighted types, starting from zeros, gives exactly the combined factors, computed from the original trusts |
| TrustedFusion.RevisedDiscountedByZero | library/include/subjective_logic_lib/multi_source/trusted_fusion_operators.hpp:121-133 | `RevisedDiscounted`: revising every trust by 0 leaves it alone, so the revised and discounted opinions are the plain discounted opinions |
| TrustedFusion.RevisedSized | library/include/subjective_logic_lib/multi_source/trusted_fusion_operators.hpp:174-180 | revising and discounting keeps every opinion's size |
| TrustedFusion.RevisedAll | library/include/subjective_logic_lib/multi_source/trusted_fusion_operators.hpp:141-144 | revising in place changes every trust by its factor and leaves every opinion and the list length unchanged |
| TrustedFusion.FusionCalculation | library/include/subjective_logic_lib/multi_source/trusted_fusion_operators.hpp:150-183 | trusted fusion revises each trust by its combined factor, discounts each opinion by its revised trust and fuses the results; a result has N masses and N prior entries |
| TrustedFusion.FusionCalculationFailure | library/include/subjective_logic_lib/multi_source/trusted_fusion_operators.hpp:150-183 | trusted fusion fails exactly for WEIGHTED fusion or when the factors of one of the weighted types fail |
| TrustedFusion.SingleTypeFusion | library/include/subjective_logic_lib/multi_source/trusted_fusion_operators.hpp:84-93 | `FuseSingle`: the single-type overload is fusion of the opinions discounted by the trusts revised by that type's factors |
| TrustedFusion.UnrevisedFusion | library/include/subjective_logic_lib/multi_source/trusted_fusion_operators.hpp:121-133 | the overload without revision types is the plain fusion of the discounted opinions |
| TrustedFusion.LoneCombinedZero | library/include/subjective_logic_lib/multi_source/trusted_fusion_operators.hpp:161-172 | with one trusted opinion, every combination of lone-safe types gives the factor 0 |
| TrustedFusion.LoneSourceFusion | library/include/subjective_logic_lib/multi_source/trusted_fusion_operators.hpp:150-183 | one trusted opinion fused after lone-safe revisions is its discounted opinion, with the trust unrevised |
| TrustedFusion.FuseOpinions | library/include/subjective_logic_lib/multi_source/trusted_fusion_operators.hpp:106-119 | the copying overload computes the factors, a revised and discounted copy of every trusted opinion, and the fusion, leaving the input list as it was |
| TrustedFusion.DiscountRevisedCopies | library/include/subjective_logic_lib/multi_source/trusted_fusion_operators.hpp:112-115 | the transform of the copying overload yields each opinion discounted by a revised copy of its trust |
| TrustedFusion.FuseOpinionsInPlace | library/include/subjective_logic_lib/multi_source/trusted_fusion_operators.hpp:135-148 | the in-place overload gives the same result as the copying one; it revises every trust in place by its factor and leaves the opinions and the length unchanged, or changes nothing when the factors fail |
| TrustedFusion.ReviseAndDiscount | library/include/subjective_logic_lib/multi_source/trusted_fusion_operators.hpp:141-144 | the in-place transform revises each trust by its factor and yields the opinion discounted by the revised trust |
| OpinionObjects.ConsensusSplit | library/include/subjective_logic_lib/opinions/opinion_no_base.hpp:1310-1316 | the first loop of `cc_fuse_` yields the consensus min(b_i, b'_i) of `NoBaseOpinions.Consensus`, its sum, and the residues b - consensus and b' - consensus |
| OpinionObjects.CompromiseDifferent | library/include/subjective_logic_lib/opinions/opinion_no_base.hpp:1320-1329 | the inner loop over j != i adds resA_i resB_j + resA_j resB_i, which totals resA_i times the sum of resB without entry i plus resB_i times the sum of resA without entry i |
| OpinionObjects.CompromiseOf | library/include/subjective_logic_lib/opinions/opinion_no_base.hpp:1318-1338 | the second loop yields the compromise of `NoBaseOpinions.Compromise` (resA_i u' + resB_i u + resA_i resB_i + the cross terms) and its sum |
| OpinionObjects.ProductFactor | library/include/subjective_logic_lib/opinions/opinion_no_base.hpp:1070-1072 | `fac` is the share ((1 - a) a' b u' + a (1 - a') u b') / (1 - a a') that the product adds to b b' |
| OpinionObjects.CoproductFactor | library/include/subjective_logic_lib/opinions/opinion_no_base.hpp:1094-1096 | `fac` is the share (a (1 - a') d u' + (1 - a) a' u d') / (a + a' - a a') that the coproduct adds to d d' |
| OpinionObjects.MultiplyEntries | library/include/subjective_logic_lib/opinions/opinion_no_base.hpp:1065-1077 | Jøsang's product has belief b b' + fac and disbelief d + (d' - d d'), the two values `multiply_` assigns |
| OpinionObjects.ComultiplyEntries | library/include/subjective_logic_lib/opinions/opinion_no_base.hpp:1089-1101 | Jøsang's coproduct has disbelief d d' + fac and belief b + (b' - b b'), the two values `comultiply_` assigns |
| OpinionObjects.OpinionNoBaseObject.constructor | library/include/subjective_logic_lib/opinions/opinion_no_base.hpp:737-740 | the object holds exactly the given masses |
| OpinionObjects.OpinionNoBaseObject.Uncertainty | library/include/subjective_logic_lib/opinions/opinion_no_base.hpp:820-823 | `uncertainty()` computed through the buffer's sum is 1 minus the sum of the masses |
| OpinionObjects.OpinionNoBaseObject.CumFuse | library/include/subjective_logic_lib/opinions/opinion_no_base.hpp:1113-1136 | in place, `cum_fuse_` leaves the masses equal to the cumulative fusion of the old masses with other, which `NoBaseOpinions` proves commutative and undone by `cum_unfuse_` |
| OpinionObjects.OpinionNoBaseObject.CumUnfuse | library/include/subjective_logic_lib/opinions/opinion_no_base.hpp:1138-1161 | in place, `cum_unfuse_` leaves the masses equal to the cumulative unfusion of the old masses by other, the inverse of `cum_fuse_` |
| OpinionObjects.OpinionNoBaseObject.AverageFuse | library/include/subjective_logic_lib/opinions/opinion_no_base.hpp:1235-1256 | in place, `average_fuse_` leaves the masses equal to the averaging fusion of the old masses with other, or the mean when both are dogmatic |
| OpinionObjects.OpinionNoBaseObject.AverageUnfuse | library/include/subjective_logic_lib/opinions/opinion_no_base.hpp:1265-1288 | in place, `average_unfuse_` leaves the masses equal to the as-written unfusion (see Findings), so this operator does not undo `average_fuse_` |
| OpinionObjects.OpinionNoBaseObject.AverageUnfuseCorrected | library/include/subjective_logic_lib/opinions/opinion_no_base.hpp:1265-1288 | in place, the corrected unfusion leaves the masses of `NoBaseOpinions.AverageUnfuseCorrected`, which undoes `average_fuse_` |
| OpinionObjects.OpinionNoBaseObject.WbFuse | library/include/subjective_logic_lib/opinions/opinion_no_base.hpp:1382-1413 | in place, `wb_fuse_` leaves the masses equal to the weighted belief fusion of the old masses with other, with the mean and vacuous fallbacks |
| OpinionObjects.OpinionNoBaseObject.BcFuse | library/include/subjective_logic_lib/opinions/opinion_no_base.hpp:1210-1226 | in place, `bc_fuse_` leaves the masses equal to the harmony normalised by 1 - conflict, or the neutral opinion when the conflict is 1 |
| OpinionObjects.OpinionNoBaseObject.CcFuse | library/include/subjective_logic_lib/opinions/opinion_no_base.hpp:1297-1358 | in place, `cc_fuse_` leaves the masses equal to consensus plus the normalised compromise, or the vacuous masses when the compromise sums to nearly 0 |
| OpinionObjects.OpinionNoBaseObject.TrustDiscount | library/include/subjective_logic_lib/opinions/opinion_no_base.hpp:1436-1440 | in place, `trust_discount_(p)` multiplies every mass by p and touches nothing else |
| OpinionObjects.OpinionNoBaseObject.TrustDiscountByTrust | library/include/subjective_logic_lib/opinions/opinion_no_base.hpp:1422-1426 | in place, discounting by a binomial trust is discounting by its projection with the given base rate |
| OpinionObjects.OpinionNoBaseObject.LimitedTrustDiscount | library/include/subjective_logic_lib/opinions/opinion_no_base.hpp:1465-1477 | in place, the loop leaves the value `NoBaseOpinions.LimitedTrustDiscount` gives: p clamped to [(1 - limit)/(1 - u), 1], or for a vacuous opinion 1 when limit <= 1 and min(1, p) otherwise |
| OpinionObjects.OpinionNoBaseObject.LimitedTrustDiscountByTrust | library/include/subjective_logic_lib/opinions/opinion_no_base.hpp:1449-1454 | in place, the limited discount uses the trust's projection with the given base rate |
| OpinionObjects.OpinionNoBaseObject.ReviseTrust | library/include/subjective_logic_lib/opinions/opinion_no_base.hpp:1037-1055 | in place, the factor is clamped to [-1, 1]; a negative factor raises belief and shrinks disbelief, any other shrinks belief and raises disbelief |
| OpinionObjects.OpinionNoBaseObject.ReviseTrustByConflict | library/include/subjective_logic_lib/opinions/opinion_no_base.hpp:1020-1026 | in place, the revision factor is the uncertainty differential times the degree of conflict |
| OpinionObjects.OpinionNoBaseObject.Multiply | library/include/subjective_logic_lib/opinions/opinion_no_base.hpp:1065-1077 | in place, `multiply_` leaves Jøsang's product of the old masses with other |
| OpinionObjects.OpinionNoBaseObject.Comultiply | library/include/subjective_logic_lib/opinions/opinion_no_base.hpp:1089-1101 | in place, `comultiply_` leaves Jøsang's coproduct of the old masses with other |
| OpinionObjects.OpinionObject.constructor | library/include/subjective_logic_lib/opinions/opinion.hpp:714-717 | the object holds exactly the given masses and prior, in two separate arrays |
| OpinionObjects.OpinionObject.Uncertainty | library/include/subjective_logic_lib/opinions/opinion.hpp:759-762 | the opinion's uncertainty is that of its masses |
| OpinionObjects.OpinionObject.CumFuse | library/include/subjective_logic_lib/opinions/opinion.hpp:1065-1084 | with the uncertainties read before the masses change, the object holds the cumulative fusion of masses and prior, with the mean prior as fallback |
| OpinionObjects.OpinionObject.CumUnfuse | library/include/subjective_logic_lib/opinions/opinion.hpp:1086-1090 | only the masses are unfused and the prior stays as it was |
| OpinionObjects.OpinionObject.BcFuse | library/include/subjective_logic_lib/opinions/opinion.hpp:1115-1132 | the masses are fused by belief constraint and the prior is weighted by 1 - u and 1 - u', with the mean as fallback |
| OpinionObjects.OpinionObject.AverageFuse | library/include/subjective_logic_lib/opinions/opinion.hpp:1141-1147 | the masses are fused by averaging and the prior becomes the mean of the two priors |
| OpinionObjects.OpinionObject.WbFuse | library/include/subjective_logic_lib/opinions/opinion.hpp:1156-1174 | the masses get weighted belief fusion and the prior the same certainty weighting as `bc_fuse_` |
| OpinionObjects.OpinionObject.CcFuse | library/include/subjective_logic_lib/opinions/opinion.hpp:1183-1188 | the masses get consensus and compromise fusion and the prior is not updated |
| OpinionObjects.OpinionObject.Multiply | library/include/subjective_logic_lib/opinions/opinion.hpp:1029-1037 | the masses become the product under both prior beliefs, and the prior becomes (a a', 1 - a a') |
| OpinionObjects.OpinionObject.Comultiply | library/include/subjective_logic_lib/opinions/opinion.hpp:1047-1055 | the masses become the coproduct, and the prior becomes (a + a' - a a', 1 - that) |
| OpinionObjects.OpinionObject.TrustDiscount | library/include/subjective_logic_lib/opinions/opinion.hpp:1228-1233 | only the masses are discounted by p and the prior is kept |
| OpinionObjects.OpinionObject.TrustDiscountByTrust | library/include/subjective_logic_lib/opinions/opinion.hpp:1213-1217 | the masses are discounted by the trust's binomial projection and the prior is kept |
| OpinionObjects.OpinionObject.LimitedTrustDiscount | library/include/subjective_logic_lib/opinions/opinion.hpp:1260-1265 | only the masses get the limited discount and the prior is kept |
| OpinionObjects.OpinionObject.LimitedTrustDiscountByTrust | library/include/subjective_logic_lib/opinions/opinion.hpp:1245-1249 | the limited discount uses the trust's binomial projection and the prior is kept |
| OpinionObjects.OpinionObject.ReviseTrust | library/include/subjective_logic_lib/opinions/opinion.hpp:1014-1019 | the masses are revised and the prior is kept |
| OpinionObjects.OpinionObject.ReviseTrustByConflict | library/include/subjective_logic_lib/opinions/opinion.hpp:999-1004 | the masses are revised by the conflict-scaled uncertainty differential and the prior is kept |
| OpinionObjects.RevisionFactors | library/include/subjective_logic_lib/opinions/trusted_opinion.hpp:307-310 | both revision factors are computed from the old trusts and are exactly the pair of `TrustedOpinions.PairRevisionFactors` |
| OpinionObjects.TrustedOpinionObject.constructor | library/include/subjective_logic_lib/opinions/trusted_opinion.hpp:242-244 | the object holds the given trust and opinion in four separate arrays |
| OpinionObjects.TrustedOpinionObject.ReviseTrust | library/include/subjective_logic_lib/opinions/trusted_opinion.hpp:291-295 | only the trust's masses change, to the revision by f; the opinion and the trust's prior are untouched |
| OpinionObjects.TrustedOpinionObject.RevisePair | library/include/subjective_logic_lib/opinions/trusted_opinion.hpp:305-316 | for two different objects, both trusts are revised by factors computed before either changes, which is `TrustedOpinions.RevisePair`; for `x.revise_trust_(x)` the one trust is revised twice, by both factors of the pair with itself |

## Left out

- `OpinionNoBase::deduction` and `Opinion::deduction` (opinion_no_base.hpp, opinion.hpp) are not part of this model. Their formulas divide by differences of projections and rely on IEEE infinities for the degenerate cases.
- `DirichletDistribution::evaluate` is not modelled. The probability density needs `tgamma` and real powers, which have no exact counterpart over `real`.
- `dissonance()` is not modelled. It is a pairwise balance measure over the masses, and none of the model's other operations depend on it.
- `to_string()` and `operator<<` are not modelled, because they are output formatting.
- `cuda_compatible_iterator.hpp` is not part of this model. The `Array` class exposes its entries as a sequence instead of through iterators.
- `TrustedOpinion::extractOpinionsRef` and `extractTrustsRef` are not modelled, because they return `std::reference_wrapper`s into the caller's vector. The in-place trusted fusion (`TrustedFusion.FuseOpinionsInPlace`) writes the revised trusts back itself.
- The variadic-template and `std::initializer_list` overloads of the multi-source operators are not modelled separately. They build a vector and call the vector overload, which the model covers.
- The accessors of `Opinion` that only forward to the wrapped `OpinionNoBase` are used through the `base` field. These are `evidence`, `belief_mass`, `belief_masses`, `getProbability`, `getProbabilities`, `harmony` and `conflict`.
- The in-place `*_` operators return `*this` by reference for chaining; the methods of `OpinionObjects` return nothing. Their arguments are passed by value in the headers and are values in the model, so an argument cannot alias `*this`. The exception is `TrustedOpinion::revise_trust_(TrustedOpinion&)`, whose aliasing is modelled.
- The `moment_matching_update_` and `deduction_` operators have no in-place method. The first is modelled on values in `Convert`, and the second is not part of this model.
- The conflict operators, trust revision and trusted fusion are modelled for `Opinion<N>` (masses with a prior) only. The same templates also accept `OpinionNoBase<N>`, which is not modelled there. `Fusion` covers both, with `FusedMasses` over `OpinionNoBase` and `Fused` over `Opinion`.
- `Fusion.Fused` requires a non-empty list. For an empty list the source computes `size() - 1` on an unsigned value and divides by zero.
- The model adds a non-zero `requires` wherever the source divides and would continue with an infinity or NaN. This applies to the fusion normalisers (`Fusion.Defined`), the unfuse denominators, the Dirichlet strength and the moment-matching factor. For those inputs the model says nothing about the resulting value.
- TrustedOpinions.RevisePairProperties: the swap of the two results is stated only for binomial opinions or equal priors. For N > 2 and different priors the code's degree of conflict depends on the order of the pair (see "Findings"), so the swap does not hold there.
- Opinions.ConflictSymmetric: symmetry of the degree of conflict as written is stated only for binomial opinions or equal priors, for the same reason; the corrected degree is symmetric for all inputs.
- Conflicts.ConflictShares: is stated for the ACCUMULATE and AVERAGE conflict types only; for the belief conflict types, the per-source shares are not related to the `reference` conflicts by a lemma.
- The `default:` branches that throw `std::logic_error` for an unknown enumerator cannot be reached, because every enumerator is a constructor of the model's datatype. The exception is `Fusion::fuse_opinions`, which throws for `Weighted`; that case is modelled as a `Failure`.
- The reference-fusion trust revision and the belief conflict types require a non-empty list, because they fuse the list and the fusion of an empty list divides by zero.
- FusionOrder.FusedReordered: is stated for cumulative and averaging fusion, and for any type once a dogmatic opinion is present. Belief-constraint fusion of non-dogmatic opinions is a left fold of the pairwise `bc_fuse`. The comment at fusion_operators.hpp:323 calls it commutative; the model proves the pairwise fact (`NoBaseOpinions.BcFuseCommutative`) but not that the whole fold is independent of the list's order.
- FusionOrder.FusedMassesReordered: leaves out belief-constraint fusion of non-dogmatic lists for the same reason; the fused masses of such a list are proved independent of its order only for two opinions (`FusionOrder.BeliefConstraintPairReordered`).
- The approximate three-source examples of Jøsang's book are not restated. The library compares them with a tolerance of 0.05 on floating-point results.
- `EPS_v<float>` is recorded as `Util.EPS_FLOAT`, but every operation uses the double tolerance `Util.EPS`.
- Floating-point rounding is not modelled. `FloatT` is an exact `real`, and `fminf` in `cc_fuse_` is the exact minimum.
- The Python bindings, the publication scripts and the CUDA qualifiers are not modelled.
- The compile-time dimension `N` is a length that every contract requires the sequences to share. It is not a type parameter.

## Findings

| source | as written | input that shows it | evidently intended | confidence | as-written member | corrected member |
|---|---|---|---|---|---|---|
| library/include/subjective_logic_lib/types/cuda_compatible_array.hpp:519-534 | `as_vector` and `as_array` loop over indices 1 to N-1, so entry 0 is skipped | any array with N >= 1: `as_vector` returns N-1 entries and `as_array` leaves element 0 unset | all N entries, in order | not executed | CudaArray.Array.AsVector | CudaArray.Array.AsVectorCorrected |
| library/include/subjective_logic_lib/opinions/opinion_no_base.hpp:964-983 | for N > 2 the array `degree_of_conflict` projects `other` with this opinion's base rate | both opinions with masses (0.5, 0, 0), base rates (1, 0, 0) and (0, 1, 0): the result is 0 | each opinion projected with its own base rate, which gives 0.125 | not executed | NoBaseOpinions.ConflictAsWrittenExample | NoBaseOpinions.ConflictCorrectedSymmetric |
| library/include/subjective_logic_lib/opinions/opinion_no_base.hpp:998-1017 | for N == 2 the array `degree_of_harmony` returns `degree_of_conflict` | the dogmatic opinions (1, 0) and (0, 1), base rates (0.5, 0.5): harmony 1 | harmony 1 - conflict, which gives 0 | not executed | NoBaseOpinions.HarmonyAsWrittenExample | NoBaseOpinions.CorrectedSplit |
| library/include/subjective_logic_lib/opinions/opinion_no_base.hpp:1264-1288 | `average_unfuse_` computes `(2 b u' + b' u) / (2 u' - u)` | unfusing (0, 0.5) from their average (0.25, 0.25) gives (0.5, 1.0) and not the other operand | Jøsang's averaging unfusion `(2 b u' - b' u) / (2 u' - u)`, which returns (0.5, 0) | not executed | NoBaseOpinions.AverageUnfuseAsWrittenBreaksRoundTrip | NoBaseOpinions.AverageFuseUnfuseRoundTrip |
| library/include/subjective_logic_lib/opinions/opinion.hpp:797-802 | `complement()` swaps the masses but keeps the prior | the binomial opinion b = 0.2, d = 0.3, a = 0.8 projects to 0.6, and its complement projects to 0.7 | the complement also complements the prior, so that it projects to 1 - 0.6 = 0.4 | not executed | Opinions.ComplementAsWrittenExample | Opinions.ComplementCorrectedProjection |
