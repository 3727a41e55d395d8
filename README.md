# Aquila core, modelled and verified in Dafny

This project models the core of Aquila, a C++ library for audio feature
extraction. It covers the following parts, and the proofs are about their
index arithmetic, their loops and their state:

- `Transform`: frame energy and power, the radix-2 FFT and the DCT.
  - The FFT has a Gold–Rader bit-reversal loop, butterfly stages, N/2
    scaling and a maximum-magnitude scan.
  - The frame FFT pre-emphasises, windows and zero-pads the frame.
  - The cosine and twiddle tables are memoised.
- Windows: the window functions and the memoising window caches, in the
  trunk version and the 2.5.2 version. Both versions share one static
  sample position across all generators. There is also the generic
  get-or-generate `Cache`.
- Mel filters: `MelFilter` (Mel bounds, triangular weights, the two `apply`
  overloads) and the two versions of `MelFiltersBank`. The trunk bank is
  uniform only; the 2.5.3 bank is uniform or HFCC (centres equally spaced
  in Mel, widths from the equivalent rectangular bandwidth).
- Feature extraction:
  - the `Extractor` base: save, read, compatibility, and a trace-recording
    processing indicator;
  - the Energy, Power, MFCC and HFCC extractors. HFCC comes in its trunk form
    and its 2.5.3 form;
  - the static filter-bank pointers and their rebuild rule, keyed on
    (frequency, N);
  - the `ExtractorFactory`, which dispatches on the feature-type name.
- Small helpers: the window-name mapping, unit conversions, the `Frame`
  iterator and `DtwPoint`.
- Dynamic time warping (`Dtw`):
  - local distances under four distance functions;
  - the dynamic-programming pass with two pass types and strict-`<`
    tie-breaking;
  - normalisation;
  - `getPath`, which walks the predecessor links.

The main DTW result is `Dtw.LowestCostChain`. The accumulated distance of a
cell equals the sum of the local distances along its chain of recorded
predecessors. No chain that the candidate sets allow costs less. `getPath`
returns that chain (`Dtw.PathIsChain`).

How the C++ is modelled:

- Files with the same name in different versions (trunk, src, tags,
  branches) are modelled separately.
- Classes whose fields change in place are Dafny classes; values are
  datatypes.
- A C++ subclass is a class holding its base-class part (`core`, `mfcc`).
- Static state is an explicit object that every caller passes in: the window
  cache with its generator position, and the filter-bank pointers.
- Doubles are idealised as `real`. The transcendental functions (sqrt, log,
  log10, exp, cos, pow, complex exp and magnitude) are fields of a `Maths`
  value. The few facts a proof needs about them are predicates on that value.
- 32-bit unsigned arithmetic is written out with `% 2^32` where the source's
  `unsigned int` can wrap.

## Model

| member | source | states |
|---|---|---|
| BitReversal.RevInvolution | src/Transform.cpp:80-95 | reversing log2(N) bits twice gives the index back |
| BitReversal.RevPermutes | src/Transform.cpp:80-95 | the bit reversal maps [0, 2^k) into itself and no two indices share a reversal |
| BitReversal.RevEnds | src/Transform.cpp:83-87 | 0 and N-1 are fixed points of the reversal, so the loop never writes them |
| BitReversal.RevIncrement | src/Transform.cpp:88-94 | one pass of the carry loop: a clear low bit sets the top bit of the reversal, otherwise the carry moves to w / 2 |
| BitReversal.BitReversed | src/Transform.cpp:80-95 | the buffer after the bit-reversal loop keeps the data's length (entry i is data[rev(i)], a fixed point keeps its old value) |
| BitReversal.Staged | src/Transform.cpp:81-87 | the buffer after the indices below w are handled keeps the data's length |
| BitReversal.SwapStep | src/Transform.cpp:83-87 | the swap for b - 1 == y changes no length |
| BitReversal.StagedStep | src/Transform.cpp:83-87 | one outer iteration with b < a writes exactly the pair (y, rev(y)) and moves the staged buffer from y to y + 1 |
| BitReversal.ReversedIncrement | src/Transform.cpp:88-94 | the inner loop turns a - 1 == rev(b - 1) into a - 1 == rev(b) |
| BitReversal.BitReverse | src/Transform.cpp:80-95 | after the loop spectrum[i] == data[rev(i)] for every i != rev(i), and every fixed point keeps its previous contents |
| Butterflies.OffsetBelow | src/Transform.cpp:124-133 | the butterfly offset of an index is below M |
| Butterflies.PartnerInside | src/Transform.cpp:127-131 | the partner i + M of a lower-half index, or i - M of an upper-half one, lies inside the buffer |
| Butterflies.StageResult | src/Transform.cpp:124-135 | a whole stage keeps the buffer length |
| Butterflies.PartialStage | src/Transform.cpp:124-135 | the buffer part-way through a stage keeps its length |
| Butterflies.ButterflyIndices | src/Transform.cpp:127-131 | for 1 <= p <= M and block t < N / L, q - 1 and r - 1 = q + M - 1 lie in [0, N), in block t, at offsets p - 1 and p - 1 + M |
| Butterflies.ButterflyAt | src/Transform.cpp:129-132 | the only entries of block t at butterfly offset p - 1 are q - 1 and r - 1 |
| Butterflies.ButterflyStep | src/Transform.cpp:129-132 | one butterfly (Temp = s[r-1] W; s[r-1] = s[q-1] - Temp; s[q-1] = s[q-1] + Temp) finishes that butterfly in one more block |
| Butterflies.ButterflyDone | src/Transform.cpp:127-134 | after the last block of butterfly p the next butterfly starts |
| Butterflies.StageEnds | src/Transform.cpp:124-135 | a stage starts from the unchanged buffer and ends, after M butterflies, with StageResult |
| Butterflies.Stage | src/Transform.cpp:121-135 | the p and q loops leave StageResult: the lower half of each block gets s[i] + s[i+M] Wi[p-1], the upper half s[i-M] - s[i] Wi[p-1]; every index used lies in [0, N) and the row is read only at p <= M |
| Transform.Energy | src/Transform.cpp:36-37 | the sum of squared samples is never negative and is 0 exactly when every sample is 0 |
| Transform.FrameLogEnergy | src/Transform.cpp:34-40 | log10 of the energy when it is positive, exactly 0.0 when it is 0, hence 0.0 for an all-zero frame |
| Transform.FramePower | src/Transform.cpp:50-56 | the power times the frame length is the energy, and the power is never negative |
| Transform.WiRow | src/Transform.cpp:316-324 | twiddle row k has M + 1 = 2^(k-1) + 1 entries and starts at cplx(1.0) |
| Transform.WiRowGeometric | src/Transform.cpp:318-324 | every later entry of a row is the previous one times W = exp(-2 pi j / 2^k) |
| Transform.WiTable | src/Transform.cpp:313-325 | the twiddle table has numStages + 1 rows, row 0 empty and row k the geometric row of stage k |
| Transform.CosineTable | src/Transform.cpp:258-269 | the cosine table has outputLength rows of inputLength entries cos(pi (2k+1) n / (2 inputLength)) |
| Transform.DctSpec | src/Transform.cpp:216-235 | the DCT output has the output's length and entry n is the sum over k of log(abs(data[k]) + 1e-10) cos[n][k], times sqrt(1/L) for n = 0 and sqrt(2/L) otherwise |
| Transform.Stages | src/Transform.cpp:117-136 | the buffer after butterfly stages 1..k keeps its length |
| Transform.Scaled | src/Transform.cpp:145-148 | scaling by N/2 keeps the length |
| Transform.FftSpectrum | src/Transform.cpp:72-155 | the spectrum after bit reversal, all stages and scaling keeps the data's length |
| Transform.Preemphasised | src/Transform.cpp:179-197 | the data vector has the zero-padded length, data[0] is the first sample, data[n] = (x[n] - factor x[n-1]) window[n] for 1 <= n < length, zeros after |
| Transform.PreemphasisedIs | src/Transform.cpp:179-197 | a vector with exactly those entries is the pre-emphasised vector |
| Transform.WindowAfter | src/Transform.cpp:194-195 | a frame of length >= 2 leaves its window table cached |
| Transform.TwiddleRow | src/Transform.cpp:317-324 | the inner loop of getCachedFftWi builds exactly WiRow |
| Transform.CosineRow | src/Transform.cpp:261-268 | the inner loop of getCachedCosines fills row n with the DCT cosines |
| Transform.AccumulateDct | src/Transform.cpp:227-232 | output[n] becomes the DCT sum for n and the other entries are unchanged |
| Transform.DctEntry | src/Transform.cpp:234 | the sum scaled by c0 or cn is the DCT entry |
| Transform.DctCoefficient | src/Transform.cpp:225-235 | one outer iteration sets output[n] to DctSpec's entry n and leaves the rest alone |
| Transform.PartlyScaled | src/Transform.cpp:145-152 | the partly scaled buffer keeps its length |
| Transform.PartlyScaledStep | src/Transform.cpp:147-148 | one more iteration divides exactly entries k and N/2 + k |
| Transform.PartlyScaledAll | src/Transform.cpp:145-152 | after N/2 iterations every one of the N entries is divided by N/2 exactly once |
| Transform.ScalePair | src/Transform.cpp:147-151 | entries k and N/2 + k are divided by N/2, nothing else changes, and the running maximum rises to abs(spectrum[k]) only when that is larger |
| Transform.StagesStep | src/Transform.cpp:117-136 | stage k applied after stages 1..k-1 gives stages 1..k |
| Transform.ButterflyStages | src/Transform.cpp:117-136 | the stage loop leaves Stages(old spectrum, log2 N) |
| Transform.StageK | src/Transform.cpp:119-135 | stage k with L = 2^k, M = 2^(k-1) and row Wi[k] moves the buffer from stage k-1 to stage k |
| Transform.Transform.constructor | trunk/src/Transform.h:81-84 | the transform holds the given length, window type and pre-emphasis factor, with empty caches |
| Transform.Transform.GetCachedFftWi | src/Transform.cpp:303-331 | returns the twiddle table for numStages; a cache hit leaves the cache unchanged, a miss stores the computed table under numStages |
| Transform.Transform.GetCachedCosines | src/Transform.cpp:247-275 | returns the cosine table for (inputLength, outputLength); a hit leaves the cache unchanged, a miss stores the new table |
| Transform.Transform.Dct | src/Transform.cpp:210-236 | every output entry is overwritten with DctSpec's value, the output length is kept, and the cosine table for (input, output length) is cached |
| Transform.Transform.Fft | src/Transform.cpp:72-155 | the spectrum becomes FftSpectrum of the data and the old buffer, and the result is the largest magnitude among the first N/2 scaled entries (>= 0, attained unless 0) |
| Transform.Transform.ScaleAndFindMax | src/Transform.cpp:138-154 | every entry is divided by N/2 and the result is the maximum magnitude among the first N/2 entries, or 0.0 |
| Transform.Transform.FftFrame | src/Transform.cpp:172-200 | the spectrum becomes the FFT of the pre-emphasised, windowed, zero-padded frame, and the frame's window table is cached |
| Transform.Transform.PreemphasiseFrame | src/Transform.cpp:179-197 | the new data vector is exactly Preemphasised of the frame's samples |
| Transform.Transform.EmphasiseSamples | src/Transform.cpp:191-197 | the loop writes data[n] = (x[n] - factor x[n-1]) window[n] for 1 <= n < length and leaves data[0] and the padding alone |
| Transform.Transform.EmphasiseStep | src/Transform.cpp:193-196 | one pass writes data[n] from the sample under the iterator and advances the iterator by one |
| WindowFunctions.TypeOf | src/Window.cpp:141-160 | each window method belongs to one of the six enumerators |
| WindowFunctions.Span | src/Window.cpp:77 | double(N - 1) in unsigned arithmetic is never negative and equals N - 1 for N >= 1 |
| WindowFunctions.BarlettEnds | src/Window.cpp:99-102 | for N >= 2 the triangular window is 0 at n = 0 and n = N - 1 |
| WindowFunctions.BarlettSymmetric | src/Window.cpp:99-102 | the triangular window takes the same value at n and N - 1 - n |
| WindowFunctions.BarlettBounded | src/Window.cpp:99-102 | on 0 <= n <= N - 1 the triangular window lies in [0, 1] |
| WindowFunctions.WindowTable | src/Window.cpp:51 | a generated table of size N has N entries |
| WindowFunctions.RectangularTable | src/Window.cpp:63-66 | a rectangular table is all 1.0 and does not depend on the generator position |
| Window.DispatchCases | src/Window.cpp:141-164 | each of the six enumerators selects its own window function, every other value selects Hamming, and dispatching a method's own enumerator gives the method back |
| Window.Ensured | src/Window.cpp:33-39 | after a lookup the key is present; a hit changes nothing; a miss stores the table generated from the current position and advances the position by N modulo 2^32; no other table changes |
| Window.EnsuredIdempotent | src/Window.cpp:33-39 | asking for the same key twice changes nothing the second time |
| Window.ConsecutiveWindows | src/Window.cpp:174-178 | two tables created one after another: the second starts at the position where the first stopped, because the generator position is shared and never reset |
| Window.EnsuredWellFormed | src/Window.cpp:33-39 | every table in the cache keeps the length of its key |
| Window.Window.constructor | src/Window.cpp:20 | the cache starts empty with the generator position at 0 |
| Window.Window.CreateWindow | src/Window.cpp:46-54 | returns the N generator outputs from the current position and advances the position by N modulo 2^32 |
| Window.Window.Generate | src/Window.cpp:51 | one step of generate_n stores the next table entry and advances the position by one |
| Window.Window.Apply | src/Window.cpp:33-39 | the new cache state is Ensured of the old one and the result is entry n of the table for (type, N) |
| Window.WinGenerator.constructor | src/Window.cpp:138-165 | the generator holds the dispatched window method and the size |
| Window.WinGenerator.Next | src/Window.cpp:174-178 | returns the window formula at the shared position and increments that position modulo 2^32 |
| WindowV252.DispatchCases | tags/AQUILA_2_5_2/src/Window.cpp:140-164 | the five non-rectangular enumerators select their own function; WIN_RECT and every other value select Hamming, so the generator never yields a rectangular window |
| WindowV252.Ones | tags/AQUILA_2_5_2/src/Window.cpp:65 | the rectangular table is N ones |
| WindowV252.Ensured | tags/AQUILA_2_5_2/src/Window.cpp:33-41 | a hit changes nothing; a rectangular miss stores N ones and leaves the position alone; any other miss stores N generator outputs and advances the position by N; no other table changes |
| WindowV252.PositionAdvances | tags/AQUILA_2_5_2/src/Window.cpp:51-68 | the shared position moves only when a non-rectangular table is generated |
| WindowV252.EnsuredIdempotent | tags/AQUILA_2_5_2/src/Window.cpp:37-40 | an existing table is never overwritten, however often it is asked for |
| WindowV252.EnsuredWellFormed | tags/AQUILA_2_5_2/src/Window.cpp:33-68 | every cached table keeps the length of its key |
| WindowV252.Window.constructor | tags/AQUILA_2_5_2/src/Window.cpp:20 | the map starts empty with the generator position at 0 |
| WindowV252.Window.CreateWindow | tags/AQUILA_2_5_2/src/Window.cpp:51-68 | the new state is Ensured of the old one for a key not yet present |
| WindowV252.Window.GenerateAll | tags/AQUILA_2_5_2/src/Window.cpp:58-60 | returns size generator outputs from the current position and advances the position by size modulo 2^32 |
| WindowV252.Window.Apply | tags/AQUILA_2_5_2/src/Window.cpp:33-41 | the new state is Ensured of the old one and the result is entry n of the table for (type, N) |
| WindowV252.WinGenerator.constructor | tags/AQUILA_2_5_2/src/Window.cpp:140-164 | the generator holds the dispatched method and the size |
| WindowV252.WinGenerator.Next | tags/AQUILA_2_5_2/src/Window.cpp:173-177 | returns the window formula at the shared position and increments it modulo 2^32 |
| Caches.Cache.constructor | branches/cache/src/Cache.h:65 | the cache holds the given generator and an empty map |
| Caches.Cache.Get | branches/cache/src/Cache.h:92-108 | a hit returns the stored value and leaves the map alone; a miss stores and returns generator(key); the value is always generator(key), the key is present afterwards and no other entry changes |
| Tools.WindowTypeToString | branches/cache/src/Tools.cpp:22-40 | an enumerator gets one of the six names and exactly the values outside the enumeration get "Unknown" |
| Tools.StringToWindowType | branches/cache/src/Tools.cpp:50-78 | each of the six names maps to the enumerator whose name it is; every other string maps to WIN_HAMMING |
| Tools.RoundTrips | branches/cache/src/Tools.cpp:22-78 | type -> name -> type is the identity on the enumeration; name -> type -> name is the identity on the six names and gives "Hamming" for any other string |
| Tools.SpectrumPeakToHz | branches/cache/src/Tools.h:36-40 | the result times the spectrum size is sampleFrequency * peakNum, so peak 0 is 0 Hz and peak spectrumSize is the sample frequency |
| Tools.FrameNumToMs | branches/cache/src/Tools.h:50-54 | frame 0 starts at 0 ms, no overlap gives frameLength * frameNum and full overlap gives 0 |
| Tools.FrameNumToMsMonotone | branches/cache/src/Tools.h:50-54 | with overlap in [0, 1] a later frame never starts earlier |
| Maths.Log2 | src/Transform.cpp:101-102 | the stage count k of a power of two N satisfies 2^k == N |
| Frames.Frame.constructor | branches/cache/src/Frame.cpp:113-117 | the frame keeps the source channel and its boundaries as given |
| Frames.Frame.Samples | src/Transform.cpp:180-197 | iterating from begin() to end() visits getLength() samples, sample i being source[_begin + i] |
| Frames.Frame.Begin | src/Transform.cpp:181 | a new iterator of this frame at _begin |
| Frames.Frame.End | src/Transform.cpp:181 | a new iterator of this frame at _end |
| Frames.FrameIterator.constructor | branches/cache/src/Frame.cpp:77 | the iterator holds the frame and index given |
| Frames.FrameIterator.Assign | branches/cache/src/Frame.cpp:25-30 | both members are copied from the other iterator and the iterator itself is returned |
| Frames.FrameIterator.PreIncrement | branches/cache/src/Frame.cpp:64-68 | the index moves one sample right, the frame is kept, and the iterator itself is returned |
| Frames.FrameIterator.PostIncrement | branches/cache/src/Frame.cpp:75-80 | a new copy at the old position is returned and the original moves one sample right |
| Frames.FrameIterator.Deref | branches/cache/src/Frame.cpp:87-90 | the value is the source sample at the iterator's index |
| Frames.FrameIterator.GetPosition | branches/cache/src/Frame.cpp:97-100 | idx - _begin when idx >= _begin, and that difference plus 2^32 (unsigned wrap-around) otherwise |
| Frames.EqualityLaws | branches/cache/src/Frame.cpp:41-57 | iterator equality is reflexive, symmetric and transitive, holds exactly for the same frame and index, and != is its negation |
| MelFilters.MelZero | branches/cache/src/MelFilter.h:56-70 | both Mel conversions send 0 to 0 |
| MelFilters.MelRoundTrip | branches/cache/src/MelFilter.h:56-70 | melToLinear undoes linearToMel for every frequency above -700 Hz |
| MelFilters.LinearToMelIncreasing | branches/cache/src/MelFilter.h:56-59 | linearToMel is strictly increasing above -700 Hz |
| MelFilters.MelToLinearIncreasing | branches/cache/src/MelFilter.h:67-70 | melToLinear is strictly increasing |
| MelFilters.AdjacentBands | src/MelFilter.cpp:39-41 | filter i's centre is filter i+1's lower corner and its upper corner filter i+1's centre; the corners are strictly ordered exactly when the width is positive |
| MelFilters.RisingEdge | src/MelFilter.cpp:121-125 | the rising-edge expression equals (k - min) / (center - min) and lies in [0, 1] |
| MelFilters.FallingEdge | src/MelFilter.cpp:127-131 | the falling-edge expression equals (max - k) / (max - center) and lies in [0, 1] |
| MelFilters.TriangleWeightShape | src/MelFilter.cpp:111-135 | a bin weight is 0 outside [min, max], rises as (k - min) / (center - min), falls as (max - k) / (max - center), and lies in [0, 1] |
| MelFilters.BinWeightIs | src/MelFilter.cpp:103-105 | the corners scaled by N / sampFreq keep the centre and the upper corner apart, and the bin weight is the triangle weight over the scaled corners |
| MelFilters.TriangleSpectrum | src/MelFilter.cpp:99-100 | the filter spectrum has N entries |
| MelFilters.TriangleSpectrumBounded | src/MelFilter.cpp:96-136 | every weight of a generated filter spectrum lies in [0, 1] |
| MelFilters.FilterWeights | src/MelFilter.cpp:35-50 | a created filter has N weights |
| MelFilters.FilterWeightsShape | src/MelFilter.cpp:35-50 | a created filter's weights lie in [0, 1] and vanish for bins below the scaled lower or above the scaled upper linear corner |
| MelFilters.Magnitudes | src/MelFilter.cpp:65 | entry i is std::abs(spectrum[i]) |
| MelFilters.ApplyCount | src/MelFilter.cpp:64 | apply sums over N / 2 - 1 bins |
| MelFilters.DotProductPrefix | src/MelFilter.cpp:64-65 | the sum reads only the first N / 2 - 1 entries of the spectrum |
| MelFilters.DotProductNonNegative | src/MelFilter.cpp:63-66 | non-negative magnitudes and weights give a non-negative filter output |
| MelFilters.ApplyOverloadsAgree | src/MelFilter.cpp:60-86 | the real-valued apply fed with the magnitudes gives the complex apply's result |
| MelFilters.BankOutputs | tags/AQUILA_2_5_3/src/MelFiltersBank.cpp:119-132 | the bank gives one output per filter |
| MelFilters.BankOutputsShape | tags/AQUILA_2_5_3/src/MelFiltersBank.cpp:119-132 | a disabled filter outputs exactly 0, an enabled one its dot product with the magnitudes; with non-negative magnitudes and weights every output is non-negative |
| MelFilters.MelFilter.constructor | src/MelFilter.cpp:23-26 | the filter keeps the sample frequency, is enabled and has no weights yet |
| MelFilters.MelFilter.SetEnabled | branches/cache/src/MelFilter.h:41 | the flag becomes the argument |
| MelFilters.MelFilter.CreateFilter | src/MelFilter.cpp:35-50 | the weights become FilterWeights for the filter number, Mel width and N |
| MelFilters.MelFilter.GenerateFilterSpectrum | src/MelFilter.cpp:96-136 | the weights become the N triangle weights over the corners scaled by N / sampFreq |
| MelFilters.MelFilter.Apply | src/MelFilter.cpp:60-67 | the result is the sum of abs(spectrum[i]) * weight[i] over the first N / 2 - 1 bins |
| MelFilters.MelFilter.ApplyMagnitudes | src/MelFilter.cpp:79-86 | the result is the sum of magnitude[i] * weight[i] over the first N / 2 - 1 bins |
| MelFilters.UniformFilter | trunk/src/MelFiltersBank.cpp:27-31 | a new enabled filter at the sample frequency with FilterWeights(i, width, N) |
| MelFilters.UniformFilters | trunk/src/MelFiltersBank.cpp:27-33 | MELFILTERS distinct new filters, filter j holding FilterWeights(j, width, N) |
| MelFiltersBankTrunk.MelFiltersBank.Flags | trunk/src/MelFiltersBank.cpp:62 | flag i is filter i's enabled state |
| MelFiltersBankTrunk.MelFiltersBank.Weights | trunk/src/MelFiltersBank.cpp:63 | entry i is filter i's weights |
| MelFiltersBankTrunk.MelFiltersBank.constructor | trunk/src/MelFiltersBank.cpp:23-34 | MELFILTERS new enabled filters, filter i holding FilterWeights(i, melFilterWidth, N); the bank keeps sampleFrequency and N and its invariant (weights in [0, 1], N of them) holds |
| MelFiltersBankTrunk.MelFiltersBank.ApplyAll | trunk/src/MelFiltersBank.cpp:57-67 | the output is BankOutputs: each enabled filter's apply on the complex spectrum, 0.0 for each disabled one |
| MelFiltersBankTrunk.MelFiltersBank.SetEnabledFilters | trunk/src/MelFiltersBank.cpp:74-81 | an empty bank is left alone; otherwise filter i takes flag i; the weights never change |
| MelFiltersBank.HfccCentresEquallySpaced | tags/AQUILA_2_5_3/src/MelFiltersBank.cpp:65-82 | every Mel centre, the special-cased first and last included, is fc_0_mel + i * delta_f_mel |
| MelFiltersBank.HfccCentresIncreasing | tags/AQUILA_2_5_3/src/MelFiltersBank.cpp:65-82 | when fc_last_mel > fc_0_mel the Mel centres are strictly increasing |
| MelFiltersBank.ErbPositive | tags/AQUILA_2_5_3/src/MelFiltersBank.cpp:85 | the ERB of a non-negative centre is at least c = 28.52 |
| MelFiltersBank.FirstCentrePositive | tags/AQUILA_2_5_3/src/MelFiltersBank.cpp:48-56 | the first centre fc_0 is a positive frequency |
| MelFiltersBank.ErbCornersOrdered | tags/AQUILA_2_5_3/src/MelFiltersBank.cpp:85-87 | for a centre fc > 0 and bandwidth e > 0, with r the square root of (700 + e)^2 + fc (fc + 1400): f_low = r - (700 + e) satisfies 0 < f_low < fc < f_low + 2e = f_high |
| MelFiltersBank.HfccCornersProper | tags/AQUILA_2_5_3/src/MelFiltersBank.cpp:84-90 | with every centre positive, every filter is a proper triangle f_low < fc < f_high |
| MelFiltersBank.HfccWeights | tags/AQUILA_2_5_3/src/MelFiltersBank.cpp:90 | filter i of the HFCC bank has N weights |
| MelFiltersBank.HfccFilter | tags/AQUILA_2_5_3/src/MelFiltersBank.cpp:71-90 | one loop iteration gives a new enabled filter at the sample frequency whose weights are HfccWeights for filter i |
| MelFiltersBank.HfccFilters | tags/AQUILA_2_5_3/src/MelFiltersBank.cpp:68-91 | MELFILTERS distinct new filters, filter j holding HfccWeights for j |
| MelFiltersBank.AppendHfccFilter | tags/AQUILA_2_5_3/src/MelFiltersBank.cpp:89-90 | appends one distinct new filter holding the HFCC weights for its index and keeps the earlier ones |
| MelFiltersBank.MelFiltersBank.Flags | tags/AQUILA_2_5_3/src/MelFiltersBank.cpp:128 | flag i is filter i's enabled state |
| MelFiltersBank.MelFiltersBank.Weights | tags/AQUILA_2_5_3/src/MelFiltersBank.cpp:129 | entry i is filter i's weights |
| MelFiltersBank.MelFiltersBank.constructor | tags/AQUILA_2_5_3/src/MelFiltersBank.cpp:23-34 | MELFILTERS new enabled filters, filter i holding FilterWeights(i, melFilterWidth, N), with the bank invariant |
| MelFiltersBank.MelFiltersBank.Hfcc | tags/AQUILA_2_5_3/src/MelFiltersBank.cpp:43-92 | MELFILTERS new enabled filters, filter i holding HfccWeights for i, with the bank invariant (weights in [0, 1], N of them) |
| MelFiltersBank.MelFiltersBank.ApplyAll | tags/AQUILA_2_5_3/src/MelFiltersBank.cpp:115-133 | the magnitudes of the first N / 2 - 1 bins are taken once; the output is BankOutputs: each enabled filter's dot product with them, 0.0 for each disabled one |
| MelFiltersBank.MelFiltersBank.SetEnabledFilters | tags/AQUILA_2_5_3/src/MelFiltersBank.cpp:140-147 | an empty bank is left alone; otherwise filter i takes flag i; the weights never change |
| Extractors.TraceIndicator.constructor | tags/AQUILA_2_5_3/src/ProcessingIndicator.h:34-46 | a recording indicator starts with no calls |
| Extractors.TraceIndicator.Start | tags/AQUILA_2_5_3/src/ProcessingIndicator.h:34 | start(min, max) is appended to the calls received |
| Extractors.TraceIndicator.Progress | tags/AQUILA_2_5_3/src/ProcessingIndicator.h:41 | progress(value) is appended to the calls received |
| Extractors.TraceIndicator.Stop | tags/AQUILA_2_5_3/src/ProcessingIndicator.h:46 | stop() is appended to the calls received |
| Extractors.ProgressCalls | tags/AQUILA_2_5_3/src/feature/HfccExtractor.cpp:66-75 | one progress call per frame, the i-th reporting i |
| Extractors.ProcessTraceShape | tags/AQUILA_2_5_3/src/feature/HfccExtractor.cpp:54-78 | a process() trace is framesCount + 2 calls: the single start(0, framesCount - 1) first, the single stop last, and progress 0 .. framesCount - 1 in increasing order between them |
| Extractors.ProgressCallsStep | tags/AQUILA_2_5_3/src/feature/HfccExtractor.cpp:66-75 | one more loop iteration adds the next progress call |
| Extractors.ProcessTraceAppend | tags/AQUILA_2_5_3/src/feature/HfccExtractor.cpp:54-78 | start, the progress calls and stop appended to earlier calls make up the process trace |
| Extractors.FeatureWriter.constructor | trunk/src/feature/FeatureWriter.h:36 | a writer with a fixed answer that has received nothing |
| Extractors.FeatureWriter.Write | trunk/src/feature/FeatureWriter.h:36 | the header and features are recorded and the writer's answer returned |
| Extractors.FeatureReader.constructor | branches/cache/src/feature/FeatureReader.h:43 | a reader over fixed header, vectors and answer |
| Extractors.FeatureReader.Read | branches/cache/src/feature/FeatureReader.h:43 | the vectors are appended to the array given; the header is filled in only on success |
| Extractors.Resize | tags/AQUILA_2_5_3/src/feature/HfccExtractor.cpp:51-52 | the array gets exactly n entries, keeps its first ones and pads with empty vectors |
| Extractors.Extractor.constructor | trunk/src/feature/Extractor.cpp:27-31 | the extractor keeps frameLength and paramsPerFrame, with type "", no indicator and no features |
| Extractors.Extractor.SetProcessingIndicator | trunk/src/feature/Extractor.h:122-123 | the indicator becomes the one given |
| Extractors.Extractor.Save | trunk/src/feature/Extractor.cpp:45-55 | the writer receives a header with the type, frame length, params per frame, file name and the current time, plus the features, and its answer is returned |
| Extractors.Extractor.Read | trunk/src/feature/Extractor.cpp:62-80 | the features become what the reader supplies; on success the five header fields are copied in, on failure they are all unchanged; the reader's answer is returned |
| Extractors.CompatibilityIsEquivalence | trunk/src/feature/Extractor.cpp:88-93 | compatibility (same type, params per frame and frame length) is reflexive, symmetric and transitive |
| EnergyExtractors.EnergyExtractor.constructor | tags/AQUILA_2_5_3/src/feature/EnergyExtractor.cpp:24-28 | a new Extractor base part with paramsPerFrame 1, type "Energy", no indicator and no features |
| EnergyExtractors.EnergyExtractor.Process | tags/AQUILA_2_5_3/src/feature/EnergyExtractor.cpp:43-66 | the file name is the recording's, there is one feature vector per frame, vector i is [frameLogEnergy(frame i)], and an indicator receives start(0, framesCount - 1), progress 0 .. framesCount - 1 and stop |
| PowerExtractors.PowerExtractor.constructor | trunk/src/feature/PowerExtractor.cpp:24-28 | a new Extractor base part with paramsPerFrame 1, type "Power", no indicator and no features |
| PowerExtractors.PowerExtractor.Process | trunk/src/feature/PowerExtractor.cpp:43-66 | the file name is the recording's, there is one feature vector per frame, vector i is [framePower(frame i)], and an indicator receives the start, progress and stop calls |
| MfccExtractors.BankSlot.constructor | src/feature/MfccExtractor.cpp:20 | the static bank pointer starts null |
| MfccExtractors.NeedsRebuildKeepsMatching | src/feature/MfccExtractor.cpp:108-120 | an existing bank is kept exactly when its sample frequency and spectrum length are the requested ones |
| MfccExtractors.RebuildIfNeeded | src/feature/MfccExtractor.cpp:108-120 | afterwards the slot holds a bank for (frequency, N); a rebuild gives a new bank with all filters enabled and the uniform width-200 weights, otherwise the same bank is kept |
| MfccExtractors.Rebuild | src/feature/MfccExtractor.cpp:110 | the slot gets a new uniform bank of width 200 for (frequency, N), all filters enabled |
| MfccExtractors.FrameStep | src/Transform.cpp:172-200 | one fft(Frame) keeps the pipeline state fit for the next frame (cache well formed, spectrum of length N) |
| MfccExtractors.StateAfter | src/feature/MfccExtractor.cpp:68-77 | the state after any number of frames stays fit for the next frame |
| MfccExtractors.StateAfterWindows | src/feature/MfccExtractor.cpp:68-77 | the window cache after k frames depends only on the frames' window requests, not on the spectra |
| MfccExtractors.FrameCepstrum | src/feature/MfccExtractor.cpp:71-72 | dct of the bank outputs gives paramsPerFrame coefficients |
| MfccExtractors.CepstralFeatures | src/feature/MfccExtractor.cpp:68-77 | process() leaves one feature vector per frame |
| MfccExtractors.CepstralFeaturesAt | src/feature/MfccExtractor.cpp:70-73 | feature vector k is the cepstrum of the spectrum after frame k |
| MfccExtractors.CepstralFeaturesShape | src/feature/MfccExtractor.cpp:64-73 | every feature vector has exactly paramsPerFrame coefficients |
| MfccExtractors.DisabledBankFeatures | src/feature/MfccExtractor.cpp:71-72 | with every filter disabled every feature vector is the DCT of 24 zeros, whatever the recording |
| MfccExtractors.DisabledBankFrame | src/feature/MfccExtractor.cpp:71-72 | the same for the feature vector of one frame |
| MfccExtractors.StateAfterKeepsWindows | src/feature/MfccExtractor.cpp:68-77 | a window table cached after j frames is still cached, unchanged, after k >= j frames |
| MfccExtractors.WindowAfterKeeps | src/Transform.cpp:194-195 | one frame's window request keeps every table already cached |
| MfccExtractors.WindowsAfterKeeps | src/feature/MfccExtractor.cpp:68-77 | the window cache only grows along the frames |
| MfccExtractors.StateAfterHoldsTables | src/feature/MfccExtractor.cpp:68-77 | after k frames the cache holds a table of the right length for each earlier frame of length >= 2 |
| MfccExtractors.StateSeq | src/feature/MfccExtractor.cpp:68-77 | one pipeline state per frame plus the initial one |
| MfccExtractors.StateSeqIsRun | src/feature/MfccExtractor.cpp:68-77 | those states form a run (each the FrameStep of the one before) and CepstralFeatures gives that run's feature vectors |
| MfccExtractors.ZeroSpectrum | src/feature/MfccExtractor.cpp:62 | the spectrum buffer starts as N complex zeros |
| MfccExtractors.BeginProcess | src/feature/MfccExtractor.cpp:51-57 | the file name is the recording's, the feature array is resized to the frame count, and the indicator gets start(0, framesCount - 1) |
| MfccExtractors.ProcessFrame | src/feature/MfccExtractor.cpp:70-72 | fft moves the pipeline one frame on, and the coefficients are FrameCepstrum of the new spectrum |
| MfccExtractors.FrameIteration | src/feature/MfccExtractor.cpp:70-76 | feature vector k is stored and progress(k) reported |
| MfccExtractors.FrameLoop | src/feature/MfccExtractor.cpp:68-77 | the loop leaves the expected feature vectors and the run's final window cache, with progress 0 .. framesCount - 1 |
| MfccExtractors.RunFrames | src/feature/MfccExtractor.cpp:62-80 | from a zero spectrum the features are CepstralFeatures of the recording, the cache is WindowsAfter, and the indicator gets the progress calls and stop |
| MfccExtractors.ExtractFrames | src/feature/MfccExtractor.cpp:62-80 | the same, with the spectrum, output and coefficient buffers and the one Transform allocated first |
| MfccExtractors.ExtractWithSlot | src/feature/MfccExtractor.cpp:62-80 | the same with the bank the static pointer holds, whose flags and weights are left unchanged |
| MfccExtractors.MfccExtractor.constructor | src/feature/MfccExtractor.cpp:28-33 | a new Extractor base part with the given lengths, type "MFCC" and no filter selection |
| MfccExtractors.MfccExtractor.SetEnabledMelFilters | src/feature/MfccExtractor.cpp:86-95 | the selection becomes a copy of the first 24 flags |
| MfccExtractors.MfccExtractor.UpdateFilters | src/feature/MfccExtractor.cpp:106-124 | the slot holds a bank for (frequency, N): a new uniform bank when none was there or the old one was for other values, else the same bank with the same weights; a stored selection becomes the bank's flags, otherwise a new bank is all enabled and a kept one keeps its flags |
| MfccExtractors.MfccExtractor.Process | src/feature/MfccExtractor.cpp:49-81 | the bank is up to date for the recording, the features are CepstralFeatures over the bank's flags and weights, the window cache is WindowsAfter, and the indicator sees start, progress per frame, stop |
| HfccExtractorTrunk.HfccBankWeights | tags/AQUILA_2_5_3/src/MelFiltersBank.cpp:68-91 | the weights of the 24 filters of the HFCC bank, filter i's being HfccWeights for i |
| HfccExtractorTrunk.RebuildHfccIfNeeded | trunk/src/feature/HfccExtractor.cpp:47-59 | afterwards the slot holds a bank for (frequency, N); a rebuild gives a new all-enabled HFCC bank, otherwise whatever bank was there, uniform or HFCC, is kept |
| HfccExtractorTrunk.RebuildHfcc | trunk/src/feature/HfccExtractor.cpp:49 | the slot gets a new HFCC bank for (frequency, N), all filters enabled |
| HfccExtractorTrunk.HfccExtractor.constructor | trunk/src/feature/HfccExtractor.cpp:22-27 | a new MfccExtractor base part with the given lengths, type "HFCC" and no selection |
| HfccExtractorTrunk.HfccExtractor.UpdateFilters | trunk/src/feature/HfccExtractor.cpp:45-63 | the shared slot holds a bank for (frequency, N); its weights are the HFCC ones only when it was rebuilt, else those of the bank already there; a stored selection becomes its flags |
| HfccExtractorTrunk.HfccExtractor.Process | src/feature/MfccExtractor.cpp:49-81 | the inherited process() with this updateFilters: the features are CepstralFeatures over the shared bank, whose weights are the HFCC ones only after a rebuild; the cache and indicator as for MFCC |
| HfccExtractorTrunk.HfccExtractor.UpdateAndExtract | src/feature/MfccExtractor.cpp:59-80 | updateFilters, then the frame loop over the shared bank, with the same weights statement |
| HfccExtractorTrunk.SharedBankAfterMfcc | trunk/src/feature/HfccExtractor.cpp:53-59 | an MFCC extractor and then a trunk HFCC extractor updating for the same (frequency, N) from an empty slot leave the uniform Mel weights in the bank the HFCC extractor uses |
| HfccExtractor253.EmptySlotHoldsHfccBank | tags/AQUILA_2_5_3/src/feature/HfccExtractor.cpp:18 | the null hfccFilters pointer satisfies the slot invariant (any bank held is the HFCC bank for its own frequency and length) |
| HfccExtractor253.HfccExtractor.constructor | tags/AQUILA_2_5_3/src/feature/HfccExtractor.cpp:26-31 | a new MfccExtractor base part with the given lengths, type "HFCC" and no selection |
| HfccExtractor253.HfccExtractor.UpdateFilters | tags/AQUILA_2_5_3/src/feature/HfccExtractor.cpp:90-108 | the hfccFilters slot keeps its invariant and afterwards holds the HFCC weights for (frequency, N); a rebuild gives a new bank, otherwise the same one; a stored selection becomes its flags |
| HfccExtractor253.HfccExtractor.Process | tags/AQUILA_2_5_3/src/feature/HfccExtractor.cpp:47-79 | the features are CepstralFeatures over the HFCC weights for the recording, the window cache is WindowsAfter, and the indicator sees start, progress per frame, stop |
| HfccExtractor253.HfccExtractor.UpdateAndExtract | tags/AQUILA_2_5_3/src/feature/HfccExtractor.cpp:57-78 | updateFilters, then the frame loop over hfccFilters, giving CepstralFeatures over the HFCC weights |
| HfccExtractor253.SeparateBankAfterMfcc | tags/AQUILA_2_5_3/src/feature/HfccExtractor.cpp:18 | an MFCC extractor and then an HFCC extractor updating for the same (frequency, N) leave the uniform weights in MFCC's bank and the HFCC weights in hfccFilters |
| ExtractorFactory.UnknownMessage | src/feature/ExtractorFactory.cpp:50-53 | the message is "Unknown feature type: " followed by the name |
| ExtractorFactory.PlanFor | src/feature/ExtractorFactory.cpp:34-54 | the factory succeeds exactly for "MFCC", "Energy" and "Power", builds the class of that name with the frame length given and paramsPerFrame as given for MFCC and 1 otherwise, and fails with the unknown-type message for any other name |
| ExtractorFactory.HfccIsUnknown | src/feature/ExtractorFactory.cpp:38-53 | "HFCC" is refused with "Unknown feature type: HFCC" |
| ExtractorFactory.PlanForKindName | src/feature/ExtractorFactory.cpp:38-49 | each class's own type name leads the factory back to that class with the frame length given |
| ExtractorFactory.GetExtractor | src/feature/ExtractorFactory.cpp:34-54 | fails exactly when PlanFor does, with its message; otherwise a new extractor of the planned class with the name as type, the planned lengths, no indicator and no features |
| ExtractorFactory.GetExtractorFor | src/feature/ExtractorFactory.cpp:64-67 | the same, for the header's type, frame length and params per frame |
| DtwFunctions.EuclideanDistance | trunk/src/dtw/functions.cpp:25-31 | the result is sqrt of the sum of (v1[i] - v2[i])^2 over the first vector's indices |
| DtwFunctions.ManhattanDistance | trunk/src/dtw/functions.cpp:40-46 | the result is the sum of abs(v1[i] - v2[i]) over the first vector's indices |
| DtwFunctions.ChebyshevDistance | trunk/src/dtw/functions.cpp:55-65 | the result is the running maximum of abs(v1[i] - v2[i]), starting from 0 |
| DtwFunctions.MinkowskiDistance | trunk/src/dtw/functions.cpp:74-81 | the result is pow(sum of pow(abs(v1[i] - v2[i]), 0.33), 1 / 0.33) |
| DtwFunctions.Apply | src/dtw/Dtw.cpp:18-21 | a call through the table entry computes the chosen distance |
| DtwFunctions.SquaredSumProperties | trunk/src/dtw/functions.cpp:27-29 | the sum of squares is never negative and is 0 when the vectors agree |
| DtwFunctions.EuclideanProperties | trunk/src/dtw/functions.cpp:25-31 | the Euclidean distance is never negative and is 0 from a vector to itself |
| DtwFunctions.AbsSumProperties | trunk/src/dtw/functions.cpp:40-46 | the Manhattan sum is never negative and is 0 when the vectors agree |
| DtwFunctions.AbsSumSymmetric | trunk/src/dtw/functions.cpp:40-46 | the Manhattan sum does not depend on the order of its arguments |
| DtwFunctions.MaxAbsProperties | trunk/src/dtw/functions.cpp:55-65 | the Chebyshev maximum bounds every difference, is attained unless it is 0, lies between 0 and the Manhattan sum, and is 0 when the vectors agree |
| DtwFunctions.MaxAbsSymmetric | trunk/src/dtw/functions.cpp:55-65 | the Chebyshev maximum does not depend on the order of its arguments |
| DtwFunctions.DistanceProperties | trunk/src/dtw/functions.cpp:40-65 | Manhattan and Chebyshev are non-negative, 0 from a vector to itself, symmetric for equal lengths, 0 for an empty first vector, and Chebyshev never exceeds Manhattan |
| DtwPoints.DefaultPoint | branches/cache/src/dtw/DtwPoint.cpp:19-22 | the default point is the origin with both distances 0 and no predecessor |
| DtwPoints.NewPoint | branches/cache/src/dtw/DtwPoint.cpp:31-36 | the coordinates and local distance are as given with no predecessor; the accumulated distance starts at the local one in the first row or column and at 0 elsewhere |
| Dtw.LocalDistances | src/dtw/Dtw.cpp:108-117 | one local distance per (signal frame, pattern frame) pair, as a signal-by-pattern rectangle |
| Dtw.CandidatesOf | src/dtw/Dtw.cpp:52-70 | center is (i-1, j-1); top and bottom are the neighbours (i-1, j), (i, j-1) for Neighbors or on the second row or column, else (i-2, j-1), (i-1, j-2); the three are distinct and all earlier than (i, j) |
| Dtw.PickOf | src/dtw/Dtw.cpp:72-78 | bottom is picked exactly when strictly below both others, top exactly when strictly below center and not above bottom, center exactly when not above either |
| Dtw.Pred | src/dtw/Dtw.cpp:72-81 | the recorded predecessor of an interior cell comes earlier in the pass |
| Dtw.PredIsLowest | src/dtw/Dtw.cpp:72-81 | the predecessor is one of the three candidates, has the least accumulated distance among them, and the cell's accumulated distance is its local distance plus the predecessor's |
| Dtw.Chain | src/dtw/Dtw.cpp:72-81 | the predecessor chain from (i, j) is non-empty and starts at (i, j) |
| Dtw.AccIsChainCost | src/dtw/Dtw.cpp:48-83 | the predecessor chain is one the candidate sets allow, and the accumulated distance is the sum of local distances along it |
| Dtw.ChainAllowed | src/dtw/Dtw.cpp:52-81 | each step of the predecessor chain goes from an interior cell to one of its candidates |
| Dtw.ChainCost | src/dtw/Dtw.cpp:80 | the accumulated distance equals the sum of the local distances along the predecessor chain |
| Dtw.ChainCons | src/dtw/Dtw.cpp:52-70 | an interior cell put in front of a chain starting at one of its candidates gives an allowed chain |
| Dtw.AccIsLowest | src/dtw/Dtw.cpp:48-83 | no allowed chain from a cell costs less than that cell's accumulated distance |
| Dtw.LowestCostChain | src/dtw/Dtw.cpp:133-138 | the lowest-cost path: the predecessor chain costs exactly the accumulated distance, and every other allowed chain from the same cell costs at least as much |
| Dtw.LocalPoints | src/dtw/Dtw.cpp:108-117 | the grid calculateLocalDistances leaves has one point per (signal frame, pattern frame) |
| Dtw.PartialGrid | src/dtw/Dtw.cpp:48-83 | the grid part way through the pass has the dimensions of the local-distance grid |
| Dtw.AlignedGrid | src/dtw/Dtw.cpp:48-83 | after the pass every cell holds its coordinates, local distance, accumulated distance and the predecessor link |
| Dtw.LastCell | src/dtw/Dtw.cpp:85 | the last cell of the finished grid holds the accumulated distance of (S-1, P-1) |
| Dtw.PassStart | src/dtw/Dtw.cpp:43-48 | before the pass the local-distance grid already holds the final points of the first row and column |
| Dtw.DoneAcc | src/dtw/Dtw.cpp:52-77 | every cell the pass has already finished holds its final accumulated distance, so the candidates read the right values |
| Dtw.CellFilled | src/dtw/Dtw.cpp:72-81 | writing local + the chosen candidate's accumulated distance and that candidate as predecessor into (i, j) advances the pass to (i, j+1) |
| Dtw.PassCell | src/dtw/Dtw.cpp:80-81 | putting the final point into cell (i, j) advances the partial grid to (i, j+1) |
| Dtw.PassRow | src/dtw/Dtw.cpp:50 | when the column loop ends, the pass moves to column 1 of the next row |
| Dtw.PassEnd | src/dtw/Dtw.cpp:48 | when the row loop ends, the grid is the finished one |
| Dtw.LocalPointsLinked | src/dtw/Dtw.cpp:115 | every link of the local-distance grid is well formed (there are none) |
| Dtw.AlignedLinked | src/dtw/Dtw.cpp:81 | in the finished grid every interior cell links to an earlier cell and no edge cell has a link |
| Dtw.PathIsChain | src/dtw/Dtw.cpp:138-153 | on the finished grid getPath's walk from (i, j) is the predecessor chain without its final edge cell |
| Dtw.AlignedLinks | src/dtw/Dtw.cpp:48-83 | every link of the finished grid is the recorded predecessor, and edge cells have none |
| Dtw.PathFollowsPred | src/dtw/Dtw.cpp:144-150 | on any grid whose links are the recorded predecessors, the walk is the predecessor chain without its last cell |
| Dtw.WalkCons | src/dtw/Dtw.cpp:146-150 | an interior cell put in front of a walk from an earlier cell keeps the walk's shape |
| Dtw.PathShape | src/dtw/Dtw.cpp:138-153 | getPath's walk starts at (i, j) unless that is an edge cell (then it is empty), holds only interior cells, and i + j strictly decreases along it |
| Dtw.NormalisedScales | src/dtw/Dtw.cpp:87-98 | NoNormalization leaves the distance unchanged; for Diagonal and SumOfSides the result times the divisor gives the distance back |
| Dtw.DivisorExact | src/dtw/Dtw.cpp:89-94 | without 32-bit wrap-around the divisors are sqrt(S^2 + P^2) and S + P, and S + P is non-zero |
| Dtw.ResizePoints | src/dtw/Dtw.cpp:113 | the row has length n, keeps its first points and fills new places with default points |
| Dtw.Dtw.constructor | src/dtw/Dtw.cpp:28-32 | one empty row per signal frame, Euclidean distance, Neighbors passes, well-formed grid |
| Dtw.Dtw.SetPassType | trunk/src/dtw/Dtw.h:81 | the pass type becomes the one given |
| Dtw.Dtw.SetDistanceFunction | src/dtw/Dtw.cpp:124-131 | indices 1 to 3 select that table entry; 0 and indices outside the table leave the function unchanged |
| Dtw.Dtw.CalculateLocalDistances | src/dtw/Dtw.cpp:108-117 | the grid becomes the local-distance grid for the pattern, with well-formed links |
| Dtw.Dtw.LocalRow | src/dtw/Dtw.cpp:113-115 | row i becomes the row of local-distance points for the pattern |
| Dtw.Dtw.GetDistance | src/dtw/Dtw.cpp:41-101 | the grid is left as the finished grid, and the result is the normalised accumulated distance of the last cell, the lowest-cost chain's cost by LowestCostChain |
| Dtw.Dtw.Pass | src/dtw/Dtw.cpp:48-83 | the row loop turns the local-distance grid into the finished grid |
| Dtw.Dtw.Normalize | src/dtw/Dtw.cpp:87-98 | the distance is divided by the divisor of the normalisation type, computed from unsigned 32-bit sizes |
| Dtw.Dtw.FillRow | src/dtw/Dtw.cpp:50-82 | the column loop advances the partial grid from row i to row i+1 |
| Dtw.Dtw.FillCell | src/dtw/Dtw.cpp:52-81 | one step of the pass advances the partial grid from (i, j) to (i, j+1) |
| Dtw.Dtw.ChoosePrevious | src/dtw/Dtw.cpp:72-78 | the chosen candidate and its distance are the ones PickOf names |
| Dtw.Dtw.GetPath | src/dtw/Dtw.cpp:138-153 | the result is the walk from the last cell along the predecessor links |

## Left out

- WaveFile loading, channel splitting and frame division are file I/O. The extractors read a `Recording` value: file name, sample frequency, zero-padded frame length and frames. Its zero-padded length is also the transform options' `zeroPaddedLength`.
- The console processing indicator is replaced by `TraceIndicator`, which records its start, progress and stop calls. The feature reader and writer are interfaces that record what they receive and answer with a fixed outcome. File formatting is not modelled.
- `Extractor::save` takes its timestamp from `time(0)`. Here the timestamp is a parameter.
- `Frame.h` is not part of this model: `begin()`, `end()` and `getLength()` are inferred from how `Frame.cpp` and `Transform.cpp` use them.
- Floating point:
  - Doubles are reals without rounding.
  - sqrt, log, log10, exp, cos, pow, complex exp and magnitude are uninterpreted fields of `Maths`, constrained only by the predicates a proof needs (sqrt(0) = 0, sqrt non-negative and increasing on non-negatives, exp increasing, ln and exp inverse, magnitude non-negative).
  - Butterfly arithmetic, twiddle factors, DCT values and the window formulas other than rectangular and Barlett are therefore stated only up to these functions.
- The FFT stage count is computed in the source as log(N)/ln 2 in floating point. Here it is the exact binary logarithm of the power-of-two length.
- Division by zero in IEEE arithmetic gives an infinity or NaN, which reals cannot express. Each member below excludes it by a precondition:
  - WindowFunctions.Formula: requires N != 1 for every window but the rectangular one.
  - MelFilters.MelFilter.GenerateFilterSpectrum: requires centre != max and a non-zero sample frequency.
  - MelFilters.MelFilter.Apply: requires N >= 2, because `N/2 - 1` wraps to a huge unsigned count for N < 2.
  - MelFilters.MelFilter.ApplyMagnitudes: requires N >= 2, for the same unsigned wrap of `N/2 - 1` as Apply.
  - MelFiltersBankTrunk.MelFiltersBank.ApplyAll: requires N >= 2, because it calls Apply on every enabled filter.
  - MelFiltersBank.MelFiltersBank.ApplyAll: requires N >= 2, because it calls ApplyMagnitudes on every enabled filter.
  - MelFiltersBank.MelFiltersBank.Hfcc: requires the HFCC bank to be buildable (positive frequency, centre != high corner for each filter), as the HFCC Process methods below do.
  - Transform.Transform.Dct: requires non-empty input data. For empty data the source computes sqrt(1.0 / 0), an infinity, and every output entry becomes 0 times infinity, a NaN. DctSpec, DctSum, AccumulateDct, DctCoefficient and DctEntry share this requirement. Every caller in the core passes the 24 filter-bank outputs.
  - Tools.SpectrumPeakToHz: requires a positive spectrum size. With size 0 the source divides by zero and returns an infinity or NaN.
  - Transform.FramePower: requires a non-empty frame, and so does PowerExtractors.PowerExtractor.Process for each frame.
  - HfccExtractorTrunk.HfccExtractor.Process: requires the HFCC bank to be buildable (positive frequency, centre != high corner for each filter). HfccExtractor253.HfccExtractor.Process requires the same.
  - MfccExtractors.MfccExtractor.Process: requires a positive sample frequency and a power-of-two zero-padded length of at least 2. The frames must fit that length, which the FFT needs.
  - Dtw.Dtw.GetDistance: requires the normalisation divisor to be non-zero.
- Dtw.Dtw.GetDistance: requires at least one signal frame and one pattern frame. With none, the source reads `points[-1]`, which is undefined behaviour.
- Dtw.Dtw.GetDistance: requires `Comparable`, meaning every signal vector is no longer than every pattern vector. The function indexes v2 at v1's positions, so a shorter v2 would be an out-of-bounds read.
- Dtw.Dtw.GetPath: requires a non-empty grid, because `points[0]` must exist.
- Dtw.Dtw.Normalize: the divisors use wrap-around `unsigned int` sizes. Dtw.DivisorExact relates them to sqrt(S^2 + P^2) and S + P only when no wrap-around occurs.
- DtwFunctions.MinkowskiDistance: a fold of the abstract pow, with no metric properties proved.
- getPoints is a plain accessor of `points` and has no member of its own. Its default argument (normalisation Diagonal) is covered by GetDistance taking the normalisation explicitly.
- Extractors.ProcessTrace: `start(0, framesCount - 1)` passes an unsigned difference to an int parameter, so no frames gives -1. This is modelled, but no caller relies on it.
- MelFilters.MelFilter.CreateFilter: the filter number and width are `unsigned short` in the source. Here they are natural numbers of any size, so the model accepts values above 65535 and leaves out the int overflow of filterNum * melFilterWidth. It also requires a positive width when N > 0, because a zero width makes centre equal max and divides by zero.
- A Transform object is created but never used by the Energy and Power extractors. Their model leaves it out.
- The trunk MelFiltersBank has no HFCC constructor. The extractors therefore use the 2.5.3 bank, `MelFiltersBank.MelFiltersBank`, which has both constructors. The trunk bank is modelled on its own in `MelFiltersBankTrunk`.
- ExtractorFactory's default `paramsPerFrame = 1` is not modelled, because Dafny has no default arguments. Callers pass it.
- Heap management (new, delete, destructors, `clearCosineCache`, `clearFftWiCache`, `clearCache`) is left out. Fresh objects are stated with `fresh`, and nothing is freed.
- The cache statistics that Cache.h prints when AQUILA_CACHE_STATS is defined are left out, as is all other console output.
- The bit-reversal quirk is kept. Fixed points of the permutation, including 0 and N - 1, are never written and keep the spectrum buffer's previous contents. The MFCC pipeline therefore carries the spectrum from one frame to the next.

## Findings

| source | as written | input that shows it | evidently intended | confidence | as-written member | corrected member |
|---|---|---|---|---|---|---|
| trunk/src/feature/HfccExtractor.cpp:53-59 | the trunk HFCC extractor keeps its bank in MfccExtractor's static `filters` and rebuilds it only when frequency or N differ, so it keeps a uniform Mel bank that MFCC left there | from an empty slot, MFCC then HFCC update their filters for the same frequency and N: HFCC then filters with MFCC's uniform bank | HFCC always filters with the HFCC bank, kept in a separate static `hfccFilters`, as in the 2.5.3 tag | medium, not executed | HfccExtractorTrunk.SharedBankAfterMfcc | HfccExtractor253.SeparateBankAfterMfcc |
