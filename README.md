# Bollinger Bands calculator and chart series, in Dafny

This project models the non-UI logic of a small Bollinger Bands chart.

- **The band calculator** (`lib/indicators/bollinger.ts`). It reads each candle's close price and clamps the window length to `max(1, floor(length))`. It computes a trailing simple moving average with a running sum (`sma`), and a sample standard deviation (denominator n − 1) over the same window (`sampleStdDev`). Each point gets `upper = basis + mul·stdev` and `lower = basis − mul·stdev`. A position with less than a full window of history gets a point whose three band values are undefined.
- **The series post-processing** (`components/Chart.tsx`):
  - `shiftSeries` moves the band values by an integer offset. Every slot keeps its own timestamp, and a slot that receives no value becomes undefined.
  - the `lines` memo splits the shifted series into basis, upper and lower lines.
  - `buildBandPolygon` joins the upper line with the reversed lower line.
  - `rgbaGrey` clamps the background opacity to [0, 1].

Modelling choices:

- JavaScript numbers are Dafny `real`s.
- The NaN sentinel is `Option<real>`: `None` means "no value here".
- The raw `length` input is a `real`, because the calculator floors it. The offset is an `int`.
- `Math.sqrt` is not fixed. Every operation that needs it takes a parameter `sqrt: real -> real`. So the symmetry, zero-multiplier, unit-length and window properties hold for any square root. The concrete example states the one value it needs (`sqrt(1.0) == 1.0`).
- `sma` and `shiftSeries` work by filling a freshly allocated array in a loop. They are methods over an `array`, proved against reference functions (`Sum` of the trailing window, and `Shifted`).
- `computeBollingerBands` calls `sma`, so it is a method too. Its `map` is a sequence comprehension, and its result equals the reference series `Bands`. `Bands` takes each basis to be the arithmetic mean of its window.
- Likewise, the `lines` memo calls `shiftSeries`, so it is a method.
- `buildBandPolygon`, the `rgbaGrey` clamp and `sampleStdDev` (two `reduce` folds) are functions.

Modules: `Wrappers` (the option type), `Types` (the records of `lib/types.ts`), `Bollinger` (`lib/indicators/bollinger.ts`) and `Chart` (`components/Chart.tsx`).

## Model

| member | source | states |
|---|---|---|
| `Bollinger.EffectiveLength` | lib/indicators/bollinger.ts:5 | The window length is always at least 1. It is 1 exactly when the raw length is below 2, including zero, negative and fractional inputs. For a raw length of at least 1 it is the floor of that length. |
| `Bollinger.Sma` | lib/indicators/bollinger.ts:24-35 | Output length equals input length. Index `i` is undefined for `i < length − 1`. Otherwise index `i` is the sum of the `length` values ending at `i`, divided by `length`. The loop invariant is that the running sum equals the sum of the current trailing window. |
| `Bollinger.SourceValuesAt` | lib/indicators/bollinger.ts:8 | Specifies `SourceValues`. There is one value per candle, and value `i` is candle `i`'s price for the selected source. |
| `Bollinger.SumExtendRight` | lib/indicators/bollinger.ts:28 | Specifies the `Sum` fold. Adding the next value to the running sum gives the sum of the window extended by that value. |
| `Bollinger.SumDropLeft` | lib/indicators/bollinger.ts:29 | Subtracting the value that leaves the window gives the sum of the window without it. |
| `Bollinger.SumFirst` | lib/indicators/bollinger.ts:28-29 | The left fold can equally be split at its first element. This is why subtracting the value that leaves the window keeps the running sum equal to the window's sum. |
| `Bollinger.SumFlat` | lib/indicators/bollinger.ts:41 | The sum fold of `n` copies of `c` is `n · c`. |
| `Bollinger.MeanOfFlatWindow` | lib/indicators/bollinger.ts:41 | Specifies `Mean`. The mean of a non-empty window whose values all equal `c` is `c`. |
| `Bollinger.SumSquaredDeviationsFlat` | lib/indicators/bollinger.ts:42 | Specifies the `SumSquaredDeviations` fold. The squared deviations of a window from a value that every element equals add up to 0. |
| `Bollinger.SumSquaredDeviationsNonNegative` | lib/indicators/bollinger.ts:42 | The fold of squared deviations from any mean is never negative. |
| `Bollinger.SampleVariance` | lib/indicators/bollinger.ts:42 | The sample variance (squared deviations over n − 1) of a window of at least two values is never negative. |
| `Bollinger.SampleStdDevProperties` | lib/indicators/bollinger.ts:38-44 | Specifies `SampleStdDev` (`sampleStdDev`). A window of at most one value has deviation 0, whatever the square root. For a square root that is non-negative on non-negative arguments, the deviation is never negative, because the sample variance is never negative. |
| `Bollinger.SampleVarianceOfFlatWindow` | lib/indicators/bollinger.ts:41-42 | A window of equal values has mean equal to that value and sample variance 0. |
| `Bollinger.Window` | lib/indicators/bollinger.ts:14 | The window at index `i` has exactly `len` elements, and element `k` is value `i − (len − 1) + k`. |
| `Bollinger.PointAtSpec` | lib/indicators/bollinger.ts:10-20 | Specifies `PointAt`, the `map` callback. The point keeps its candle's timestamp. Before a full window it is undefined. Otherwise it carries the given basis, and upper and lower are defined exactly when the basis is. They lie `mul · stdev` of the window above and below the basis. |
| `Bollinger.Bands` | lib/indicators/bollinger.ts:10-20 | The reference series has one point per candle, and point `i` carries candle `i`'s timestamp. So an empty input gives an empty output. |
| `Bollinger.ComputeBollingerBands` | lib/indicators/bollinger.ts:3-22 | The calculator's series (moving average from `Sma`, then the per-candle map) equals the reference series `Bands`. So each basis from the running sum is the arithmetic mean of its window. |
| `Bollinger.BandsUndefinedBeforeFullWindow` | lib/indicators/bollinger.ts:11-12 | For every `i < len − 1`, basis, upper and lower are all undefined. |
| `Bollinger.BandsBasisIsWindowMean` | lib/indicators/bollinger.ts:14-15 | For `i ≥ len − 1`, the window is exactly the `len` source prices of candles `i − len + 1 … i`, and the basis is their arithmetic mean. |
| `Bollinger.BandsSymmetric` | lib/indicators/bollinger.ts:16-18 | At every defined point all three values are defined, and `upper − basis = basis − lower = mul · stdev`, where stdev is the sample deviation of that window. |
| `Bollinger.BandsZeroMultiplier` | lib/indicators/bollinger.ts:17-18 | With multiplier 0, upper = lower = basis at every point. |
| `Bollinger.BandsOrdered` | lib/indicators/bollinger.ts:16-18 | With a non-negative multiplier and a non-negative square root, lower ≤ basis ≤ upper at every defined point. |
| `Bollinger.BandsUnitLength` | lib/indicators/bollinger.ts:5-18 | A raw length below 2 gives effective length 1. The one-value window at each candle then has deviation 0, the basis of candle `i` is its close, and upper = lower = basis. |
| `Bollinger.BandsFlatWindow` | lib/indicators/bollinger.ts:14-18 | Over a window of equal prices the bands have zero width, given a square root with `sqrt(0) = 0`. |
| `Bollinger.ExampleFiveCloses` | lib/indicators/bollinger.ts:3-21 | Closes 1…5 with length 3 and multiplier 2: points 0 and 1 are undefined. Point 2 is (2, 4, 0), point 3 is (3, 5, 1) and point 4 is (4, 6, 2), given `sqrt(1) = 1`. |
| `Chart.Shifted` | components/Chart.tsx:223-240 | The reference shift has as many points as its input. |
| `Chart.Restamp` | components/Chart.tsx:229 | The spread point `{ ...series[i], timestamp: series[j].timestamp }` has slot `j`'s timestamp and the basis, upper and lower of slot `i`. |
| `Chart.ShiftSeries` | components/Chart.tsx:223-240 | The two fill loops and the final `map` produce exactly the reference shift. The loop invariant says which slots already hold a restamped source point. |
| `Chart.ShiftedKeepsTimestamps` | components/Chart.tsx:229-238 | Output slot `j` has the timestamp of `series[j]`, whether or not it received a shifted value. |
| `Chart.ShiftedByZero` | components/Chart.tsx:224 | Offset 0 returns the input unchanged. |
| `Chart.ShiftedForward` | components/Chart.tsx:226-230 | For a positive offset `k`, `out[i + k]` has the basis, upper and lower of `series[i]` whenever `i + k < n`, and every slot `j < k` is undefined. |
| `Chart.ShiftedBackward` | components/Chart.tsx:231-235 | For a negative offset `k`, `out[i + k]` has the values of `series[i]` whenever `i + k ≥ 0`, and the last `abs(k)` slots are undefined. |
| `Chart.ShiftedPastEnd` | components/Chart.tsx:225-239 | If `abs(k) ≥ n`, every slot is undefined. |
| `Chart.ShiftedRoundTrip` | components/Chart.tsx:226-235 | Shifting by `k` and then by `−k` restores every slot whose shifted position lies inside the series. |
| `Chart.Project` | components/Chart.tsx:40-42 | A projected line has one point per slot. Point `j` has slot `j`'s timestamp and the value of the chosen band there. |
| `Chart.Lines` | components/Chart.tsx:35-45 | A missing indicator gives no lines, and a present one gives lines. The raw series is the shift of the indicator's series. The basis, upper and lower lines each have that length, and carry the indicator's timestamps and the shifted values of their band. |
| `Chart.Reverse` | components/Chart.tsx:246 | The reverse has the same length, and element `k` is element `n − 1 − k` of the input. |
| `Chart.ReverseReverse` | components/Chart.tsx:246 | Reversing twice gives back the original. |
| `Chart.BuildBandPolygon` | components/Chart.tsx:241-249 | The polygon has as many points as `upper` and `lower` together. The first `|upper|` (the length of `upper`) equal `upper` in order, and the rest equal `lower` reversed. |
| `Chart.BandPolygonSplits` | components/Chart.tsx:245-248 | Cutting the polygon at the length of `upper` gives back `upper`, and reversing the rest gives back `lower`. |
| `Chart.GreyAlpha` | components/Chart.tsx:210-213 | The alpha always lies in [0, 1]. It is unchanged inside that interval, 0 below it and 1 above it. |
| `Chart.GreyAlphaIdempotent` | components/Chart.tsx:211 | Clamping an already clamped opacity changes nothing. |

## Left out

- IEEE-754 rounding is not modelled. All arithmetic is exact over the reals, so the running sum in `sma` and the two-fold variance introduce no rounding error.
- `Math.sqrt` is not modelled. It is the parameter `sqrt`, so no property relies on which square root is used, beyond what a lemma's `requires` states.
- NaN and infinities in the inputs are not modelled: a non-finite price, a NaN `length` (where `Math.max(1, NaN)` is NaN), or NaN propagating through a sum. Undefined band values are `None`.
- The `?? 2` default for the multiplier and the `?? 0` default for the offset are left out. `lib/types.ts` types both fields as numbers, so neither default can apply to a well-typed input.
- A fractional offset is left out. The offset is an `int`.
- `Bollinger.Sma` requires `length ≥ 1`. Its only caller passes the clamped length. With length 0 the source would divide by zero.
- Mutation and aliasing of input arrays are not modelled. Inputs are `seq` values, so `shiftSeries` and `buildBandPolygon` cannot modify them by construction. For offset 0, "returns the same array" becomes "returns an equal sequence".
- The `rgbaGrey` colour string is left out; only the clamped alpha in it is modelled.
- The `fmt` tooltip formatting (`toFixed`) is left out.
- The `kData` memo (components/Chart.tsx:22-33), a field-for-field copy handed to the chart library, is left out.
- The React effects, `removeOverlay`, `writeTooltip`, the tooltip's `find` lookup, the chart library calls, `ResizeObserver` and window listeners are left out. They are UI and browser I/O.
- From `app/page.tsx`, `fetch`/JSON parsing and `synthData` are left out (I/O and randomness), as is the whole of `components/BollingerSettings.tsx` (UI state).
- The `BollingerStyle` record is left out, except for the background opacity that `rgbaGrey` receives.
