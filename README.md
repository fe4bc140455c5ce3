# Blood glucose advice and HbA1c estimate

A Dafny model of the logic of the blood-glucose calculator (`Glucose.py`).
The program has two pure functions, and the rest is screen code:

- `provide_health_advice(glucose)` sorts a glucose reading (mg/dL) into one
  of four fixed advisories. The guard chain is `< 70` low, `70..99` normal,
  `100..125` prediabetic, and everything else high.
- `calculate_hba1c(avg_glucose)` estimates HbA1c (percent) as
  `(avg_glucose + 46.7) / 28.7`.

Module `Glucose` (`glucose.dfy`) models the four advisories as the datatype
`Advice`. `Advice.Text()` holds the exact message strings, and
`Advice.Rank()` orders the bands from low to high. `ProvideHealthAdvice`
takes the guard chain as written over exact reals, since the Python function
accepts any number. `AdviceForReading` restricts it to the non-negative whole
numbers that the entry form delivers (`min_value=0`). `HealthAdviceMessage`
gives the string the Python function returns. `InBand` is a separate
reference table of closed integer intervals (up to 69, 70..99, 100..125,
126 and up), and the lemmas relate the guard chain to it.

Read as a table of whole numbers (up to 69, 70..99, 100..125, 126 and up),
the bands leave no gap. The guard chain as written leaves one over the
reals: a reading strictly between 99 and 100 fails both middle guards and
gets the hyperglycemia advice. `ProvideHealthAdvice` states this in its contract, and
`AdviceNotMonotoneOverReals` exhibits it (99.5 is ranked above 100). On the
integer readings the form produces, the gap cannot be reached. There the
bands tile the line and are ordered (`BandsCoverIntegers`, `BandsDisjoint`,
`AdviceMonotone`, `AdviceContiguous`).

## Model

| member | source | states |
|---|---|---|
| `Glucose.ProvideHealthAdvice` | Glucose.py:9-17 | below 70 is hypoglycemia; 70..99 inclusive is normal; 100..125 inclusive is prediabetic; hyperglycemia exactly when the reading is in (99, 100) or above 125; each as an if-and-only-if |
| `Glucose.HealthAdviceMessage` | Glucose.py:9-17 | the exact message returned: the hypoglycemia text iff the reading is below 70, the normal text iff 70..99, the prediabetic text iff 100..125, the hyperglycemia text iff in (99, 100) or above 125 |
| `Glucose.AdviceForReading` | Glucose.py:25-31 | for a non-negative whole-number reading from the entry form, the advice lies in the reference-table band for that number |
| `Glucose.BandsDisjoint` | Glucose.py:10-17 | no whole number lies in two bands, so the band table fixes the advice uniquely |
| `Glucose.BandsCoverIntegers` | Glucose.py:10-17 | every integer, negative ones included, lies in the band the guard chain selects for it, so over the integers the bands leave no gap |
| `Glucose.AdviceMonotone` | Glucose.py:10-17 | for whole-number readings, a higher reading never gets a lower band |
| `Glucose.AdviceContiguous` | Glucose.py:10-17 | raising a whole-number reading by one moves the advice up by at most one band, so no band is skipped |
| `Glucose.AdviceNotMonotoneOverReals` | Glucose.py:12-17 | over real readings the ordering fails: some smaller reading gets a higher band than a larger one |
| `Glucose.TextInjective` | Glucose.py:10-17 | the four advisory messages are pairwise distinct, so the message shown identifies the band |
| `Glucose.CalculateHbA1c` | Glucose.py:4-6 | `28.7 * estimate - 46.7` gives back the average; for a non-negative average the estimate is at least 46.7/28.7; it equals 46.7/28.7 exactly when the average is 0 |
| `Glucose.AverageGlucoseFor` | Glucose.py:6 | the inverse map: the HbA1c estimate of the returned average is the given HbA1c |
| `Glucose.HbA1cRoundTrip` | Glucose.py:6 | estimating HbA1c and mapping back gives the original average |
| `Glucose.HbA1cStrictlyIncreasing` | Glucose.py:6 | a strictly higher average gives a strictly higher estimate |
| `Glucose.HbA1cAt120` | Glucose.py:6 | an average of 120 gives exactly 1667/287, strictly between 5.808 and 5.809, which displays as 5.81 |

## Left out

- `main()` and all screen calls (Glucose.py:20-39): title, text, number inputs and buttons are rendering by a third-party UI library. The only part kept is the input domain: `AdviceForReading` takes a `nat`, as the form's `min_value=0` integer inputs do.
- The two-decimal display format (Glucose.py:36) is presentation. `HbA1cAt120` states the exact value that gets rounded.
- `CalculateHbA1c`: uses exact real arithmetic, not IEEE-754 doubles, so it does not model the rounding of `46.7`, `28.7` or the division.
- Negative or non-finite inputs: the code raises no error for them. `CalculateHbA1c` and `ProvideHealthAdvice` take any real, and the non-negative bound appears only as a hypothesis where the form's domain matters. Non-finite values do not exist in `real`.
- Later revisions of the app (image fetching, styling, the bar chart) add no logic and are not part of this model.
