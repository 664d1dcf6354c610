# OC78 size calculator in Dafny

This project models the core of the OC78 size calculator, a Streamlit form. The
form takes a character's ethnicity, height, weight, hormone development and
fictional drugs, and estimates lengths from them. Each length is then compared
with an everyday reference object.

The model has two modules.

- `Calculator` (`calculator.dfy`) models the class `OCSizeCalculator`.
  - Its functions cover the baseline table, BMI and the BMI category, the fat
    pad, the hormone modifier, the height effect, the erection factor, the
    reference comparison and the whole calculation.
  - Two methods keep the source's loops and accumulators:
    `apply_special_drug_effects` builds up a modifier, and
    `find_closest_reference` scans the reference table. Each method is proved
    against a specification function.
  - Every `random.uniform(lo, hi)` is written as `lo + (hi - lo) * u`, which is
    the formula Python's `random` module uses. The unit draw `u` in [0, 1) is
    an input of the model. The whole calculation receives its five draws as a
    `Draws` value.
- `Session` (`session.dfy`) models the session dictionary of the form.
  - The class `SessionState` holds the dictionary as a `map` field.
  - Its methods are `init_session_state`, `clear_form` and the two buttons,
    compute and clear.
  - Each method is proved against a specification function on maps: `WithDefaults`,
    `Cleared` or `Computed`. Lemmas state what those functions guarantee: a
    rerun of init changes nothing, clear returns an initialised session to its
    defaults and to idle, and compute overwrites the result.

Python dictionaries are sequences of pairs in insertion order, and `dict.get`
is the generic `Lookup`. The fat pad bands use 24.9 and 29.9
inclusive, while the BMI category uses 25 and 30 exclusive, and the model keeps
both as written (`FatPadBandMatchesCategory`).

## Model

| member | source | states |
|---|---|---|
| Calculator.Uniform | app.py:37-41 | a draw of random.uniform(lo, hi) lies in [lo, hi], below hi when lo < hi |
| Calculator.Lookup | app.py:52 | dict.get: a missing key gives the default, a present key gives the value of its first entry |
| Calculator.EthnicityBaseline | app.py:17-20 | the baseline of a listed ethnicity is its table value, an unknown one gives 14.0, and every baseline lies in [13.5, 15.0] |
| Calculator.Bmi | app.py:29-31 | the BMI times the square of the height in metres is the weight |
| Calculator.CategoryOf | app.py:179 | underweight iff BMI < 18.5, normal iff 18.5 <= BMI < 25, overweight iff 25 <= BMI < 30, obese iff BMI >= 30 |
| Calculator.FatPadBand | app.py:36-41 | the band for a BMI of at least 18.5 lies within [0, 3]; it is the lowest band iff BMI <= 24.9 and the highest iff BMI > 29.9 |
| Calculator.FatPadBandMonotone | app.py:36-41 | a higher BMI never draws from a lower band: both bounds of the band grow with the BMI |
| Calculator.FatPadBandMatchesCategory | app.py:33-41 | the fat pad bands agree with the displayed category except on the two gaps (24.9, 25) and (29.9, 30), where they draw from the next band up |
| Calculator.FatPadReduction | app.py:33-41 | zero below BMI 18.5; within [0, 0.5], [0.5, 1.5] or [1.5, 3.0] for the three bands; always within [0, 3] |
| Calculator.HormoneRange | app.py:44-52 | a listed label gives its range, an unknown label gives (1.00, 1.05), and every range lies within [0.80, 1.20] |
| Calculator.HormoneModifier | app.py:43-53 | the modifier lies within the range of its label, and within [0.80, 1.20] |
| Calculator.HeightEffect | app.py:55-56 | the effect lies within [-0.3, 0.3], equals (height - 175) * 0.01 when that is in range, and is -0.3 or 0.3 beyond it |
| Calculator.HeightEffectMonotone | app.py:55-56 | a taller character never gets a smaller height effect |
| Calculator.ErectionFactor | app.py:58-59 | the erection factor lies within [1.2, 1.7] |
| Calculator.DrugFactor | app.py:61-68 | no recognised label gives 1.0; Cobra alone [1.4, 2.5]; the estrogen-like drug alone [0.3, 0.7]; both [0.42, 1.75]; always [0.3, 2.5] |
| Calculator.ApplySpecialDrugEffects | app.py:61-68 | the modifier built up one recognised label at a time gives the base size times DrugFactor, and the base size unchanged when no recognised label is chosen |
| Calculator.OtherDrugsIgnored | app.py:63-67 | adding options other than the two recognised labels never changes the factor |
| Calculator.InertOptionsHaveNoEffect | app.py:190 | the three other options the form offers leave the factor at 1.0 |
| Calculator.FirstClosestUnique | app.py:70-76 | at most one index is the first entry of least distance |
| Calculator.ClosestIndex | app.py:70-76 | the index found is the first one whose distance to the length is minimal |
| Calculator.Closest | app.py:70-76 | the result is None only for an empty table, is an entry of the table, and no entry is nearer |
| Calculator.ClosestIsFirst | app.py:74-75 | the chosen entry is the one at the first index of least distance, so ties go to the earlier entry |
| Calculator.FindClosestReference | app.py:70-76 | the scan with its strict comparison returns Closest of the reference table, and never None |
| Calculator.ClosestToFourteen | app.py:22-27 | a length of 14.0 matches the smartphone |
| Calculator.ReferenceComparison | app.py:78-86 | the object is the closest one; "about equal" iff the difference is below 0.5; otherwise longer or shorter by a difference of at least 0.5 that restores the length |
| Calculator.ComparisonAtFourteen | app.py:78-82 | 14.0 is reported as about the length of a smartphone, 14.0 cm |
| Calculator.FlaccidActual | app.py:93-94 | the actual length lies within [3.168, 45.9], so it is positive |
| Calculator.FlaccidVisible | app.py:98 | the visible length is actual - fat pad or 0, never negative, never below actual - fat pad, and at most actual |
| Calculator.ErectLength | app.py:101 | the erect length lies within [1.2, 1.7] times the actual length |
| Calculator.Measure | app.py:88-111 | the base is the baseline plus the height effect, within [13.2, 15.3]; the actual length is within [3.168, 45.9]; 0 <= visible <= actual; 1.2 * actual <= erect <= 1.7 * actual; an unknown ethnicity gives base 14.0 plus the height effect |
| Calculator.Calculate | app.py:88-116 | the result holds the measurements, with the actual length within [3.168, 45.9], 0 <= visible <= actual and 1.2 * actual <= erect <= 1.7 * actual, and for each of the three lengths the comparison with its closest reference object |
| Calculator.CalculateExample | app.py:88-101 | East Asian, 175 cm, 70 kg, average development, no drugs: base 13.5, actual within [13.5, 14.175], BMI normal, visible within [13.0, 14.175] |
| Session.DefaultKeysDistinct | app.py:119-123 | no key appears twice among the defaults |
| Session.DefaultValue | app.py:119-123 | the default of a key is the value listed with it |
| Session.ClearValue | app.py:132-145 | clear_form writes None exactly for the result, a positive number exactly for height and weight, a list exactly for the drugs, and text for every other key |
| Session.ClearValueIsDefault | app.py:128-145 | clear_form writes back exactly the value init_session_state uses as the default, for every key it walks over |
| Session.FormKeysAreDefaultKeys | app.py:129-130 | clear_form walks only over keys init_session_state provides |
| Session.FillMissing | app.py:124-126 | filling from a table keeps every existing value and adds each missing key with the value of its first entry |
| Session.WithDefaults | app.py:118-126 | after init the keys are the old ones plus the defaults; existing values are kept; missing keys get their defaults |
| Session.Cleared | app.py:128-145 | after clear the keys are unchanged; present form keys hold their reset values; other keys keep their values |
| Session.Computed | app.py:195-200 | after compute the result key holds the new result, the inputs stay ready, and nothing else changes |
| Session.WithDefaultsIdempotent | app.py:118-126 | running init again, as every rerun does, changes nothing |
| Session.InitialisedUnchanged | app.py:124-126 | init changes nothing in a session that already holds every default key |
| Session.InitAfterClear | app.py:204-206 | the rerun after the clear button runs init again, which changes nothing in the cleared session |
| Session.FreshSessionIdle | app.py:118-126 | a new session after init is idle, with its inputs ready |
| Session.ClearRestoresDefaults | app.py:128-145 | after init and clear every default key holds its default, and the session is idle |
| Session.ClearedKeyIsDefault | app.py:128-145 | after init and clear one default key holds its default |
| Session.DefaultsMakeIdle | app.py:119-123 | a session holding every default is idle, with its inputs ready |
| Session.ClearedInitialisedIsIdle | app.py:128-145 | clearing an initialised session leaves it idle, with its inputs ready |
| Session.ClearedIdempotent | app.py:128-145 | clearing twice is the same as clearing once |
| Session.ComputeThenClear | app.py:195-206 | compute leads to a stored result, and clear then leads back to idle |
| Session.SessionState.InitSessionState | app.py:118-126 | the loop stores each missing default and leaves the session equal to WithDefaults of the old one |
| Session.SessionState.ClearForm | app.py:128-145 | the loop leaves the session equal to Cleared of the old one: present form keys reset, no key added |
| Session.SessionState.PressCompute | app.py:195-201 | the session becomes Computed with calculate on the current inputs, and holds a result |
| Session.SessionState.PressClear | app.py:203-206 | the session becomes Cleared of the old one, and is idle with its inputs ready |

## Left out

- The page layout, widgets, messages, result display and `main` are left out. The widgets appear only as the keys they write into the session.
- The timestamp and the download button are left out.
- Rounding of the result values and the formatted comparison strings are left out. The comparisons keep the branch taken, the object and the unrounded numbers.
- The drug-information string of the result is left out.
- The distribution of Python's `random` generator is left out. Each draw is an input in [0, 1), and only the formula that maps it to a range is modelled.
- Floating point is modelled as exact reals, so rounding inside the arithmetic is not captured.
- Calculator.Bmi requires a positive height. The source would divide by zero at 0, but its slider only offers 140 to 220 cm.
- Session.SessionState.PressCompute requires the inputs to be present and of their widgets' types. The widgets guarantee this in the source.
- `st.rerun` after clear is left out. The rerun calls init again, and `InitAfterClear` shows that this changes nothing.
- Session keys are a datatype with one constructor per key, plus `Other` for any further key. Reference objects are a datatype with their printed names given by `Label`, not strings.
- Calculator.ApplySpecialDrugEffects: its bounds relative to the base size are stated on `DrugFactor`, not on the method's result.
- Session.SessionState.ClearForm writes `ClearValue(key)`, which is the source's chain of comparisons on the key as one function.
- Session.SessionState.PressClear: the session is a plain map, so the model does not capture Streamlit's rule that a widget's key cannot be written after that widget was created in the same run. In the source, clear_form runs inside the button's branch after the keyed widgets were created, so under that rule its first write would raise an exception and leave the result in place. The model's "clear leads back to idle" holds only for a session without that rule. The Streamlit library is not part of this model.
