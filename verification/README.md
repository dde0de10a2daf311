# Podcast listening-time predictor: feature construction

The podcast listening-time predictor is a one-form web application. The user
describes an episode: its length, genre, host and guest popularity,
publication day and hour, number of ads, sentiment and title-complexity
score. On submit the application turns these values into a fourteen-column
feature row and hands it to a pretrained regressor. This project models the
one piece of logic in that script, the construction of the feature row, and
proves its properties in Dafny:

- `Dicts`: a Python dict literal as the ordered list of its entries.
  `Dicts.ToMap` gives the dict such a literal builds (a repeated key keeps
  its last value). `Dicts.Find` and `Dicts.Get` model `d.get(k, default)`
  on that dict: the last entry written for a key decides, so they agree
  with `ToMap` even for a literal with a repeated key.
- `Encoders`: the genre and publication-day tables, and `.get` with their
  fallbacks 6 and 0.
- `Features`: the five derived features (ad density, popularity difference,
  interaction, host popularity squared and popularity average).
- `Records`: the submitted form values (`FormInput`), the ranges the widgets
  allow (`InWidgetDomain`), the assembled `FeatureRecord` and its fourteen
  named columns in training order (`Row`). `FromRow` reads a record back out
  of a table by column name. It is the partner that shows `Row` loses and
  mislabels nothing.

Every function is pure, so calling the deriver twice with the same inputs
gives the same row by construction. Python's true division is modelled as
exact division on `real`. Python integers stay `int` (`Cell.Int`), and Python
floats become `real` (`Cell.Real`).

The episode length, host popularity and guest popularity come from integer
widgets (streamlit_app.py:39, 41, 44: `min_value=1`, and sliders with integer
bounds 0..100), so they are `int` here. The derived difference, interaction
and square are integers as well.

## Model

| member | source | states |
|---|---|---|
| Dicts.Find | streamlit_app.py:81 | the lookup finds a value exactly when some entry has the key, and the value it returns is the one stored by the last entry written for that key |
| Dicts.Get | streamlit_app.py:83 | `.get` returns the default when the key is absent and otherwise the value stored by the last entry written for the key |
| Dicts.FindMatchesLiteral | streamlit_app.py:64-76 | for every literal, repeated keys included, the lookup agrees with the dict Python builds from it: same keys, same values |
| Dicts.FindAt | streamlit_app.py:64-76 | with no repeated keys, looking up the key of any entry yields that entry's value |
| Encoders.TablesArePositional | streamlit_app.py:64-76 | both tables give each drop-down option its display position as code, and neither repeats a key |
| Encoders.EncodeGenre | streamlit_app.py:81 | the genre code is in 0..6; a genre from the drop-down is decoded back to itself by the code; any other string gets 6 |
| Encoders.EncodeDay | streamlit_app.py:83 | the day code is in 0..6; a day from the drop-down is decoded back to itself by the code; any other string gets 0 |
| Encoders.GenreRoundTrip | streamlit_app.py:64-72 | the genre at drop-down position c is encoded as c |
| Encoders.DayRoundTrip | streamlit_app.py:73-76 | the day at drop-down position c is encoded as c |
| Encoders.GenreCodes | streamlit_app.py:64-72 | Education 0, Comedy 1, News 2, Business 3, Health 4, Tech 5, Other 6 |
| Encoders.DayCodes | streamlit_app.py:73-76 | Monday 0 through Sunday 6, in calendar order |
| Encoders.GenreFallback | streamlit_app.py:81 | the genre code is 6 if and only if the genre is "Other" or not in the drop-down |
| Encoders.DayFallback | streamlit_app.py:83 | the day code is 0 if and only if the day is "Monday" or not in the drop-down |
| Encoders.EncodersMatchLiterals | streamlit_app.py:64-83 | both encoders return what `.get` on the dicts built by the two literals returns, fallback included |
| Encoders.GenreInjective | streamlit_app.py:64-72 | two different genres of the drop-down never share a code |
| Encoders.DayInjective | streamlit_app.py:73-76 | two different days of the drop-down never share a code |
| Features.AdDenominator | streamlit_app.py:50 | the ad-density denominator is at least 1 and at least the length, and equals one of the two |
| Features.AdDensity | streamlit_app.py:50 | density times the floored length gives the ad count back; it is ads/length for lengths of 1 or more, the ad count itself below that, and between 0 and the ad count for a non-negative ad count |
| Features.PopularityInteraction | streamlit_app.py:52 | the interaction is 0 when either popularity is 0, never negative for non-negative popularities, and at most 10000 within the 0..100 slider range |
| Features.PopularityDiff | streamlit_app.py:51 | guest popularity plus the difference gives host popularity |
| Features.HostSquared | streamlit_app.py:53 | the square is the host's interaction with itself and is never negative |
| Features.PopularityAverage | streamlit_app.py:54 | twice the average is host plus guest, and the average lies between the smaller and the larger of the two |
| Features.Derive | streamlit_app.py:50-54 | density times the floored length gives the ad count; guest plus difference gives host; the square equals interaction plus host times difference; twice the average is host plus guest, and twice its distance above the guest is the difference |
| Features.DerivedBounds | streamlit_app.py:39-54 | within the widget ranges: density times length is the ad count, density in 0..10, difference in -100..100, interaction and square in 0..10000, average in 0..100 |
| Features.WorkedExamples | streamlit_app.py:50-54 | 5 ads over a length below 1 give density 5; host 70 and guest 40 give difference 30, interaction 2800, square 4900, average 55 |
| Records.Assemble | streamlit_app.py:79-94 | raw values pass through unchanged; both codes are in 0..6, decode to the chosen option, and fall back to 6 and 0; each derived column satisfies its defining relation with the form values |
| Records.Row | streamlit_app.py:79-94 | the table has exactly the fourteen column names, in training order |
| Records.ColumnNamesDistinct | streamlit_app.py:80-93 | there are fourteen column names and none is repeated |
| Records.RowColumns | streamlit_app.py:80-93 | looking up any column of the table by name yields the cell at that column's position |
| Records.RowRoundTrip | streamlit_app.py:79-94 | reading the table back by column name recovers the record |
| Records.RowFromRow | streamlit_app.py:79-94 | a table with the fourteen columns in order that reads back as a record is exactly that record's table |
| Records.SubmittedRow | streamlit_app.py:79-94 | the submitted table has fourteen columns in training order; the seven raw values sit unchanged in their columns, the categories as their codes |
| Records.AssembledInDomain | streamlit_app.py:39-54 | every submission the widgets allow yields a record inside the column ranges of `InRecordDomain` |
| Records.DefaultSubmission | streamlit_app.py:39-49 | the widgets' default values (30, the first drop-down options Education and Monday, 50, 10, 40, 2, 0.2, 0.5) give codes 0 and 0, density 2/30, difference 10, interaction 2000, square 2500, average 45 |
| Records.ComedyFridaySubmission | streamlit_app.py:79-94 | the same values with Comedy and Friday give codes 1 and 4 and otherwise the same row |

## Left out

- Model download and the cache check (`download_model`, `os.path.exists`, `requests.get`, writing `model.pkl`): network and filesystem I/O.
- `joblib.load` and `model.predict`: foreign calls into a pickled gradient-boosted model whose behaviour is not visible here.
- Feature-importance plotting: UI and foreign plotting code.
- Streamlit widgets, layout and the `st.write`/`st.success` output, including the `:.3f`/`:.2f` formatting. The widget bounds appear only as `Records.InWidgetDomain`, the requires of the bounds lemmas. The formulas themselves are total.
- The `if submitted:` gate: the row is modelled as built on submit; the form's unsubmitted state carries no logic.
- Features.AdDensity: does not model IEEE-754 rounding of `/`, because the division is exact on `real`.
- Features.PopularityAverage: does not model IEEE-754 rounding of `/ 2`, because the division is exact on `real`.
- Records.Assemble: does not model the 64-bit integer width of the table's integer columns. Within the widget ranges every derived integer is at most 10000. The episode length has no upper widget bound, is only passed through, and is used in `max` and the division.
- Sentiment and title score are opaque `real` pass-throughs; the slider step and float precision are not modelled.
