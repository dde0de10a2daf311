/**
  The two categorical encoders of the prediction form (streamlit_app.py).

  Genre and publication day are chosen from drop-down lists; before the row
  reaches the regressor each is replaced by an integer code through a static
  dict, with a fixed fallback for a name the dict does not hold: genre falls
  back to 6 (the code of "Other") and day to 0 (the code of "Monday").
 */
module Encoders {
  import opened Dicts

  /** Options of the genre drop-down, in display order */
  const GenreOptions: seq<string> :=
    ["Education", "Comedy", "News", "Business", "Health", "Tech", "Other"]

  /** Options of the publication-day drop-down, in display order */
  const DayOptions: seq<string> :=
    ["Monday", "Tuesday", "Wednesday", "Thursday", "Friday", "Saturday", "Sunday"]

  /** `genre_mapping` */
  const GenreMapping: Dict<int> := [
    ("Education", 0),
    ("Comedy", 1),
    ("News", 2),
    ("Business", 3),
    ("Health", 4),
    ("Tech", 5),
    ("Other", 6)
  ]

  /** `day_mapping` */
  const DayMapping: Dict<int> := [
    ("Monday", 0), ("Tuesday", 1), ("Wednesday", 2),
    ("Thursday", 3), ("Friday", 4), ("Saturday", 5), ("Sunday", 6)
  ]

  /** The fallback codes passed to `.get` */
  const GenreDefault: int := 6
  const DayDefault: int := 0

  /** True iff no name occurs twice in `names` */
  predicate Distinct(names: seq<string>) {
    forall i, j :: 0 <= i < j < |names| ==> names[i] != names[j]
  }

  /** True iff `mapping` gives every option its position in `options` as code */
  predicate CodesArePositions(mapping: Dict<int>, options: seq<string>) {
    |mapping| == |options| && forall i :: 0 <= i < |mapping| ==> mapping[i] == (options[i], i)
  }

  /** Both tables number their drop-down's options in display order. */
  lemma TablesArePositional()
    ensures Distinct(GenreOptions) && CodesArePositions(GenreMapping, GenreOptions)
    ensures Distinct(DayOptions) && CodesArePositions(DayMapping, DayOptions)
    ensures DistinctKeys(GenreMapping) && DistinctKeys(DayMapping)
  {
  }

  /** A `.get` on a positional table: a known name yields its position,
      an unknown one the default. */
  lemma PositionalLookup(mapping: Dict<int>, options: seq<string>, default: int, name: string)
    requires CodesArePositions(mapping, options)
    ensures name in options ==> 0 <= Get(mapping, name, default) < |options|
    ensures name in options ==> options[Get(mapping, name, default)] == name
    ensures name !in options ==> Get(mapping, name, default) == default
  {
    if name in options {
      var i :| 0 <= i < |options| && options[i] == name;
      assert mapping[i].0 == name;
      assert HasKey(mapping, name);
    }
  }

  /** `genre_mapping.get(Genre, 6)` */
  function EncodeGenre(name: string): (code: int)
    ensures 0 <= code < |GenreOptions|
    ensures name in GenreOptions ==> GenreOptions[code] == name
    ensures name !in GenreOptions ==> code == GenreDefault
  {
    TablesArePositional();
    PositionalLookup(GenreMapping, GenreOptions, GenreDefault, name);
    Get(GenreMapping, name, GenreDefault)
  }

  /** `day_mapping.get(Publication_Day, 0)` */
  function EncodeDay(name: string): (code: int)
    ensures 0 <= code < |DayOptions|
    ensures name in DayOptions ==> DayOptions[code] == name
    ensures name !in DayOptions ==> code == DayDefault
  {
    TablesArePositional();
    PositionalLookup(DayMapping, DayOptions, DayDefault, name);
    Get(DayMapping, name, DayDefault)
  }

  /** Every genre in the drop-down gets its display position as code. */
  lemma GenreRoundTrip(code: int)
    requires 0 <= code < |GenreOptions|
    ensures EncodeGenre(GenreOptions[code]) == code
  {
    TablesArePositional();
    var c := EncodeGenre(GenreOptions[code]);
    assert GenreOptions[c] == GenreOptions[code];
  }

  /** Every day in the drop-down gets its display position as code. */
  lemma DayRoundTrip(code: int)
    requires 0 <= code < |DayOptions|
    ensures EncodeDay(DayOptions[code]) == code
  {
    TablesArePositional();
    var c := EncodeDay(DayOptions[code]);
    assert DayOptions[c] == DayOptions[code];
  }

  /** The codes of `genre_mapping`. */
  lemma GenreCodes()
    ensures EncodeGenre("Education") == 0 && EncodeGenre("Comedy") == 1
    ensures EncodeGenre("News") == 2 && EncodeGenre("Business") == 3
    ensures EncodeGenre("Health") == 4 && EncodeGenre("Tech") == 5
    ensures EncodeGenre("Other") == 6
  {
    GenreRoundTrip(0); GenreRoundTrip(1); GenreRoundTrip(2); GenreRoundTrip(3);
    GenreRoundTrip(4); GenreRoundTrip(5); GenreRoundTrip(6);
  }

  /** The codes of `day_mapping`: the days of the week in calendar order from Monday. */
  lemma DayCodes()
    ensures EncodeDay("Monday") == 0 && EncodeDay("Tuesday") == 1
    ensures EncodeDay("Wednesday") == 2 && EncodeDay("Thursday") == 3
    ensures EncodeDay("Friday") == 4 && EncodeDay("Saturday") == 5
    ensures EncodeDay("Sunday") == 6
  {
    DayRoundTrip(0); DayRoundTrip(1); DayRoundTrip(2); DayRoundTrip(3);
    DayRoundTrip(4); DayRoundTrip(5); DayRoundTrip(6);
  }

  /** Genre code 6 means "Other" or a name outside the drop-down, and nothing else. */
  lemma GenreFallback(name: string)
    ensures EncodeGenre(name) == GenreDefault <==> name == "Other" || name !in GenreOptions
  {
    if name in GenreOptions && EncodeGenre(name) == GenreDefault {
      assert name == GenreOptions[6];
    }
    if name == "Other" {
      GenreRoundTrip(6);
    }
  }

  /** Day code 0 means "Monday" or a name outside the drop-down, and nothing else. */
  lemma DayFallback(name: string)
    ensures EncodeDay(name) == DayDefault <==> name == "Monday" || name !in DayOptions
  {
    if name in DayOptions && EncodeDay(name) == DayDefault {
      assert name == DayOptions[0];
    }
    if name == "Monday" {
      DayRoundTrip(0);
    }
  }

  /** The encoders look names up exactly as the dicts the two literals build
      would: a name the dict holds gets its stored code, any other the fallback. */
  lemma EncodersMatchLiterals(name: string)
    ensures EncodeGenre(name) ==
      if name in ToMap(GenreMapping) then ToMap(GenreMapping)[name] else GenreDefault
    ensures EncodeDay(name) ==
      if name in ToMap(DayMapping) then ToMap(DayMapping)[name] else DayDefault
  {
    TablesArePositional();
    FindMatchesLiteral(GenreMapping, name);
    FindMatchesLiteral(DayMapping, name);
  }

  /** Distinct genres of the drop-down get distinct codes. */
  lemma GenreInjective(a: string, b: string)
    requires a in GenreOptions && b in GenreOptions && a != b
    ensures EncodeGenre(a) != EncodeGenre(b)
  {
  }

  /** Distinct days of the drop-down get distinct codes. */
  lemma DayInjective(a: string, b: string)
    requires a in DayOptions && b in DayOptions && a != b
    ensures EncodeDay(a) != EncodeDay(b)
  {
  }
}
