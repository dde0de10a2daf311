/**
  Assembly of the one-row feature table that the prediction form hands to
  the regressor (streamlit_app.py).

  The nine form values, the two encoded categories and the five derived
  features are laid out as fourteen named columns in a fixed order, the
  order the regressor was trained with.
 */
module Records {
  import opened Dicts
  import opened Encoders
  import opened Features

  /** The nine values a submission of the form carries */
  datatype FormInput = FormInput(
    length: int,       // Episode Length (minutes)
    genre: string,     // Genre drop-down
    host: int,         // Host Popularity (%)
    day: string,       // Publication Day drop-down
    hour: int,         // Publication Time (hour of day)
    guest: int,        // Guest Popularity (%)
    ads: int,          // Number of Ads
    sentiment: real,   // Episode Sentiment Score
    title: real)       // Title Text Complexity Score

  /** The values the form's widgets let a user submit */
  predicate InWidgetDomain(f: FormInput) {
    && f.length >= 1
    && f.genre in GenreOptions
    && 0 <= f.host <= 100
    && f.day in DayOptions
    && 0 <= f.hour <= 23
    && 0 <= f.guest <= 100
    && 0 <= f.ads <= 10
    && -1.0 <= f.sentiment <= 1.0
    && f.title >= 0.0
  }

  /** One cell of the row: Python ints stay integers, floats are reals */
  datatype Cell = Int(i: int) | Real(x: real)

  /** The feature record, field by field in column order */
  datatype FeatureRecord = FeatureRecord(
    length: int,
    genre: int,
    host: int,
    day: int,
    hour: int,
    guest: int,
    ads: int,
    sentiment: real,
    title: real,
    adDensity: real,
    popularityDiff: int,
    popularityInteraction: int,
    hostSquared: int,
    popularityAverage: real)

  /** The column names, in the order the regressor was trained with */
  const ColumnNames: seq<string> := [
    "Episode_Length_minutes",
    "Genre",
    "Host_Popularity_percentage",
    "Publication_Day",
    "Publication_Time",
    "Guest_Popularity_percentage",
    "Number_of_Ads",
    "Episode_Sentiment",
    "Episode_Title_num",
    "Ad_Density",
    "Popularity_Diff",
    "Popularity_Interaction",
    "Host_Popularity_squared",
    "Popularity_Average"
  ]

  /** The ranges the feature record's columns keep for any submission the
      widgets allow */
  predicate InRecordDomain(r: FeatureRecord) {
    && r.length >= 1
    && 0 <= r.genre <= 6
    && 0 <= r.host <= 100
    && 0 <= r.day <= 6
    && 0 <= r.hour <= 23
    && 0 <= r.guest <= 100
    && 0 <= r.ads <= 10
    && -1.0 <= r.sentiment <= 1.0
    && r.title >= 0.0
    && 0.0 <= r.adDensity <= r.ads as real
    && -100 <= r.popularityDiff <= 100
    && 0 <= r.popularityInteraction <= 10000
    && 0 <= r.hostSquared <= 10000
    && 0.0 <= r.popularityAverage <= 100.0
  }

  /** The record built on submit: raw values pass through unchanged, the two
      categories are encoded, the derived features are computed. */
  function Assemble(f: FormInput): (r: FeatureRecord)
    ensures r.length == f.length && r.host == f.host && r.hour == f.hour
    ensures r.guest == f.guest && r.ads == f.ads
    ensures r.sentiment == f.sentiment && r.title == f.title
    ensures 0 <= r.genre < |GenreOptions| && 0 <= r.day < |DayOptions|
    ensures f.genre in GenreOptions ==> GenreOptions[r.genre] == f.genre
    ensures f.genre !in GenreOptions ==> r.genre == GenreDefault
    ensures f.day in DayOptions ==> DayOptions[r.day] == f.day
    ensures f.day !in DayOptions ==> r.day == DayDefault
    ensures r.adDensity * AdDenominator(f.length) as real == f.ads as real
    ensures f.guest + r.popularityDiff == f.host
    ensures r.popularityInteraction == f.host * f.guest
    ensures r.hostSquared == f.host * f.host
    ensures 2.0 * r.popularityAverage == (f.host + f.guest) as real
  {
    var d := Derive(f.length, f.ads, f.host, f.guest);
    FeatureRecord(
      f.length,
      EncodeGenre(f.genre),
      f.host,
      EncodeDay(f.day),
      f.hour,
      f.guest,
      f.ads,
      f.sentiment,
      f.title,
      d.adDensity,
      d.popularityDiff,
      d.popularityInteraction,
      d.hostSquared,
      d.popularityAverage)
  }

  /** The one-row table handed to the regressor: (column name, cell) pairs
      in training order */
  function Row(r: FeatureRecord): (row: Dict<Cell>)
    ensures |row| == |ColumnNames|
    ensures forall i :: 0 <= i < |row| ==> row[i].0 == ColumnNames[i]
  {
    [
      (ColumnNames[0], Int(r.length)),
      (ColumnNames[1], Int(r.genre)),
      (ColumnNames[2], Int(r.host)),
      (ColumnNames[3], Int(r.day)),
      (ColumnNames[4], Int(r.hour)),
      (ColumnNames[5], Int(r.guest)),
      (ColumnNames[6], Int(r.ads)),
      (ColumnNames[7], Real(r.sentiment)),
      (ColumnNames[8], Real(r.title)),
      (ColumnNames[9], Real(r.adDensity)),
      (ColumnNames[10], Int(r.popularityDiff)),
      (ColumnNames[11], Int(r.popularityInteraction)),
      (ColumnNames[12], Int(r.hostSquared)),
      (ColumnNames[13], Real(r.popularityAverage))
    ]
  }

  /** The integer in column `name`, if the row has that column and it holds one */
  function IntColumn(row: Dict<Cell>, name: string): Option<int>
  {
    match Find<Cell>(row, name)
    case Some(Int(i)) => Some(i)
    case _ => None
  }

  /** The real in column `name`, if the row has that column and it holds one */
  function RealColumn(row: Dict<Cell>, name: string): Option<real>
  {
    match Find<Cell>(row, name)
    case Some(Real(x)) => Some(x)
    case _ => None
  }

  /** Reads a feature record back out of a table by column name, as a
      consumer of the table would; None when a column is missing or holds a
      value of the wrong kind. */
  function FromRow(row: Dict<Cell>): Option<FeatureRecord>
  {
    if
    && IntColumn(row, ColumnNames[0]).Some?
    && IntColumn(row, ColumnNames[1]).Some?
    && IntColumn(row, ColumnNames[2]).Some?
    && IntColumn(row, ColumnNames[3]).Some?
    && IntColumn(row, ColumnNames[4]).Some?
    && IntColumn(row, ColumnNames[5]).Some?
    && IntColumn(row, ColumnNames[6]).Some?
    && RealColumn(row, ColumnNames[7]).Some?
    && RealColumn(row, ColumnNames[8]).Some?
    && RealColumn(row, ColumnNames[9]).Some?
    && IntColumn(row, ColumnNames[10]).Some?
    && IntColumn(row, ColumnNames[11]).Some?
    && IntColumn(row, ColumnNames[12]).Some?
    && RealColumn(row, ColumnNames[13]).Some?
    then
      Some(FeatureRecord(
        IntColumn(row, ColumnNames[0]).value,
        IntColumn(row, ColumnNames[1]).value,
        IntColumn(row, ColumnNames[2]).value,
        IntColumn(row, ColumnNames[3]).value,
        IntColumn(row, ColumnNames[4]).value,
        IntColumn(row, ColumnNames[5]).value,
        IntColumn(row, ColumnNames[6]).value,
        RealColumn(row, ColumnNames[7]).value,
        RealColumn(row, ColumnNames[8]).value,
        RealColumn(row, ColumnNames[9]).value,
        IntColumn(row, ColumnNames[10]).value,
        IntColumn(row, ColumnNames[11]).value,
        IntColumn(row, ColumnNames[12]).value,
        RealColumn(row, ColumnNames[13]).value))
    else
      None
  }

  /** No column name is written twice. */
  lemma ColumnNamesDistinct()
    ensures |ColumnNames| == 14
    ensures forall i, j :: 0 <= i < j < |ColumnNames| ==> ColumnNames[i] != ColumnNames[j]
  {
  }

  /** Every column of the table can be found by its name and holds the
      record's field. */
  lemma RowColumns(r: FeatureRecord, i: int)
    requires 0 <= i < |ColumnNames|
    ensures Find(Row(r), ColumnNames[i]) == Some(Row(r)[i].1)
  {
    ColumnNamesDistinct();
    FindAt(Row(r), i);
  }

  /** Reading the table back by column name recovers the record: nothing is
      lost, reordered or mislabelled on the way to the regressor. */
  lemma RowRoundTrip(r: FeatureRecord)
    ensures FromRow(Row(r)) == Some(r)
  {
    var row := Row(r);
    RowColumns(r, 0);
    assert IntColumn(row, ColumnNames[0]) == Some(r.length);
    RowColumns(r, 1);
    assert IntColumn(row, ColumnNames[1]) == Some(r.genre);
    RowColumns(r, 2);
    assert IntColumn(row, ColumnNames[2]) == Some(r.host);
    RowColumns(r, 3);
    assert IntColumn(row, ColumnNames[3]) == Some(r.day);
    RowColumns(r, 4);
    assert IntColumn(row, ColumnNames[4]) == Some(r.hour);
    RowColumns(r, 5);
    assert IntColumn(row, ColumnNames[5]) == Some(r.guest);
    RowColumns(r, 6);
    assert IntColumn(row, ColumnNames[6]) == Some(r.ads);
    RowColumns(r, 7);
    assert RealColumn(row, ColumnNames[7]) == Some(r.sentiment);
    RowColumns(r, 8);
    assert RealColumn(row, ColumnNames[8]) == Some(r.title);
    RowColumns(r, 9);
    assert RealColumn(row, ColumnNames[9]) == Some(r.adDensity);
    RowColumns(r, 10);
    assert IntColumn(row, ColumnNames[10]) == Some(r.popularityDiff);
    RowColumns(r, 11);
    assert IntColumn(row, ColumnNames[11]) == Some(r.popularityInteraction);
    RowColumns(r, 12);
    assert IntColumn(row, ColumnNames[12]) == Some(r.hostSquared);
    RowColumns(r, 13);
    assert RealColumn(row, ColumnNames[13]) == Some(r.popularityAverage);
  }

  /** A record read back from a table holds what the table's columns hold. */
  lemma FromRowColumns(row: Dict<Cell>, r: FeatureRecord)
    requires FromRow(row) == Some(r)
    ensures IntColumn(row, ColumnNames[0]) == Some(r.length)
    ensures IntColumn(row, ColumnNames[1]) == Some(r.genre)
    ensures IntColumn(row, ColumnNames[2]) == Some(r.host)
    ensures IntColumn(row, ColumnNames[3]) == Some(r.day)
    ensures IntColumn(row, ColumnNames[4]) == Some(r.hour)
    ensures IntColumn(row, ColumnNames[5]) == Some(r.guest)
    ensures IntColumn(row, ColumnNames[6]) == Some(r.ads)
    ensures RealColumn(row, ColumnNames[7]) == Some(r.sentiment)
    ensures RealColumn(row, ColumnNames[8]) == Some(r.title)
    ensures RealColumn(row, ColumnNames[9]) == Some(r.adDensity)
    ensures IntColumn(row, ColumnNames[10]) == Some(r.popularityDiff)
    ensures IntColumn(row, ColumnNames[11]) == Some(r.popularityInteraction)
    ensures IntColumn(row, ColumnNames[12]) == Some(r.hostSquared)
    ensures RealColumn(row, ColumnNames[13]) == Some(r.popularityAverage)
  {
  }

  /** In a table without repeated names, a column read by name as an
      integer is the cell at that column's position. */
  lemma IntCellAt(row: Dict<Cell>, k: int, v: int)
    requires DistinctKeys(row) && 0 <= k < |row|
    requires IntColumn(row, row[k].0) == Some(v)
    ensures row[k].1 == Int(v)
  {
    FindAt(row, k);
  }

  /** In a table without repeated names, a column read by name as a real is
      the cell at that column's position. */
  lemma RealCellAt(row: Dict<Cell>, k: int, x: real)
    requires DistinctKeys(row) && 0 <= k < |row|
    requires RealColumn(row, row[k].0) == Some(x)
    ensures row[k].1 == Real(x)
  {
    FindAt(row, k);
  }

  /** Conversely, a table with the fourteen columns in training order that
      reads back as a record is exactly that record's table. */
  lemma RowFromRow(row: Dict<Cell>, r: FeatureRecord)
    requires |row| == |ColumnNames|
    requires forall i :: 0 <= i < |row| ==> row[i].0 == ColumnNames[i]
    requires FromRow(row) == Some(r)
    ensures Row(r) == row
  {
    ColumnNamesDistinct();
    FromRowColumns(row, r);
    assert DistinctKeys(row);
    IntCellAt(row, 0, r.length);
    IntCellAt(row, 1, r.genre);
    IntCellAt(row, 2, r.host);
    IntCellAt(row, 3, r.day);
    IntCellAt(row, 4, r.hour);
    IntCellAt(row, 5, r.guest);
    IntCellAt(row, 6, r.ads);
    RealCellAt(row, 7, r.sentiment);
    RealCellAt(row, 8, r.title);
    RealCellAt(row, 9, r.adDensity);
    IntCellAt(row, 10, r.popularityDiff);
    IntCellAt(row, 11, r.popularityInteraction);
    IntCellAt(row, 12, r.hostSquared);
    RealCellAt(row, 13, r.popularityAverage);
  }

  /** The submitted table has the fourteen columns in training order; the
      raw form values sit in their columns unchanged and the two categories
      in theirs as codes. */
  lemma SubmittedRow(f: FormInput)
    ensures |Row(Assemble(f))| == 14
    ensures forall i :: 0 <= i < 14 ==> Row(Assemble(f))[i].0 == ColumnNames[i]
    ensures Row(Assemble(f))[0] == ("Episode_Length_minutes", Int(f.length))
    ensures Row(Assemble(f))[1] == ("Genre", Int(EncodeGenre(f.genre)))
    ensures Row(Assemble(f))[2] == ("Host_Popularity_percentage", Int(f.host))
    ensures Row(Assemble(f))[3] == ("Publication_Day", Int(EncodeDay(f.day)))
    ensures Row(Assemble(f))[4] == ("Publication_Time", Int(f.hour))
    ensures Row(Assemble(f))[5] == ("Guest_Popularity_percentage", Int(f.guest))
    ensures Row(Assemble(f))[6] == ("Number_of_Ads", Int(f.ads))
    ensures Row(Assemble(f))[7] == ("Episode_Sentiment", Real(f.sentiment))
    ensures Row(Assemble(f))[8] == ("Episode_Title_num", Real(f.title))
  {
  }

  /** Any submission the widgets allow yields a record inside the column
      ranges of `InRecordDomain`. */
  lemma AssembledInDomain(f: FormInput)
    requires InWidgetDomain(f)
    ensures InRecordDomain(Assemble(f))
  {
    DerivedBounds(f.length, f.ads, f.host, f.guest);
  }

  /** The widgets' default values, submitted unchanged: 30 minutes, the
      first genre and day of the drop-downs (Education, Monday), host 50,
      10 o'clock, guest 40, 2 ads, sentiment 0.2, title score 0.5. */
  lemma DefaultSubmission()
    ensures Assemble(FormInput(30, "Education", 50, "Monday", 10, 40, 2, 0.2, 0.5))
      == FeatureRecord(30, 0, 50, 0, 10, 40, 2, 0.2, 0.5, 2.0 / 30.0, 10, 2000, 2500, 45.0)
  {
    GenreRoundTrip(0);
    DayRoundTrip(0);
    assert EncodeGenre("Education") == 0 && EncodeDay("Monday") == 0;
    assert AdDensity(2, 30) == 2.0 / 30.0;
  }

  /** The same values with Comedy and Friday chosen instead. */
  lemma ComedyFridaySubmission()
    ensures Assemble(FormInput(30, "Comedy", 50, "Friday", 10, 40, 2, 0.2, 0.5))
      == FeatureRecord(30, 1, 50, 4, 10, 40, 2, 0.2, 0.5, 2.0 / 30.0, 10, 2000, 2500, 45.0)
  {
    GenreRoundTrip(1);
    DayRoundTrip(4);
    assert EncodeGenre("Comedy") == 1 && EncodeDay("Friday") == 4;
    assert AdDensity(2, 30) == 2.0 / 30.0;
  }
}
