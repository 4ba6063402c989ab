/**
  The CSV lines RecordingService writes: the fixed header, one line per motion
  reading and one line per location fix. Every line has the seven columns
  Time,Type,X,Y,Z,Latitude,Longitude and ends in a newline; columns a reading
  does not have are left empty.

  Java renders the float axes and the double coordinates with Float.toString and
  Double.toString; that rendering is kept opaque here (type Rendering), and all
  the model relies on is that it never produces a comma or a newline.
 */
module Csv {

  const ColumnCount: nat := 7

  /** The column names, in the order of the header. */
  const ColumnNames: seq<string> := ["Time", "Type", "X", "Y", "Z", "Latitude", "Longitude"]

  /** The header written as the first line of every file: Time,Type,X,Y,Z,Latitude,Longitude. */
  const Header: string := "Time" + "," + "Type" + "," + "X" + "," + "Y" + "," + "Z" + "," + "Latitude" + "," + "Longitude" + "\n"

  /** Android's Sensor.TYPE_ACCELEROMETER. */
  const TYPE_ACCELEROMETER: int := 1

  /** A piece of text that can stand in one column of one line. */
  predicate IsFieldText(s: string) {
    ',' !in s && '\n' !in s
  }

  /** The text Java produces for a float or double value (opaque). */
  type Rendering = s: string | IsFieldText(s) witness "0.0"

  /** What `"" + 0f` renders as: the value of an axis the event does not carry. */
  const Zero: Rendering := "0.0"

  function Digit(d: nat): char
    requires d < 10
  {
    ('0' as int + d) as char
  }

  predicate IsDigits(s: string) {
    forall i :: 0 <= i < |s| ==> '0' <= s[i] <= '9'
  }

  /** The number a string of decimal digits denotes, as a reader parses the Time column. */
  function Value(s: string): nat
    requires IsDigits(s)
  {
    if s == [] then 0 else Value(s[..|s| - 1]) * 10 + (s[|s| - 1] as int - '0' as int)
  }

  /** Decimal rendering of a non-negative long, as `long + ","` produces it. */
  function Decimal(n: nat): (r: string)
    ensures |r| > 0
    ensures IsDigits(r)
    ensures r[0] == '0' ==> n == 0
  {
    if n < 10 then [Digit(n)] else Decimal(n / 10) + [Digit(n % 10)]
  }

  /** Java's conditional at RecordingService.java:264. */
  function SensorTypeName(sensorType: int): string {
    if sensorType == TYPE_ACCELEROMETER then "Accelerometer" else "Gyroscope"
  }

  /** `values.length > i ? values[i] : 0f`, rendered. */
  function Axis(values: seq<Rendering>, i: nat): Rendering {
    if |values| > i then values[i] else Zero
  }

  /** The line onSensorChanged builds, concatenated as the source does. */
  function SensorLine(now: nat, sensorType: int, values: seq<Rendering>): string {
    Decimal(now) + "," + SensorTypeName(sensorType) + "," + Axis(values, 0) + "," + Axis(values, 1)
      + "," + Axis(values, 2) + ",,\n"
  }

  /** The line writeLocation builds, concatenated as the source does. */
  function LocationLine(now: nat, latitude: Rendering, longitude: Rendering): string {
    Decimal(now) + ",Location,,," + "," + latitude + "," + longitude + "\n"
  }

  // ---------------------------------------------------------------------------
  // Reading a line back: the columns between the commas.

  /** The comma-separated columns of `s` (a reader's view of one line). */
  function Split(s: string): (r: seq<string>)
    ensures |r| >= 1
    decreases |s|
  {
    if s == [] then [""]
    else if s[0] == ',' then [""] + Split(s[1..])
    else
      var rest := Split(s[1..]);
      [[s[0]] + rest[0]] + rest[1..]
  }

  /** The columns written with commas between them. */
  function Join(fields: seq<string>): string
    requires |fields| >= 1
  {
    if |fields| == 1 then fields[0] else fields[0] + "," + Join(fields[1..])
  }

  /** A line is one record: newline-terminated, no other newline, seven columns. */
  predicate IsRecord(line: string) {
    && |line| > 0
    && line[|line| - 1] == '\n'
    && '\n' !in line[..|line| - 1]
    && |Split(line[..|line| - 1])| == ColumnCount
  }

  /** The columns of a newline-terminated line. */
  function Columns(line: string): seq<string>
    requires |line| > 0
  {
    Split(line[..|line| - 1])
  }

  lemma {:induction false} SplitAfterField(a: string, rest: string)
    requires ',' !in a
    ensures Split(a + rest) == [a + Split(rest)[0]] + Split(rest)[1..]
    decreases |a|
  {
    if a == [] {
      assert a + rest == rest;
      assert a + Split(rest)[0] == Split(rest)[0];
      assert Split(rest) == [Split(rest)[0]] + Split(rest)[1..];
    } else {
      assert (a + rest)[0] == a[0];
      assert (a + rest)[1..] == a[1..] + rest;
      SplitAfterField(a[1..], rest);
      assert [a[0]] + (a[1..] + Split(rest)[0]) == a + Split(rest)[0];
    }
  }

  /** Splitting a joined line gives back exactly the columns that were joined. */
  lemma {:induction false} SplitJoin(fields: seq<string>)
    requires |fields| >= 1
    requires forall i :: 0 <= i < |fields| ==> ',' !in fields[i]
    ensures Split(Join(fields)) == fields
  {
    if |fields| == 1 {
      SplitAfterField(fields[0], "");
      assert fields[0] + "" == fields[0];
    } else {
      var tail := Join(fields[1..]);
      SplitJoin(fields[1..]);
      assert Split("," + tail) == [""] + Split(tail) by {
        assert ("," + tail)[0] == ',' && ("," + tail)[1..] == tail;
      }
      assert fields[0] + "," + tail == fields[0] + ("," + tail);
      SplitAfterField(fields[0], "," + tail);
      assert fields[0] + "" == fields[0];
      assert fields == [fields[0]] + fields[1..];
    }
  }

  lemma Join7(a: string, b: string, c: string, d: string, e: string, f: string, g: string)
    ensures Join([a, b, c, d, e, f, g]) == a + "," + b + "," + c + "," + d + "," + e + "," + f + "," + g
  {
    var fs := [a, b, c, d, e, f, g];
    assert fs[6..] == [g];
    assert fs[5..] == [f, g] && fs[5..][1..] == fs[6..];
    assert fs[4..] == [e, f, g] && fs[4..][1..] == fs[5..];
    assert fs[3..] == [d, e, f, g] && fs[3..][1..] == fs[4..];
    assert fs[2..] == [c, d, e, f, g] && fs[2..][1..] == fs[3..];
    assert fs[1..] == [b, c, d, e, f, g] && fs[1..][1..] == fs[2..];
    assert Join(fs[5..]) == f + "," + g;
    assert Join(fs[4..]) == e + "," + (f + "," + g);
    assert Join(fs[3..]) == d + "," + (e + "," + (f + "," + g));
    assert Join(fs[2..]) == c + "," + (d + "," + (e + "," + (f + "," + g)));
    assert Join(fs[1..]) == b + "," + (c + "," + (d + "," + (e + "," + (f + "," + g))));
  }

  lemma {:induction false} JoinHasNoNewline(fields: seq<string>)
    requires |fields| >= 1
    requires forall i :: 0 <= i < |fields| ==> '\n' !in fields[i]
    ensures '\n' !in Join(fields)
  {
    if |fields| > 1 {
      JoinHasNoNewline(fields[1..]);
      var j := Join(fields);
      assert j == fields[0] + "," + Join(fields[1..]);
      forall i | 0 <= i < |j| ensures j[i] != '\n' {
        if i < |fields[0]| {
          assert j[i] == fields[0][i];
        } else if i > |fields[0]| {
          assert j[i] == Join(fields[1..])[i - |fields[0]| - 1];
        }
      }
    }
  }

  /** A line built from seven well-formed columns is one record with exactly those columns. */
  lemma RecordOf(fields: seq<string>)
    requires |fields| == ColumnCount
    requires forall i :: 0 <= i < |fields| ==> IsFieldText(fields[i])
    ensures var line := Join(fields) + "\n";
      IsRecord(line) && Columns(line) == fields
  {
    var line := Join(fields) + "\n";
    assert line[..|line| - 1] == Join(fields);
    SplitJoin(fields);
    JoinHasNoNewline(fields);
  }

  /** Reading the Time column back gives the clock value that was written. */
  lemma {:induction false} DecimalValue(n: nat)
    ensures Value(Decimal(n)) == n
  {
    var r := Decimal(n);
    if n >= 10 {
      DecimalValue(n / 10);
      assert r[..|r| - 1] == Decimal(n / 10);
    }
  }

  lemma DecimalIsFieldText(n: nat)
    ensures IsFieldText(Decimal(n))
  {
    var d := Decimal(n);
    assert forall i :: 0 <= i < |d| ==> d[i] != ',' && d[i] != '\n';
  }

  lemma HeaderIsJoin()
    ensures Header == Join(ColumnNames) + "\n"
  {
    Join7("Time", "Type", "X", "Y", "Z", "Latitude", "Longitude");
  }

  /** The header is itself a record, and its columns are the seven column names. */
  lemma HeaderColumns()
    ensures IsRecord(Header)
    ensures Columns(Header) == ColumnNames
  {
    assert forall i :: 0 <= i < |ColumnNames| ==> IsFieldText(ColumnNames[i]);
    RecordOf(ColumnNames);
    HeaderIsJoin();
  }

  /**
    A sensor line is one record whose columns are the time, the type, the three
    axes (an axis the event lacks is 0.0) and two empty coordinates; the type
    column says Accelerometer exactly for the accelerometer and Gyroscope
    otherwise.
   */
  lemma SensorLineColumns(now: nat, sensorType: int, values: seq<Rendering>)
    ensures IsRecord(SensorLine(now, sensorType, values))
    ensures var c := Columns(SensorLine(now, sensorType, values));
      && c[0] == Decimal(now)
      && (c[1] == "Accelerometer" <==> sensorType == TYPE_ACCELEROMETER)
      && (c[1] != "Accelerometer" ==> c[1] == "Gyroscope")
      && (forall i :: 0 <= i < 3 ==> c[2 + i] == if i < |values| then values[i] else "0.0")
      && c[5] == "" && c[6] == ""
  {
    var fields := [Decimal(now), SensorTypeName(sensorType), Axis(values, 0), Axis(values, 1),
                   Axis(values, 2), "", ""];
    Join7(Decimal(now), SensorTypeName(sensorType), Axis(values, 0), Axis(values, 1), Axis(values, 2), "", "");
    assert SensorLine(now, sensorType, values) == Join(fields) + "\n";
    DecimalIsFieldText(now);
    RecordOf(fields);
  }

  /** A location line is one record with the time, "Location", three empty axes and the coordinates. */
  lemma LocationLineColumns(now: nat, latitude: Rendering, longitude: Rendering)
    ensures IsRecord(LocationLine(now, latitude, longitude))
    ensures Columns(LocationLine(now, latitude, longitude))
         == [Decimal(now), "Location", "", "", "", latitude, longitude]
  {
    var fields := [Decimal(now), "Location", "", "", "", latitude, longitude];
    Join7(Decimal(now), "Location", "", "", "", latitude, longitude);
    assert LocationLine(now, latitude, longitude) == Join(fields) + "\n";
    DecimalIsFieldText(now);
    RecordOf(fields);
  }

  lemma Decimal1000()
    ensures Decimal(1000) == "1000"
  {
    assert Decimal(1) == "1";
    assert Decimal(10) == "10";
    assert Decimal(100) == "100";
  }

  lemma Decimal1500()
    ensures Decimal(1500) == "1500"
  {
    assert Decimal(1) == "1";
    assert Decimal(15) == "15";
    assert Decimal(150) == "150";
  }

  /** The motion line of the reference scenario, character for character. */
  lemma ScenarioSensorLine()
    ensures SensorLine(1000, TYPE_ACCELEROMETER, ["0.1", "0.2", "9.8"]) == "1000,Accelerometer,0.1,0.2,9.8,,\n"
  {
    Decimal1000();
  }

  /** The location line of the reference scenario, character for character. */
  lemma ScenarioLocationLine()
    ensures LocationLine(1500, "37.0", "-122.0") == "1500,Location,,,,37.0,-122.0\n"
  {
    Decimal1500();
  }
}
