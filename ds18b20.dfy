/** The DS18B20 1-Wire helpers of `src/ext_sensor_lib/ds18b20.py`: finding the
    sensors in the sysfs device directory and reading one sensor's
    temperature out of its `w1_slave` file. The directory listing and the
    file's content are parameters. */
module Ds18b20 {
  import opened Wrappers
  import opened Text

  const DevicesDir := "/sys/bus/w1/devices"
  const FamilyPrefix := "28-"

  // ---------------------------------------------------------------------------
  // get_available_sensors
  // ---------------------------------------------------------------------------

  /** The sensor ids in a listing of the devices directory: each entry that
      starts with `28-`, without those three characters, in listing order. */
  function SensorIds(listing: seq<string>): (ids: seq<string>)
    ensures |ids| <= |listing|
  {
    if |listing| == 0 then []
    else
      var entry := listing[|listing| - 1];
      SensorIds(listing[..|listing| - 1]) + (if StartsWith(entry, FamilyPrefix) then [entry[3..]] else [])
  }

  /** `get_available_sensors`, over the listing `os.listdir` returned. */
  method GetAvailableSensors(listing: seq<string>) returns (sensors: seq<string>)
    ensures sensors == SensorIds(listing)
  {
    sensors := [];
    for i := 0 to |listing|
      invariant sensors == SensorIds(listing[..i])
    {
      assert listing[..i + 1][..i] == listing[..i];
      var sensor := listing[i];
      if StartsWith(sensor, FamilyPrefix) {
        sensors := sensors + [sensor[3..]];
      }
    }
    assert listing[..|listing|] == listing;
  }

  /** An id is found exactly when `28-` followed by it is an entry of the
      listing. */
  lemma {:induction false} SensorIdsMembership(listing: seq<string>, id: string)
    ensures id in SensorIds(listing) <==> FamilyPrefix + id in listing
  {
    if |listing| > 0 {
      var init, entry := listing[..|listing| - 1], listing[|listing| - 1];
      SensorIdsMembership(init, id);
      assert listing == init + [entry];
      if StartsWith(entry, FamilyPrefix) {
        assert entry == FamilyPrefix + entry[3..];
        assert (FamilyPrefix + id == entry) <==> (id == entry[3..]);
      } else {
        assert FamilyPrefix + id != entry by {
          assert (FamilyPrefix + id)[..3] == FamilyPrefix;
        }
      }
    }
  }

  /** Listing order is kept: the ids of two listings one after the other are
      the ids of the first followed by those of the second. */
  lemma {:induction false} SensorIdsAppend(a: seq<string>, b: seq<string>)
    ensures SensorIds(a + b) == SensorIds(a) + SensorIds(b)
    decreases |b|
  {
    if |b| == 0 {
      assert a + b == a;
    } else {
      var init := b[..|b| - 1];
      assert (a + b)[..|a + b| - 1] == a + init;
      SensorIdsAppend(a, init);
    }
  }

  /** An entry without the `28-` prefix contributes nothing. */
  lemma {:induction false} SensorIdsSkip(entry: string)
    requires !StartsWith(entry, FamilyPrefix)
    ensures SensorIds([entry]) == []
  {
    assert [entry][..0] == [];
  }

  // ---------------------------------------------------------------------------
  // sensor_DS18B20
  // ---------------------------------------------------------------------------

  /** The file the driver opens for a sensor id. */
  function SensorPath(id: string): (path: string)
    ensures path == DevicesDir + "/" + FamilyPrefix + id + "/w1_slave"
  {
    "/sys/bus/w1/devices/28-" + id + "/w1_slave"
  }

  /** Every id found in a listing names a file inside that listing's entry. */
  lemma {:induction false} SensorPathOfListedId(listing: seq<string>, id: string)
    requires id in SensorIds(listing)
    ensures exists entry :: entry in listing && SensorPath(id) == DevicesDir + "/" + entry + "/w1_slave"
  {
    SensorIdsMembership(listing, id);
    var entry := FamilyPrefix + id;
    assert SensorPath(id) == DevicesDir + "/" + entry + "/w1_slave";
  }

  /** The temperature token of a `w1_slave` file:
      `content.split("\n")[1].split(" ")[9][2:]`, `None` where a piece is
      missing (Python's `IndexError`). */
  function TemperatureToken(content: string): (r: Option<string>)
    ensures r.Some? ==> '\n' !in r.value && ' ' !in r.value
    ensures r.None? <==> |Split(content, "\n")| < 2 || |Split(Split(content, "\n")[1], " ")| < 10
  {
    var line := Field(content, "\n", 1);
    if line.None? then None
    else
      var word := Field(line.value, " ", 9);
      if word.None? then None
      else
        NoCharFromContains(word.value, ' ');
        NoCharFromContains(line.value, '\n');
        WordOfLine(line.value, word.value);
        Some(DropTwo(word.value))
  }

  /** Python's `w[2:]`, which is empty for a shorter `w`. */
  function DropTwo(w: string): (r: string)
    ensures forall c :: c in r ==> c in w
  {
    if |w| < 2 then "" else w[2..]
  }

  /** A piece of a line holds no character the line does not hold. */
  lemma {:induction false} WordOfLine(line: string, word: string)
    requires Field(line, " ", 9) == Some(word)
    ensures forall c :: c in word ==> c in line
  {
    var parts := Split(line, " ");
    JoinSplit(line, " ");
    PieceOfJoin(parts, " ", 9);
  }

  lemma {:induction false} PieceOfJoin(fs: seq<string>, sep: string, k: nat)
    requires k < |fs|
    ensures forall c :: c in fs[k] ==> c in Join(fs, sep)
    decreases k
  {
    if k > 0 {
      PieceOfJoin(fs[1..], sep, k - 1);
    }
  }

  /** What one call returns, in thousandths of a degree Celsius (the driver
      divides by 1000 and rounds to one decimal), or `Raises` for the
      exceptions the driver does not catch: a malformed file makes the
      indexing or `float()` raise. */
  datatype Reading = MilliCelsius(milli: int) | Raises

  /** The value returned when the file cannot be opened or read: -300 degrees. */
  const ErrorSentinel := MilliCelsius(-300000)

  /** `sensor_DS18B20` for the content of the sensor's file, `None` being the
      `IOError` raised when the file cannot be opened or read. */
  function SensorDs18b20(content: Option<string>): (r: Reading)
    ensures content.None? ==> r == ErrorSentinel
    ensures content.Some? && r.MilliCelsius? ==>
      TemperatureToken(content.value).Some? && ParseInt(TemperatureToken(content.value).value) == Some(r.milli)
    ensures content.Some? && r.Raises? ==>
      TemperatureToken(content.value).None? || ParseInt(TemperatureToken(content.value).value).None?
  {
    if content.None? then ErrorSentinel
    else
      var token := TemperatureToken(content.value);
      if token.None? then Raises
      else
        var milli := ParseInt(token.value);
        if milli.None? then Raises else MilliCelsius(milli.value)
  }

  /** The second line of a `w1_slave` file: nine hexadecimal byte pairs and
      the temperature in thousandths of a degree. */
  function DataLine(bytes: seq<string>, milli: int): string {
    Join(bytes + ["t=" + IntToString(milli)], " ")
  }

  /** A field that holds neither blanks nor newlines. */
  predicate Word(w: string) {
    ' ' !in w && '\n' !in w
  }

  lemma {:induction false} IntToStringWord(i: int)
    ensures Word(IntToString(i)) && Word("t=" + IntToString(i))
  {
    var s := IntToString(i);
    forall k | 0 <= k < |s| ensures s[k] != ' ' && s[k] != '\n' {
      if i < 0 {
        if k > 0 { assert s[k] == NatToString(-i)[k - 1]; assert IsDigit(s[k]); }
      } else {
        assert IsDigit(s[k]);
      }
    }
  }

  /** The second line splits on blanks into its ten fields. */
  lemma {:induction false} DataLineFields(bytes: seq<string>, milli: int)
    requires |bytes| == 9 && forall k :: 0 <= k < 9 ==> Word(bytes[k])
    ensures '\n' !in DataLine(bytes, milli)
    ensures Field(DataLine(bytes, milli), " ", 9) == Some("t=" + IntToString(milli))
  {
    var fields := bytes + ["t=" + IntToString(milli)];
    IntToStringWord(milli);
    assert forall k :: 0 <= k < |fields| ==> Word(fields[k]);
    NotInJoin(fields, " ", '\n');
    SplitJoin(fields, " ");
  }

  /** The line after the first newline is the second line. */
  lemma {:induction false} SecondLine(crcLine: string, line: string, rest: string)
    requires '\n' !in crcLine && '\n' !in line
    ensures Field(crcLine + "\n" + (line + "\n" + rest), "\n", 1) == Some(line)
  {
    FirstAfterWithoutLead(crcLine, "\n");
    SplitCons(crcLine, "\n", line + "\n" + rest);
    FirstAfterWithoutLead(line, "\n");
    SplitCons(line, "\n", rest);
  }

  /** Reading a well-formed file back: whatever the first (CRC) line says,
      the driver returns the temperature written on the second line. */
  lemma {:induction false} SensorOfW1Slave(crcLine: string, bytes: seq<string>, milli: int, rest: string)
    requires '\n' !in crcLine
    requires |bytes| == 9 && forall k :: 0 <= k < 9 ==> Word(bytes[k])
    ensures SensorDs18b20(Some(crcLine + "\n" + (DataLine(bytes, milli) + "\n" + rest))) == MilliCelsius(milli)
  {
    var line := DataLine(bytes, milli);
    DataLineFields(bytes, milli);
    SecondLine(crcLine, line, rest);
    assert DropTwo("t=" + IntToString(milli)) == IntToString(milli);
    ParseIntToString(milli);
  }
}
