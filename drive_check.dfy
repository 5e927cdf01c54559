/** The drive-temperature survey of `src/drive_check.py`. Each hwmon device
    directory is given by what its files hold: the `name` file's content and
    the contents of its `temp*_input` files in the order `glob` lists them,
    `None` where opening or reading fails. Temperatures stay in the
    thousandths of a degree the files hold; the division by 1000.0 is not
    modelled. */
module DriveCheck {
  import opened Wrappers
  import opened Text

  datatype Hwmon = Hwmon(nameFile: Option<string>, tempFiles: seq<Option<string>>)

  /** `get_hwmon_device_name`: the stripped content of `name`, or `None` when it
      cannot be read. */
  function DeviceName(d: Hwmon): (r: Option<string>)
    ensures r.None? <==> d.nameFile.None?
    ensures r.Some? ==> r.value == Strip(d.nameFile.value)
  {
    if d.nameFile.None? then None else Some(Strip(d.nameFile.value))
  }

  /** What `get_hwmon_temp` returns: the first temperature file decides; an
      unreadable file or a content `int()` rejects gives `None`, and so does a
      device without temperature files. */
  function HwmonTemp(d: Hwmon): (r: Option<int>)
    ensures |d.tempFiles| == 0 ==> r.None?
    ensures r.Some? ==> d.tempFiles[0].Some? && ParseInt(Strip(d.tempFiles[0].value)) == r
    ensures |d.tempFiles| > 0 && d.tempFiles[0].Some? ==> r == ParseInt(Strip(d.tempFiles[0].value))
  {
    if |d.tempFiles| == 0 then None
    else if d.tempFiles[0].None? then None
    else ParseInt(Strip(d.tempFiles[0].value))
  }

  /** Reading a device back: a `name` file holding a drive name on its own line
      and a first temperature file holding `str(t)` on its own line make the
      device enter the dictionary as `(name, t)`, whatever the later files
      hold. */
  lemma {:induction false} EntryOfFiles(name: string, t: int, rest: seq<Option<string>>)
    requires IsDrive(name) && !IsSpace(name[0]) && !IsSpace(name[|name| - 1])
    ensures Entry(Hwmon(Some(name + "\n"), [Some(IntToString(t) + "\n")] + rest)) == Some((name, t))
  {
    var d := Hwmon(Some(name + "\n"), [Some(IntToString(t) + "\n")] + rest);
    assert AllSpace("\n") && AllSpace([]);
    StripPadded([], name, "\n");
    assert [] + name + "\n" == name + "\n";
    StripIntLine(t);
    ParseIntToString(t);
    assert d.tempFiles[0] == Some(IntToString(t) + "\n");
  }

  /** `get_hwmon_temp`: a loop over the temperature files that returns from its
      first iteration. */
  method GetHwmonTemp(d: Hwmon) returns (temp: Option<int>)
    ensures temp == HwmonTemp(d)
  {
    for i := 0 to |d.tempFiles|
      invariant i == 0
    {
      var content := d.tempFiles[i];
      if content.None? {
        return None;
      }
      temp := ParseInt(Strip(content.value));
      return temp;
    }
    return None;
  }

  /** The name test of `check_all_drive_temps`: a non-empty name whose
      lower-case form contains `nvme` or `sd`. */
  predicate IsDrive(name: string) {
    name != "" && (Contains(Lower(name), "nvme") || Contains(Lower(name), "sd"))
  }

  /** The entry device `d` writes into the dictionary, if any: its name when
      that is a drive name and it has a temperature. */
  function Entry(d: Hwmon): (e: Option<(string, int)>)
    ensures e.Some? <==> DeviceName(d).Some? && IsDrive(DeviceName(d).value) && HwmonTemp(d).Some?
    ensures e.Some? ==> e.value == (DeviceName(d).value, HwmonTemp(d).value)
  {
    var name := DeviceName(d);
    if name.Some? && IsDrive(name.value) && HwmonTemp(d).Some? then Some((name.value, HwmonTemp(d).value))
    else None
  }

  /** Device `d` enters the result under key `k`. */
  predicate Contributes(d: Hwmon, k: string) {
    Entry(d).Some? && Entry(d).value.0 == k
  }

  /** A dictionary built by writing the given entries in order, skipping the
      absent ones; a later write to a key replaces an earlier one. */
  function Assemble(es: seq<Option<(string, int)>>): map<string, int> {
    if |es| == 0 then map[]
    else
      var prev := Assemble(es[..|es| - 1]);
      var e := es[|es| - 1];
      if e.Some? then prev[e.value.0 := e.value.1] else prev
  }

  function Entries(ds: seq<Hwmon>): (es: seq<Option<(string, int)>>)
    ensures |es| == |ds| && forall i :: 0 <= i < |ds| ==> es[i] == Entry(ds[i])
  {
    seq(|ds|, i requires 0 <= i < |ds| => Entry(ds[i]))
  }

  /** The dictionary `check_all_drive_temps` builds, device by device. */
  function DriveTemps(ds: seq<Hwmon>): map<string, int> {
    Assemble(Entries(ds))
  }

  lemma {:induction false} DriveTempsStep(ds: seq<Hwmon>, i: nat)
    requires i < |ds|
    ensures DriveTemps(ds[..i + 1]) ==
      var e := Entry(ds[i]); if e.Some? then DriveTemps(ds[..i])[e.value.0 := e.value.1] else DriveTemps(ds[..i])
  {
    var es := Entries(ds[..i + 1]);
    assert es[..i] == Entries(ds[..i]);
  }

  /** `check_all_drive_temps`, over the devices `glob` found, in that order. */
  method CheckAllDriveTemps(devices: seq<Hwmon>) returns (driveTemps: map<string, int>)
    ensures driveTemps == DriveTemps(devices)
  {
    driveTemps := map[];
    for i := 0 to |devices|
      invariant driveTemps == DriveTemps(devices[..i])
    {
      DriveTempsStep(devices, i);
      var hwmon := devices[i];
      var deviceName := DeviceName(hwmon);
      if deviceName.Some? && IsDrive(deviceName.value) {
        var temp := GetHwmonTemp(hwmon);
        if temp.Some? {
          driveTemps := driveTemps[deviceName.value := temp.value];
        }
      }
    }
    assert devices[..|devices|] == devices;
  }

  lemma {:induction false} AssembleKeys(es: seq<Option<(string, int)>>, k: string)
    ensures k in Assemble(es) <==> exists i :: 0 <= i < |es| && es[i].Some? && es[i].value.0 == k
  {
    if |es| > 0 {
      var init := es[..|es| - 1];
      AssembleKeys(init, k);
      if exists i :: 0 <= i < |es| && es[i].Some? && es[i].value.0 == k {
        var i :| 0 <= i < |es| && es[i].Some? && es[i].value.0 == k;
        if i < |init| {
          assert init[i] == es[i];
        }
      }
    }
  }

  lemma {:induction false} AssembleLastWins(es: seq<Option<(string, int)>>, i: nat, k: string)
    requires i < |es| && es[i].Some? && es[i].value.0 == k
    requires forall j :: i < j < |es| ==> !(es[j].Some? && es[j].value.0 == k)
    ensures k in Assemble(es) && Assemble(es)[k] == es[i].value.1
  {
    if i < |es| - 1 {
      var init := es[..|es| - 1];
      assert init[i] == es[i];
      AssembleLastWins(init, i, k);
    }
  }

  /** A key is present exactly when some device contributes it: its name could
      be read, is a drive name once stripped, and it has a temperature.
      Devices whose name or temperature is missing add nothing. */
  lemma {:induction false} DriveTempsKeys(ds: seq<Hwmon>, k: string)
    ensures k in DriveTemps(ds) <==> exists i :: 0 <= i < |ds| && Contributes(ds[i], k)
  {
    AssembleKeys(Entries(ds), k);
  }

  /** Every key is a stripped device name that contains `nvme` or `sd` once
      lower-cased; the key itself keeps its case. */
  lemma {:induction false} DriveTempsKeysAreDrives(ds: seq<Hwmon>, k: string)
    requires k in DriveTemps(ds)
    ensures IsDrive(k)
    ensures exists i :: 0 <= i < |ds| && ds[i].nameFile.Some? && k == Strip(ds[i].nameFile.value)
  {
    DriveTempsKeys(ds, k);
    var i :| 0 <= i < |ds| && Contributes(ds[i], k);
    assert ds[i].nameFile.Some? && k == Strip(ds[i].nameFile.value);
  }

  /** When several devices share a name, the last of them decides the
      temperature. */
  lemma {:induction false} DriveTempsLastWins(ds: seq<Hwmon>, i: nat, k: string)
    requires i < |ds| && Contributes(ds[i], k)
    requires forall j :: i < j < |ds| ==> !Contributes(ds[j], k)
    ensures k in DriveTemps(ds) && DriveTemps(ds)[k] == HwmonTemp(ds[i]).value
  {
    AssembleLastWins(Entries(ds), i, k);
  }
}
