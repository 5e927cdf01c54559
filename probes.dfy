/** The text-processing halves of two probes in `src/rpi-cpu2mqtt.py`:
    `check_wifi_signal` and `check_cpu_load`. The command output each one reads
    is a parameter; the arithmetic that follows the parse is kept exact. */
module Probes {
  import opened Wrappers
  import opened Text
  import opened Monitor

  // ---------------------------------------------------------------------------
  // check_wifi_signal
  // ---------------------------------------------------------------------------

  /** The link-quality numerator in the output of
      `iwconfig wlan0 | grep -i quality`:
      `out.strip().split(' ')[1].split('=')[1].split('/')[0]`, `None` where a
      piece is missing. */
  function WifiToken(out: string): (r: Option<string>)
    ensures r.Some? ==> !Contains(r.value, "/") && !Contains(r.value, "=")
    ensures !Contains(Strip(out), " ") ==> r.None?
    ensures Contains(Strip(out), " ") ==>
      Field(Strip(out), " ", 1).Some? && (r.None? <==> !Contains(Field(Strip(out), " ", 1).value, "="))
  {
    FieldOneExists(Strip(out), " ");
    var word := Field(Strip(out), " ", 1);
    if word.None? then None
    else
      FieldOneExists(word.value, "=");
      var ratio := Field(word.value, "=", 1);
      if ratio.None? then None
      else
        var numerator := Field(ratio.value, "/", 0);
        assert numerator.value == Split(ratio.value, "/")[0];
        NotContainedInPiece(ratio.value, numerator.value, "/", "=");
        numerator
  }

  /** A piece of a text is a slice of it, so a separator absent from the text
      is absent from the piece. */
  lemma {:induction false} NotContainedInPiece(s: string, f: string, sep: string, other: string)
    requires |sep| > 0 && f == Field(s, sep, 0).value && !Contains(s, other)
    ensures !Contains(f, other)
  {
    FirstFieldIsPrefix(s, sep);
    forall i: nat | i <= |f| && OccursAt(f, other, i)
      ensures OccursAt(s, other, i)
    {
      assert s[i..i + |other|] == f[i..i + |other|];
    }
  }

  /** `round(q / 70 * 100)`, computed exactly: the whole number nearest to
      `100 q / 70`. No quality gives a tie, so the rounding mode does not
      matter. */
  function WifiPercent(q: int): (pct: int)
    ensures -7 <= 14 * pct - 20 * q <= 7
    ensures 0 <= q <= 70 ==> 0 <= pct <= 100
    ensures q == 70 ==> pct == 100
  {
    (20 * q + 7) / 14
  }

  /** No other whole number is as close to `100 q / 70` as `WifiPercent(q)`. */
  lemma {:induction false} WifiPercentNearest(q: int, n: int)
    requires n != WifiPercent(q)
    ensures Abs(14 * n - 20 * q) > Abs(14 * WifiPercent(q) - 20 * q)
  {
  }

  function Abs(x: int): nat {
    if x < 0 then -x else x
  }

  /** `check_wifi_signal`: the percentage, or the text `'NA'` when the output
      does not have the expected shape or the token is not a whole number. */
  function WifiSignal(out: string): (v: PyValue)
    ensures v.PyInt? || v == PyStr("NA")
    ensures v.PyInt? <==> WifiToken(out).Some? && ParseInt(WifiToken(out).value).Some?
  {
    var token := WifiToken(out);
    if token.None? then PyStr("NA")
    else
      var q := ParseInt(token.value);
      if q.None? then PyStr("NA") else PyInt(WifiPercent(q.value))
  }

  /** The `Quality=q/max` word of an `iwconfig` quality line. */
  function QualityWord(q: nat, max: nat): string {
    "Quality" + "=" + (NatToString(q) + "/" + NatToString(max))
  }

  /** Wired into a run, the wifi probe never ends it: when collection fails, an
      enabled metric other than the wifi signal raised, and otherwise the
      collected wifi reading is the percentage or `'NA'`. */
  lemma {:induction false} WifiProbeNeverAborts(cfg: Config, probe: Metric -> Option<PyValue>, out: string)
    requires probe(Metric.WifiSignal) == Some(WifiSignal(out))
    ensures Collected(cfg, probe).None? ==>
      exists m :: m != Metric.WifiSignal && Enabled(cfg, m) && probe(m).None?
    ensures Collected(cfg, probe).Some? && Enabled(cfg, Metric.WifiSignal) ==>
      ReadingOf(Collected(cfg, probe).value, Metric.WifiSignal) == WifiSignal(out)
  {
    CollectedReadings(cfg, probe);
  }

  /** The quality line `iwconfig` prints, `Link Quality=q/max ...`, as the
      probe sees it. */
  function IwconfigLine(q: nat, max: nat, tail: string): string {
    "Link" + " " + (QualityWord(q, max) + " " + tail)
  }

  lemma {:induction false} NoSeparatorInDigits(d: string)
    requires AllDigits(d)
    ensures ' ' !in d && '=' !in d && '/' !in d
  {
    forall i | 0 <= i < |d| ensures d[i] != ' ' && d[i] != '=' && d[i] != '/' {
      assert IsDigit(d[i]);
    }
  }

  lemma {:induction false} QualityWordFields(q: nat, max: nat)
    ensures ' ' !in QualityWord(q, max)
    ensures Field(QualityWord(q, max), "=", 1) == Some(NatToString(q) + "/" + NatToString(max))
    ensures Field(NatToString(q) + "/" + NatToString(max), "/", 0) == Some(NatToString(q))
  {
    var Q, M := NatToString(q), NatToString(max);
    NoSeparatorInDigits(Q);
    NoSeparatorInDigits(M);
    var ratio := Q + "/" + M;
    var word := QualityWord(q, max);
    forall i | 0 <= i < |word| ensures word[i] != ' ' {
      if i >= 8 { assert word[i] == ratio[i - 8]; }
    }
    assert '=' !in ratio by {
      forall i | 0 <= i < |ratio| ensures ratio[i] != '=' {
        if i > |Q| { assert ratio[i] == M[i - |Q| - 1]; }
      }
    }
    FirstAfterWithoutLead("Quality", "=");
    SplitCons("Quality", "=", ratio);
    SplitWhole(ratio, "=");
    FirstAfterWithoutLead(Q, "/");
    SplitCons(Q, "/", M);
  }

  lemma {:induction false} IwconfigLineWord(q: nat, max: nat, tail: string)
    ensures Field(IwconfigLine(q, max, tail), " ", 1) == Some(QualityWord(q, max))
  {
    var word := QualityWord(q, max);
    QualityWordFields(q, max);
    FirstAfterWithoutLead("Link", " ");
    SplitCons("Link", " ", word + " " + tail);
    FirstAfterWithoutLead(word, " ");
    SplitCons(word, " ", tail);
  }

  /** Reading a quality line back: whatever surrounds it and whatever follows
      the ratio, the probe recovers the numerator and turns it into the
      nearest whole percentage of 70. */
  lemma {:induction false} WifiSignalOfIwconfig(lead: string, q: nat, max: nat, tail: string, trail: string)
    requires AllSpace(lead) && AllSpace(trail)
    requires tail != [] && !IsSpace(tail[|tail| - 1])
    ensures WifiToken(lead + IwconfigLine(q, max, tail) + trail) == Some(NatToString(q))
    ensures WifiSignal(lead + IwconfigLine(q, max, tail) + trail) == PyInt(WifiPercent(q))
  {
    var line := IwconfigLine(q, max, tail);
    assert line[0] == 'L';
    assert line[|line| - 1] == tail[|tail| - 1];
    StripPadded(lead, line, trail);
    IwconfigLineWord(q, max, tail);
    QualityWordFields(q, max);
    ParseIntToString(q);
  }

  // ---------------------------------------------------------------------------
  // check_cpu_load
  // ---------------------------------------------------------------------------

  /** The one-minute load average in the text of `uptime`'s output:
      `text.split("average:")[1].split(", ")[0]` with spaces removed and a
      decimal comma turned into a point; `None` is the `IndexError` raised
      when the output has no `average:`. */
  function LoadToken(text: string): (r: Option<string>)
    ensures r.None? <==> !Contains(text, "average:")
    ensures r.Some? ==> ' ' !in r.value && ',' !in r.value
  {
    FieldOneExists(text, "average:");
    var after := Field(text, "average:", 1);
    if after.None? then None
    else
      var first := Field(after.value, ", ", 0).value;
      Some(ReplaceChar(ReplaceChar(first, ' ', ""), ',', "."))
  }

  /** The characters a load figure is printed with, in either decimal style. */
  predicate LoadFigure(load: string) {
    forall i :: 0 <= i < |load| ==> IsDigit(load[i]) || load[i] == '.' || load[i] == ','
  }

  /** Past the first `average:`, the piece before the next `average:` still
      starts with the first figure and its `", "`. */
  lemma {:induction false} LoadPieceAfterAverage(before: string, load: string, rest: string)
    requires FirstAfter(before, "average:")
    requires LoadFigure(load)
    ensures Field(before + "average:" + ((" " + load) + ", " + rest), "average:", 1).Some?
    ensures var f := Field(before + "average:" + ((" " + load) + ", " + rest), "average:", 1).value;
      |(" " + load) + ", "| <= |f| && f == (" " + load) + ", " + f[|(" " + load) + ", "|..]
  {
    var lead := (" " + load) + ", ";
    SplitCons(before, "average:", lead + rest);
    assert 'a' !in lead by {
      forall i | 0 <= i < |lead| ensures lead[i] != 'a' {
        if 1 <= i < |load| + 1 { assert lead[i] == load[i - 1]; }
      }
    }
    FirstFieldStartsWith(lead, rest, "average:");
  }

  /** The first `", "`-piece of the text after `average:` is the blank and the
      figure, and removing the blank leaves the figure. */
  lemma {:induction false} LoadFigureField(load: string, w: string)
    requires LoadFigure(load)
    ensures Field((" " + load) + ", " + w, ", ", 0) == Some(" " + load)
    ensures ReplaceChar(" " + load, ' ', "") == load
  {
    forall i | 1 <= i < |" " + load| ensures (" " + load)[i] != ' ' {
      assert (" " + load)[i] == load[i - 1];
    }
    FirstAfterWithoutSecond(" " + load, ", ");
    SplitCons(" " + load, ", ", w);
    assert (" " + load)[1..] == load;
    assert ' ' !in load by {
      forall i | 0 <= i < |load| ensures load[i] != ' ' { }
    }
  }

  /** Reading `uptime`'s output back: after the first `average:`, a space and
      the first load figure followed by `", "`, the probe recovers that figure
      with any decimal comma turned into a point, whatever precedes or
      follows. */
  lemma {:induction false} LoadTokenOfUptime(before: string, load: string, rest: string)
    requires FirstAfter(before, "average:")
    requires LoadFigure(load)
    ensures LoadToken(before + "average:" + ((" " + load) + ", " + rest)) == Some(ReplaceChar(load, ',', "."))
  {
    var lead := (" " + load) + ", ";
    LoadPieceAfterAverage(before, load, rest);
    var f := Field(before + "average:" + (lead + rest), "average:", 1).value;
    LoadFigureField(load, f[|lead|..]);
  }
}
