/** The older single-file monitor `cpu_mqtt.py`: two parsers for command
    output and a fixed run of three MQTT messages under the hard-coded prefix
    `masoko`. Command output is a parameter; the disk usage, which the script
    computes in floating point from `os.statvfs`, is an input. */
module LegacyMonitor {
  import opened Wrappers
  import opened Text
  import Mqtt

  const TopicPrefix := "masoko"

  // ---------------------------------------------------------------------------
  // check_cpu_load and check_cpu_temp
  // ---------------------------------------------------------------------------

  /** `p.split("average:")[1].split(",")[0].replace(' ', '')` for the output
      `p` of `uptime`; `None` is the `IndexError` raised when there is no
      `average:`. */
  function LoadToken(p: string): (r: Option<string>)
    ensures r.None? <==> !Contains(p, "average:")
    ensures r.Some? ==> ' ' !in r.value && ',' !in r.value
  {
    FieldOneExists(p, "average:");
    var after := Field(p, "average:", 1);
    if after.None? then None
    else
      var first := Field(after.value, ",", 0).value;
      assert ',' !in first by {
        forall i | 0 <= i < |first| ensures first[i] != ',' {
          assert first[i..i + 1] == [first[i]];
          assert !OccursAt(first, ",", i);
        }
      }
      Some(ReplaceChar(first, ' ', ""))
  }

  /** `p.replace('\n', ' ').replace('\r', '')`, the clean-up before parsing
      the output of `vcgencmd measure_temp`. */
  function OneLine(p: string): (r: string)
    ensures '\n' !in r && '\r' !in r
  {
    ReplaceChar(ReplaceChar(p, '\n', " "), '\r', "")
  }

  /** `OneLine(p).split("=")[1].split("'")[0]`: the text after the first `=` up
      to the next `'`, `None` when there is no `=`. */
  function TempToken(p: string): (r: Option<string>)
    ensures r.None? <==> !Contains(OneLine(p), "=")
    ensures r.Some? ==> '\n' !in r.value && '\r' !in r.value && '\'' !in r.value
  {
    FieldOneExists(OneLine(p), "=");
    var after := Field(OneLine(p), "=", 1);
    if after.None? then None
    else
      var first := Field(after.value, "'", 0).value;
      TempTokenChars(p, after.value, first);
      Some(first)
  }

  /** The temperature piece holds no `'`, and no newline or carriage return
      because the text it was cut from has none. */
  lemma {:induction false} TempTokenChars(p: string, after: string, first: string)
    requires Field(OneLine(p), "=", 1) == Some(after)
    requires Field(after, "'", 0) == Some(first)
    ensures '\n' !in first && '\r' !in first && '\'' !in first
  {
    FirstFieldIsPrefix(after, "'");
    NoCharFromContains(first, '\'');
    PieceChars(OneLine(p), after);
    forall i | 0 <= i < |first| ensures first[i] in after {
      assert first[i] == after[i];
    }
  }

  /** A piece of a text holds only characters of that text. */
  lemma {:induction false} PieceChars(s: string, piece: string)
    requires Field(s, "=", 1) == Some(piece)
    ensures forall c :: c in piece ==> c in s
  {
    var parts := Split(s, "=");
    JoinSplit(s, "=");
    assert parts[1] == piece;
    assert parts == [parts[0]] + parts[1..];
    assert Join(parts, "=") == parts[0] + "=" + Join(parts[1..], "=");
    assert Join(parts[1..], "=") == piece || Join(parts[1..], "=") == piece + "=" + Join(parts[2..], "=");
  }

  /** Past the first `average:`, the piece before the next `average:` still
      starts with the first figure and its comma. */
  lemma {:induction false} PieceAfterAverage(before: string, load: string, rest: string)
    requires FirstAfter(before, "average:")
    requires 'a' !in load
    ensures Field(before + "average:" + ((" " + load) + "," + rest), "average:", 1).Some?
    ensures var f := Field(before + "average:" + ((" " + load) + "," + rest), "average:", 1).value;
      |(" " + load) + ","| <= |f| && f == (" " + load) + "," + f[|(" " + load) + ","|..]
  {
    var lead := (" " + load) + ",";
    SplitCons(before, "average:", lead + rest);
    assert 'a' !in lead by {
      forall i | 0 <= i < |lead| ensures lead[i] != 'a' {
        if 1 <= i < |load| + 1 { assert lead[i] == load[i - 1]; }
      }
    }
    FirstFieldStartsWith(lead, rest, "average:");
  }

  lemma {:induction false} FigureBeforeComma(load: string, w: string)
    requires ',' !in load && ' ' !in load
    ensures Field((" " + load) + "," + w, ",", 0) == Some(" " + load)
    ensures ReplaceChar(" " + load, ' ', "") == load
  {
    assert ',' !in " " + load;
    FirstAfterWithoutLead(" " + load, ",");
    SplitCons(" " + load, ",", w);
    assert (" " + load)[1..] == load;
  }

  /** Reading `uptime`'s output back: the first figure after `average:` comes
      out, provided it has no comma or blank of its own. */
  lemma {:induction false} LoadTokenOfUptime(before: string, load: string, rest: string)
    requires FirstAfter(before, "average:")
    requires ',' !in load && ' ' !in load && 'a' !in load
    ensures LoadToken(before + "average:" + ((" " + load) + "," + rest)) == Some(load)
  {
    var lead := (" " + load) + ",";
    PieceAfterAverage(before, load, rest);
    var f := Field(before + "average:" + (lead + rest), "average:", 1).value;
    FigureBeforeComma(load, f[|lead|..]);
  }

  /** Reading `vcgencmd measure_temp` output back: the text between `=` and
      the `'` of the unit comes out, whatever follows. */
  lemma {:induction false} TempTokenOfVcgencmd(key: string, temp: string, rest: string)
    requires '=' !in key && '\n' !in key && '\r' !in key
    requires '=' !in temp && '\'' !in temp && '\n' !in temp && '\r' !in temp
    ensures TempToken(key + "=" + (temp + "'" + rest)) == Some(temp)
  {
    OneLineOfVcgencmd(key, temp, rest);
    AfterFirstEquals(key, temp + "'" + OneLine(rest));
    UpToQuote(temp, OneLine(rest));
  }

  /** `(key + "=" + x).split("=")[1]` is `x.split("=")[0]`. */
  lemma {:induction false} AfterFirstEquals(key: string, x: string)
    requires '=' !in key
    ensures Field(key + "=" + x, "=", 1) == Field(x, "=", 0)
  {
    FirstAfterWithoutLead(key, "=");
    SplitCons(key, "=", x);
  }

  /** Up to the next `=`, and then up to the next `'`, leaves the
      temperature. */
  lemma {:induction false} UpToQuote(temp: string, r: string)
    requires '=' !in temp && '\'' !in temp
    ensures Field(Field(temp + "'" + r, "=", 0).value, "'", 0) == Some(temp)
  {
    var lead := temp + "'";
    assert '=' !in lead;
    FirstFieldStartsWith(lead, r, "=");
    var f := Field(lead + r, "=", 0).value;
    assert f == temp + "'" + f[|lead|..];
    FirstAfterWithoutLead(temp, "'");
    SplitCons(temp, "'", f[|lead|..]);
  }

  /** The clean-up touches only the part after the unit's `'`. */
  lemma {:induction false} OneLineOfVcgencmd(key: string, temp: string, rest: string)
    requires '\n' !in key && '\r' !in key && '\n' !in temp && '\r' !in temp
    ensures OneLine(key + "=" + (temp + "'" + rest)) == key + "=" + (temp + "'" + OneLine(rest))
  {
    var tail := temp + "'" + rest;
    ReplaceCharAppend(key + "=", tail, '\n', " ");
    ReplaceCharAppend(key, "=", '\n', " ");
    ReplaceCharAppend(temp + "'", rest, '\n', " ");
    ReplaceCharAppend(temp, "'", '\n', " ");
    var r1 := ReplaceChar(rest, '\n', " ");
    ReplaceCharAppend(key + "=", temp + "'" + r1, '\r', "");
    ReplaceCharAppend(key, "=", '\r', "");
    ReplaceCharAppend(temp + "'", r1, '\r', "");
    ReplaceCharAppend(temp, "'", '\r', "");
  }

  // ---------------------------------------------------------------------------
  // publish_to_mqtt
  // ---------------------------------------------------------------------------

  /** `mqtt_topic_prefix + "/" + hostname + "/" + metric` */
  function Topic(hostname: string, metric: string): string {
    TopicPrefix + "/" + hostname + "/" + metric
  }

  /** The three messages of `publish_to_mqtt`, in order; paho sends the integer
      disk usage as its decimal text. */
  function LegacyPlan(hostname: string, cpuLoad: string, cpuTemp: string, usedSpace: int): seq<Mqtt.Message<string>> {
    [Mqtt.Message(Topic(hostname, "cpuload"), cpuLoad, 1),
     Mqtt.Message(Topic(hostname, "cputemp"), cpuTemp, 1),
     Mqtt.Message(Topic(hostname, "diskusage"), IntToString(usedSpace), 1)]
  }

  /** `publish_to_mqtt` */
  method PublishToMqtt(client: Mqtt.Recorder<string>, hostname: string, cpuLoad: string, cpuTemp: string, usedSpace: int)
    modifies client
    ensures client.sent == old(client.sent) + LegacyPlan(hostname, cpuLoad, cpuTemp, usedSpace)
  {
    client.Publish(Topic(hostname, "cpuload"), cpuLoad, 1);
    client.Publish(Topic(hostname, "cputemp"), cpuTemp, 1);
    client.Publish(Topic(hostname, "diskusage"), IntToString(usedSpace), 1);
  }

  /** Three qos-1 messages, one per metric, in the order load, temperature,
      disk, each on its own topic under `masoko/{hostname}/`. */
  lemma {:induction false} LegacyPlanShape(hostname: string, cpuLoad: string, cpuTemp: string, usedSpace: int)
    ensures var p := LegacyPlan(hostname, cpuLoad, cpuTemp, usedSpace);
      && |p| == 3
      && (forall k :: 0 <= k < 3 ==> p[k].qos == 1 && StartsWith(p[k].topic, "masoko/" + hostname + "/"))
      && p[0].topic != p[1].topic && p[1].topic != p[2].topic && p[0].topic != p[2].topic
      && p[0].payload == cpuLoad && p[1].payload == cpuTemp
      && ParseInt(p[2].payload) == Some(usedSpace)
  {
    var p := LegacyPlan(hostname, cpuLoad, cpuTemp, usedSpace);
    var base := "masoko/" + hostname + "/";
    LegacyTopics(hostname);
    assert p[0].topic == Topic(hostname, "cpuload") && p[1].topic == Topic(hostname, "cputemp");
    assert p[2].topic == Topic(hostname, "diskusage") && p[2].payload == IntToString(usedSpace);
    forall k | 0 <= k < 3
      ensures p[k].qos == 1 && StartsWith(p[k].topic, base)
    {
    }
    ParseIntToString(usedSpace);
  }

  /** The three topics lie under `masoko/{hostname}/` and differ pairwise. */
  lemma {:induction false} LegacyTopics(hostname: string)
    ensures var base := "masoko/" + hostname + "/";
      && StartsWith(Topic(hostname, "cpuload"), base)
      && StartsWith(Topic(hostname, "cputemp"), base)
      && StartsWith(Topic(hostname, "diskusage"), base)
      && Topic(hostname, "cpuload") != Topic(hostname, "cputemp")
      && Topic(hostname, "cputemp") != Topic(hostname, "diskusage")
      && Topic(hostname, "cpuload") != Topic(hostname, "diskusage")
  {
    var base := "masoko/" + hostname + "/";
    UnderBase(base, "cpuload", Topic(hostname, "cpuload"));
    UnderBase(base, "cputemp", Topic(hostname, "cputemp"));
    UnderBase(base, "diskusage", Topic(hostname, "diskusage"));
    assert Topic(hostname, "cpuload")[|base| + 3] == 'l' && Topic(hostname, "cputemp")[|base| + 3] == 't';
    assert Topic(hostname, "cpuload")[|base|] == 'c' && Topic(hostname, "diskusage")[|base|] == 'd';
    assert Topic(hostname, "cputemp")[|base|] == 'c';
  }

  lemma {:induction false} UnderBase(base: string, metric: string, topic: string)
    requires topic == base + metric
    ensures StartsWith(topic, base) && |base| <= |topic|
    ensures forall k :: 0 <= k < |metric| ==> topic[|base| + k] == metric[k]
  {
    assert topic[..|base|] == base;
  }

  /** `__main__`: read both outputs, then publish. A parser that raises ends
      the run before anything is sent. */
  method RunLegacy(client: Mqtt.Recorder<string>, hostname: string, uptimeOut: string, vcgencmdOut: string, usedSpace: int)
    modifies client
    ensures LoadToken(uptimeOut).None? || TempToken(vcgencmdOut).None? ==> client.sent == old(client.sent)
    ensures LoadToken(uptimeOut).Some? && TempToken(vcgencmdOut).Some? ==>
      client.sent == old(client.sent) + LegacyPlan(hostname, LoadToken(uptimeOut).value, TempToken(vcgencmdOut).value, usedSpace)
  {
    var cpuLoad := LoadToken(uptimeOut);
    if cpuLoad.None? { return; }
    var cpuTemp := TempToken(vcgencmdOut);
    if cpuTemp.None? { return; }
    PublishToMqtt(client, hostname, cpuLoad.value, cpuTemp.value, usedSpace);
  }
}
