/** The message planning of `src/rpi-cpu2mqtt.py`: which messages one run of the
    monitor publishes, on which topics, in which order, with which payloads.
    Probing the host is abstracted into a function from metric to the Python
    value the probe returned; the MQTT client is a `Mqtt.Recorder`. */
module Monitor {
  import opened Wrappers
  import opened Text
  import Mqtt

  // ---------------------------------------------------------------------------
  // Metrics and configuration
  // ---------------------------------------------------------------------------

  /** The nine metrics the monitor knows. */
  datatype Metric =
    | CpuLoad | CpuTemp | DiskUsage | Voltage | Swap | Memory
    | SysClockSpeed | UptimeDays | WifiSignal

  /** The name a metric goes by in topics, descriptors and `config_json`. */
  function MetricName(m: Metric): string {
    match m
    case CpuLoad => "cpuload"
    case CpuTemp => "cputemp"
    case DiskUsage => "diskusage"
    case Voltage => "voltage"
    case Swap => "swap"
    case Memory => "memory"
    case SysClockSpeed => "sys_clock_speed"
    case UptimeDays => "uptime_days"
    case WifiSignal => "wifi_signal"
  }

  /** The metric a name stands for, as `config_json`'s `if`/`elif` chain decides it. */
  function MetricNamed(name: string): (r: Option<Metric>)
    ensures r.Some? ==> MetricName(r.value) == name
    ensures r.None? ==> forall m: Metric :: MetricName(m) != name
  {
    if name == "cpuload" then Some(CpuLoad)
    else if name == "cputemp" then Some(CpuTemp)
    else if name == "diskusage" then Some(DiskUsage)
    else if name == "voltage" then Some(Voltage)
    else if name == "swap" then Some(Swap)
    else if name == "memory" then Some(Memory)
    else if name == "sys_clock_speed" then Some(SysClockSpeed)
    else if name == "uptime_days" then Some(UptimeDays)
    else if name == "wifi_signal" then Some(WifiSignal)
    else None
  }

  /** Each metric is recognised by its own name and only by it. */
  lemma {:induction false} MetricNamedRoundTrip(m: Metric, name: string)
    ensures MetricNamed(MetricName(m)) == Some(m)
    ensures MetricNamed(name) == Some(m) <==> name == MetricName(m)
  {
  }

  /** The order in which `publish_to_mqtt` tests the enable flags. */
  const PublishOrder: seq<Metric> :=
    [CpuLoad, CpuTemp, DiskUsage, Voltage, Swap, Memory, SysClockSpeed, UptimeDays, WifiSignal]

  /** The settings the monitor reads from its `config` module. Broker address,
      credentials, `sleep_time` and `random_delay` only affect I/O and pacing. */
  datatype Config = Config(
    mqttTopicPrefix: string,
    discoveryMessages: bool,
    groupMessages: bool,
    cpuLoad: bool,
    cpuTemp: bool,
    usedSpace: bool,
    voltage: bool,
    sysClockSpeed: bool,
    swap: bool,
    memory: bool,
    uptime: bool,
    wifiSignal: bool)

  /** The flag that switches a metric on. */
  function Enabled(cfg: Config, m: Metric): bool {
    match m
    case CpuLoad => cfg.cpuLoad
    case CpuTemp => cfg.cpuTemp
    case DiskUsage => cfg.usedSpace
    case Voltage => cfg.voltage
    case Swap => cfg.swap
    case Memory => cfg.memory
    case SysClockSpeed => cfg.sysClockSpeed
    case UptimeDays => cfg.uptime
    case WifiSignal => cfg.wifiSignal
  }

  // ---------------------------------------------------------------------------
  // Python values handed to the MQTT client
  // ---------------------------------------------------------------------------

  /** The Python values the probes return: `False` for a metric that was not
      probed, an `int`, a `float` (kept as its `repr`), or text (`str`, or
      `bytes` read from a command, kept as its decoded text). */
  datatype PyValue = PyFalse | PyInt(i: int) | PyFloat(repr: string) | PyStr(s: string)

  /** The text paho publishes for a payload: `str()` of a number, the text of a string. */
  function PayloadText(v: PyValue): string {
    match v
    case PyFalse => "False"
    case PyInt(i) => IntToString(i)
    case PyFloat(r) => r
    case PyStr(s) => s
  }

  /** `repr(v)`, as `str()` of a tuple renders each element. Strings are quoted
      with `'`; escaping of quotes, backslashes and unprintable characters is
      not modelled. */
  function Repr(v: PyValue): string {
    match v
    case PyFalse => "False"
    case PyInt(i) => IntToString(i)
    case PyFloat(r) => r
    case PyStr(s) => "'" + s + "'"
  }

  /** The nine values `publish_to_mqtt` and `bulk_publish_to_mqtt` receive. */
  datatype Readings = Readings(
    cpuLoad: PyValue,
    cpuTemp: PyValue,
    usedSpace: PyValue,
    voltage: PyValue,
    sysClockSpeed: PyValue,
    swap: PyValue,
    memory: PyValue,
    uptimeDays: PyValue,
    wifiSignal: PyValue)

  function ReadingOf(r: Readings, m: Metric): PyValue {
    match m
    case CpuLoad => r.cpuLoad
    case CpuTemp => r.cpuTemp
    case DiskUsage => r.usedSpace
    case Voltage => r.voltage
    case Swap => r.swap
    case Memory => r.memory
    case SysClockSpeed => r.sysClockSpeed
    case UptimeDays => r.uptimeDays
    case WifiSignal => r.wifiSignal
  }

  // ---------------------------------------------------------------------------
  // Home Assistant discovery descriptors (config_json)
  // ---------------------------------------------------------------------------

  datatype Device = Device(identifiers: seq<string>, manufacturer: string, model: string, name: string)

  /** The dictionary `config_json` serialises; serialisation itself is not modelled. */
  datatype Descriptor = Descriptor(
    stateTopic: string,
    icon: string,
    name: string,
    uniqueId: string,
    unitOfMeasurement: string,
    device: Device)

  /** What `config_json` returns: `""` for an unknown name, else the JSON of a descriptor. */
  datatype ConfigJson = NoConfig | Json(descriptor: Descriptor)

  function Icon(m: Metric): string {
    match m
    case CpuLoad => "mdi:speedometer"
    case CpuTemp => "hass:thermometer"
    case DiskUsage => "mdi:harddisk"
    case Voltage => "mdi:current-dc"
    case Swap => "mdi:harddisk"
    case Memory => "mdi:memory"
    case SysClockSpeed => "mdi:speedometer"
    case UptimeDays => "mdi:timer"
    case WifiSignal => "mdi:wifi"
  }

  /** What follows the host name in the descriptor's `name`. */
  function Label(m: Metric): string {
    match m
    case CpuLoad => " CPU Usage"
    case CpuTemp => " CPU Temperature"
    case DiskUsage => " Disk Usage"
    case Voltage => " CPU Voltage"
    case Swap => " Disk Swap"
    case Memory => " Memory Usage"
    case SysClockSpeed => " CPU Clock Speed"
    case UptimeDays => " Uptime"
    case WifiSignal => " Wifi Signal"
  }

  function Unit(m: Metric): string {
    match m
    case CpuLoad => "%"
    case CpuTemp => "\U{b0}C"
    case DiskUsage => "%"
    case Voltage => "V"
    case Swap => "%"
    case Memory => "%"
    case SysClockSpeed => "MHz"
    case UptimeDays => "days"
    case WifiSignal => "%"
  }

  /** `{prefix}/{host}/{metric}`: where a metric's readings are published. */
  function StateTopic(prefix: string, host: string, name: string): string {
    prefix + "/" + host + "/" + name
  }

  /** `homeassistant/sensor/{prefix}/{host}_{metric}/config` */
  function DiscoveryTopic(prefix: string, host: string, name: string): string {
    "homeassistant/sensor/" + prefix + "/" + host + "_" + name + "/config"
  }

  /** `config_json(what_config)`, with the prefix, the host name and the CPU model
      name (read from `/proc/cpuinfo`) as parameters. */
  function ConfigJsonFor(prefix: string, host: string, modelName: string, whatConfig: string): (r: ConfigJson)
    ensures r.NoConfig? <==> forall m: Metric :: MetricName(m) != whatConfig
    ensures r.Json? ==> var d := r.descriptor;
      && d.stateTopic == prefix + "/" + host + "/" + whatConfig
      && d.uniqueId == host + "_" + whatConfig
      && d.device == Device([host], "Raspberry Pi", modelName, host)
      && exists m: Metric :: MetricName(m) == whatConfig
           && d.icon == Icon(m) && d.name == host + Label(m) && d.unitOfMeasurement == Unit(m)
  {
    match MetricNamed(whatConfig)
    case None => NoConfig
    case Some(m) =>
      Json(Descriptor(
        StateTopic(prefix, host, whatConfig),
        Icon(m),
        host + Label(m),
        host + "_" + whatConfig,
        Unit(m),
        Device([host], "Raspberry Pi", modelName, host)))
  }

  /** The fixed table of `config_json`, entry by entry. */
  lemma {:induction false} ConfigJsonTable(prefix: string, host: string, modelName: string)
    ensures ConfigJsonFor(prefix, host, modelName, "cputemp").descriptor.unitOfMeasurement == "\U{b0}C"
    ensures ConfigJsonFor(prefix, host, modelName, "sys_clock_speed").descriptor.unitOfMeasurement == "MHz"
    ensures ConfigJsonFor(prefix, host, modelName, "uptime_days").descriptor.unitOfMeasurement == "days"
    ensures ConfigJsonFor(prefix, host, modelName, "voltage").descriptor.unitOfMeasurement == "V"
    ensures ConfigJsonFor(prefix, host, modelName, "wifi_signal").descriptor.icon == "mdi:wifi"
    ensures ConfigJsonFor(prefix, host, modelName, "cpuload").descriptor.name == host + " CPU Usage"
    ensures ConfigJsonFor(prefix, host, modelName, "uptime").NoConfig?
  {
    assert MetricNamed("cputemp") == Some(CpuTemp);
    assert MetricNamed("sys_clock_speed") == Some(SysClockSpeed);
    assert MetricNamed("uptime_days") == Some(UptimeDays);
    assert MetricNamed("voltage") == Some(Voltage);
    assert MetricNamed("wifi_signal") == Some(WifiSignal);
    assert MetricNamed("cpuload") == Some(CpuLoad);
    assert MetricNamed("uptime") == None;
  }

  lemma {:induction false} AppendInjective(a: string, b: string, c: string)
    ensures a + b == a + c ==> b == c
  {
    if a + b == a + c {
      assert b == (a + b)[|a|..];
      assert c == (a + c)[|a|..];
    }
  }

  lemma {:induction false} AppendInjectiveRight(b: string, c: string, z: string)
    ensures b + z == c + z ==> b == c
  {
    if b + z == c + z {
      assert b == (b + z)[..|b|];
      assert c == (c + z)[..|c|];
    }
  }

  /** Different metrics of one host have different state topics and different
      unique ids, so every Home Assistant entity is told apart. */
  lemma {:induction false} TopicsAndIdsDistinct(prefix: string, host: string, m1: Metric, m2: Metric)
    requires m1 != m2
    ensures StateTopic(prefix, host, MetricName(m1)) != StateTopic(prefix, host, MetricName(m2))
    ensures host + "_" + MetricName(m1) != host + "_" + MetricName(m2)
    ensures DiscoveryTopic(prefix, host, MetricName(m1)) != DiscoveryTopic(prefix, host, MetricName(m2))
  {
    MetricNamedRoundTrip(m1, MetricName(m2));
    var n1, n2 := MetricName(m1), MetricName(m2);
    assert n1 != n2;
    AppendInjective(prefix + "/" + host + "/", n1, n2);
    AppendInjective(host + "_", n1, n2);
    var p := "homeassistant/sensor/" + prefix + "/" + host + "_";
    assert DiscoveryTopic(prefix, host, n1) == p + (n1 + "/config");
    assert DiscoveryTopic(prefix, host, n2) == p + (n2 + "/config");
    AppendInjective(p, n1 + "/config", n2 + "/config");
    AppendInjectiveRight(n1, n2, "/config");
  }

  // ---------------------------------------------------------------------------
  // The per-metric publish sequence (publish_to_mqtt)
  // ---------------------------------------------------------------------------

  /** A payload is either a reading or a discovery document. */
  datatype Payload = Value(text: string) | Discovery(config: ConfigJson)

  type Message = Mqtt.Message<Payload>

  /** The qos-0 discovery message for one metric. */
  function DiscoveryMessage(cfg: Config, host: string, modelName: string, m: Metric): Message {
    Mqtt.Message(
      DiscoveryTopic(cfg.mqttTopicPrefix, host, MetricName(m)),
      Discovery(ConfigJsonFor(cfg.mqttTopicPrefix, host, modelName, MetricName(m))),
      0)
  }

  /** The qos-1 state message carrying one metric's reading. */
  function StateMessage(cfg: Config, host: string, r: Readings, m: Metric): Message {
    Mqtt.Message(StateTopic(cfg.mqttTopicPrefix, host, MetricName(m)), Value(PayloadText(ReadingOf(r, m))), 1)
  }

  /** The messages one `if config.<flag>:` block publishes. */
  function MetricBlock(cfg: Config, host: string, modelName: string, r: Readings, m: Metric): seq<Message> {
    if !Enabled(cfg, m) then []
    else if cfg.discoveryMessages then [DiscoveryMessage(cfg, host, modelName, m), StateMessage(cfg, host, r, m)]
    else [StateMessage(cfg, host, r, m)]
  }

  /** The messages the blocks for `ms` publish, in that order. */
  function PlanFor(cfg: Config, host: string, modelName: string, r: Readings, ms: seq<Metric>): seq<Message>
    decreases |ms|
  {
    if ms == [] then []
    else PlanFor(cfg, host, modelName, r, ms[..|ms| - 1]) + MetricBlock(cfg, host, modelName, r, ms[|ms| - 1])
  }

  /** Everything `publish_to_mqtt` publishes. */
  function PublishPlan(cfg: Config, host: string, modelName: string, r: Readings): seq<Message> {
    PlanFor(cfg, host, modelName, r, PublishOrder)
  }

  /** The enabled metrics among `ms`, in order. */
  function EnabledAmong(cfg: Config, ms: seq<Metric>): (e: seq<Metric>)
    ensures |e| <= |ms|
    ensures forall m :: m in e <==> m in ms && Enabled(cfg, m)
    decreases |ms|
  {
    if ms == [] then []
    else EnabledAmong(cfg, ms[..|ms| - 1]) + (if Enabled(cfg, ms[|ms| - 1]) then [ms[|ms| - 1]] else [])
  }

  /** The layout of the plan: for the k-th enabled metric (in the order of `ms`)
      there is its state message, immediately preceded by its discovery message
      when discovery is on, and nothing else. */
  lemma {:induction false} PlanLayout(cfg: Config, host: string, modelName: string, r: Readings, ms: seq<Metric>)
    ensures var p, e := PlanFor(cfg, host, modelName, r, ms), EnabledAmong(cfg, ms);
      if cfg.discoveryMessages then
        && |p| == 2 * |e|
        && forall k :: 0 <= k < |e| ==>
             p[2 * k] == DiscoveryMessage(cfg, host, modelName, e[k]) && p[2 * k + 1] == StateMessage(cfg, host, r, e[k])
      else
        && |p| == |e|
        && forall k :: 0 <= k < |e| ==> p[k] == StateMessage(cfg, host, r, e[k])
    decreases |ms|
  {
    if ms != [] {
      var init, last := ms[..|ms| - 1], ms[|ms| - 1];
      PlanLayout(cfg, host, modelName, r, init);
      var p, e := PlanFor(cfg, host, modelName, r, ms), EnabledAmong(cfg, ms);
      var p', e' := PlanFor(cfg, host, modelName, r, init), EnabledAmong(cfg, init);
      assert p == p' + MetricBlock(cfg, host, modelName, r, last);
      if Enabled(cfg, last) {
        assert e == e' + [last];
      } else {
        assert e == e' && p == p';
      }
    }
  }

  lemma {:induction false} AllMetricsInOrder(m: Metric)
    ensures m in PublishOrder
  {
    var k := match m
      case CpuLoad => 0 case CpuTemp => 1 case DiskUsage => 2 case Voltage => 3 case Swap => 4
      case Memory => 5 case SysClockSpeed => 6 case UptimeDays => 7 case WifiSignal => 8;
    assert PublishOrder[k] == m;
  }

  /** The order in which the enabled metrics are published is `PublishOrder`,
      whatever subset is enabled; a disabled metric contributes nothing. */
  lemma {:induction false} PublishPlanLayout(cfg: Config, host: string, modelName: string, r: Readings)
    ensures var p, e := PublishPlan(cfg, host, modelName, r), EnabledAmong(cfg, PublishOrder);
      && (forall m :: m in e <==> Enabled(cfg, m))
      && (cfg.discoveryMessages ==> |p| == 2 * |e| && forall k :: 0 <= k < |e| ==>
            p[2 * k] == DiscoveryMessage(cfg, host, modelName, e[k]) && p[2 * k + 1] == StateMessage(cfg, host, r, e[k]))
      && (!cfg.discoveryMessages ==> |p| == |e| && forall k :: 0 <= k < |e| ==> p[k] == StateMessage(cfg, host, r, e[k]))
  {
    PlanLayout(cfg, host, modelName, r, PublishOrder);
    forall m: Metric
      ensures m in PublishOrder
    {
      AllMetricsInOrder(m);
    }
  }

  /** How many qos-1 messages in `msgs` are published on `topic`. */
  function StateCount(msgs: seq<Message>, topic: string): nat
    decreases |msgs|
  {
    if msgs == [] then 0
    else (if msgs[0].qos == 1 && msgs[0].topic == topic then 1 else 0) + StateCount(msgs[1..], topic)
  }

  lemma {:induction false} StateCountAppend(a: seq<Message>, b: seq<Message>, topic: string)
    ensures StateCount(a + b, topic) == StateCount(a, topic) + StateCount(b, topic)
    decreases |a|
  {
    if a != [] {
      assert (a + b)[1..] == a[1..] + b;
      StateCountAppend(a[1..], b, topic);
    } else {
      assert a + b == b;
    }
  }

  predicate NoDuplicates(ms: seq<Metric>) {
    forall i, j :: 0 <= i < j < |ms| ==> ms[i] != ms[j]
  }

  /** One block holds a qos-1 message on `m`'s state topic exactly when it is
      the enabled block of `m` itself. */
  lemma {:induction false} BlockStateCount(cfg: Config, host: string, modelName: string, r: Readings, b: Metric, m: Metric)
    ensures StateCount(MetricBlock(cfg, host, modelName, r, b), StateTopic(cfg.mqttTopicPrefix, host, MetricName(m)))
            == if b == m && Enabled(cfg, m) then 1 else 0
  {
    var topic := StateTopic(cfg.mqttTopicPrefix, host, MetricName(m));
    var state := StateMessage(cfg, host, r, b);
    if b != m {
      TopicsAndIdsDistinct(cfg.mqttTopicPrefix, host, b, m);
    }
    assert StateCount([state], topic) == if b == m then 1 else 0 by {
      assert [state][1..] == [];
    }
    if Enabled(cfg, b) && cfg.discoveryMessages {
      var block := [DiscoveryMessage(cfg, host, modelName, b), state];
      assert block[1..] == [state];
    }
  }

  lemma {:induction false} PublishOrderDistinct()
    ensures NoDuplicates(PublishOrder)
  {
  }

  lemma {:induction false} StateCountFor(cfg: Config, host: string, modelName: string, r: Readings, ms: seq<Metric>, m: Metric)
    requires NoDuplicates(ms)
    ensures StateCount(PlanFor(cfg, host, modelName, r, ms), StateTopic(cfg.mqttTopicPrefix, host, MetricName(m)))
            == if m in ms && Enabled(cfg, m) then 1 else 0
    decreases |ms|
  {
    if ms != [] {
      var init, last := ms[..|ms| - 1], ms[|ms| - 1];
      var topic := StateTopic(cfg.mqttTopicPrefix, host, MetricName(m));
      StateCountAppend(PlanFor(cfg, host, modelName, r, init), MetricBlock(cfg, host, modelName, r, last), topic);
      StateCountFor(cfg, host, modelName, r, init, m);
      BlockStateCount(cfg, host, modelName, r, last, m);
      assert ms == init + [last];
      assert m in ms <==> m == last || m in init;
      assert last == m ==> m !in init;
    }
  }

  /** Exactly one qos-1 message is published on an enabled metric's state topic,
      and none on a disabled metric's. */
  lemma {:induction false} OneStateMessagePerEnabledMetric(cfg: Config, host: string, modelName: string, r: Readings, m: Metric)
    ensures StateCount(PublishPlan(cfg, host, modelName, r), StateTopic(cfg.mqttTopicPrefix, host, MetricName(m)))
            == if Enabled(cfg, m) then 1 else 0
  {
    AllMetricsInOrder(m);
    PublishOrderDistinct();
    StateCountFor(cfg, host, modelName, r, PublishOrder, m);
  }

  /** The discovery document sent for a metric announces the very topic that
      metric's state message is published on, and the discovery topic embeds
      the descriptor's unique id. */
  lemma {:induction false} DiscoveryMatchesState(cfg: Config, host: string, modelName: string, r: Readings, m: Metric)
    ensures var d, s := DiscoveryMessage(cfg, host, modelName, m), StateMessage(cfg, host, r, m);
      && d.payload.Discovery? && d.payload.config.Json?
      && d.payload.config.descriptor.stateTopic == s.topic
      && d.topic == "homeassistant/sensor/" + cfg.mqttTopicPrefix + "/" + d.payload.config.descriptor.uniqueId + "/config"
      && d.qos == 0 && s.qos == 1
  {
    MetricNamedRoundTrip(m, MetricName(m));
  }

  /** The plan for the first `k + 1` metrics extends the plan for the first `k`
      by the block of metric `k`. */
  lemma {:induction false} PlanForExtend(cfg: Config, host: string, modelName: string, r: Readings, k: nat)
    requires k < |PublishOrder|
    ensures PlanFor(cfg, host, modelName, r, PublishOrder[..k + 1])
            == PlanFor(cfg, host, modelName, r, PublishOrder[..k]) + MetricBlock(cfg, host, modelName, r, PublishOrder[k])
  {
    assert PublishOrder[..k + 1][..k] == PublishOrder[..k];
  }

  /** The plan of `publish_to_mqtt` is its nine blocks one after the other. */
  lemma {:induction false} PublishPlanSteps(cfg: Config, host: string, modelName: string, r: Readings)
    ensures PublishPlan(cfg, host, modelName, r) ==
      [] + MetricBlock(cfg, host, modelName, r, CpuLoad) + MetricBlock(cfg, host, modelName, r, CpuTemp)
      + MetricBlock(cfg, host, modelName, r, DiskUsage) + MetricBlock(cfg, host, modelName, r, Voltage)
      + MetricBlock(cfg, host, modelName, r, Swap) + MetricBlock(cfg, host, modelName, r, Memory)
      + MetricBlock(cfg, host, modelName, r, SysClockSpeed) + MetricBlock(cfg, host, modelName, r, UptimeDays)
      + MetricBlock(cfg, host, modelName, r, WifiSignal)
  {
    assert PublishOrder[..0] == [];
    PlanForExtend(cfg, host, modelName, r, 0);
    PlanForExtend(cfg, host, modelName, r, 1);
    PlanForExtend(cfg, host, modelName, r, 2);
    PlanForExtend(cfg, host, modelName, r, 3);
    PlanForExtend(cfg, host, modelName, r, 4);
    PlanForExtend(cfg, host, modelName, r, 5);
    PlanForExtend(cfg, host, modelName, r, 6);
    PlanForExtend(cfg, host, modelName, r, 7);
    PlanForExtend(cfg, host, modelName, r, 8);
    assert PublishOrder[..9] == PublishOrder;
  }

  /** One `if config.<flag>:` block of `publish_to_mqtt`: when the metric is
      enabled, its discovery message if discovery is on, then its state message.
      `start` and `done` are the messages recorded before the run and by the
      earlier blocks of this run. */
  method PublishBlock(client: Mqtt.Recorder<Payload>, cfg: Config, host: string, modelName: string, r: Readings, m: Metric,
                      ghost start: seq<Message>, ghost done: seq<Message>)
    requires client.sent == start + done
    modifies client
    ensures client.sent == old(client.sent) + MetricBlock(cfg, host, modelName, r, m)
    ensures client.sent == start + (done + MetricBlock(cfg, host, modelName, r, m))
  {
    var prefix, name := cfg.mqttTopicPrefix, MetricName(m);
    if Enabled(cfg, m) {
      if cfg.discoveryMessages {
        client.Publish(DiscoveryTopic(prefix, host, name), Discovery(ConfigJsonFor(prefix, host, modelName, name)), 0);
      }
      client.Publish(StateTopic(prefix, host, name), Value(PayloadText(ReadingOf(r, m))), 1);
    }
    assert start + done + MetricBlock(cfg, host, modelName, r, m) == start + (done + MetricBlock(cfg, host, modelName, r, m));
  }

  /** `publish_to_mqtt`: the nine blocks, in the fixed order. */
  method PublishToMqtt(client: Mqtt.Recorder<Payload>, cfg: Config, host: string, modelName: string, r: Readings)
    modifies client
    ensures client.sent == old(client.sent) + PublishPlan(cfg, host, modelName, r)
  {
    ghost var start, done := client.sent, [];
    assert client.sent == start + done;
    PublishBlock(client, cfg, host, modelName, r, CpuLoad, start, done);
    done := done + MetricBlock(cfg, host, modelName, r, CpuLoad);
    PublishBlock(client, cfg, host, modelName, r, CpuTemp, start, done);
    done := done + MetricBlock(cfg, host, modelName, r, CpuTemp);
    PublishBlock(client, cfg, host, modelName, r, DiskUsage, start, done);
    done := done + MetricBlock(cfg, host, modelName, r, DiskUsage);
    PublishBlock(client, cfg, host, modelName, r, Voltage, start, done);
    done := done + MetricBlock(cfg, host, modelName, r, Voltage);
    PublishBlock(client, cfg, host, modelName, r, Swap, start, done);
    done := done + MetricBlock(cfg, host, modelName, r, Swap);
    PublishBlock(client, cfg, host, modelName, r, Memory, start, done);
    done := done + MetricBlock(cfg, host, modelName, r, Memory);
    PublishBlock(client, cfg, host, modelName, r, SysClockSpeed, start, done);
    done := done + MetricBlock(cfg, host, modelName, r, SysClockSpeed);
    PublishBlock(client, cfg, host, modelName, r, UptimeDays, start, done);
    done := done + MetricBlock(cfg, host, modelName, r, UptimeDays);
    PublishBlock(client, cfg, host, modelName, r, WifiSignal, start, done);
    done := done + MetricBlock(cfg, host, modelName, r, WifiSignal);
    PublishPlanSteps(cfg, host, modelName, r);
  }

  // ---------------------------------------------------------------------------
  // The bulk CSV message (bulk_publish_to_mqtt)
  // ---------------------------------------------------------------------------

  /** Python's `float(v)`, rendered as its `repr`. `False` is `0.0` and an `int`
      gains `.0`; text goes through `pyFloat`, which stands for the library's
      `float()` followed by `repr()` and is `None` where `float()` raises
      `ValueError`. */
  function ToFloat(v: PyValue, pyFloat: string -> Option<string>): (r: Option<PyValue>)
    ensures r.Some? ==> r.value.PyFloat?
    ensures v.PyFalse? ==> r == Some(PyFloat("0.0"))
    ensures v.PyInt? ==> r.Some? && ToInt(r.value) == Some(v)
    ensures v.PyFloat? ==> r == Some(v)
    ensures v.PyStr? ==> (r.Some? <==> pyFloat(v.s).Some?)
    ensures v.PyStr? && r.Some? ==> r.value == PyFloat(pyFloat(v.s).value)
  {
    match v
    case PyFalse => Some(PyFloat("0.0"))
    case PyInt(i) =>
      IntFloatRoundTrip(i);
      Some(PyFloat(IntToString(i) + ".0"))
    case PyFloat(_) => Some(v)
    case PyStr(s) => if pyFloat(s).Some? then Some(PyFloat(pyFloat(s).value)) else None
  }

  /** Python's `int(v)`: `False` is `0`, text must be a whole number, and a
      float is truncated toward zero (its `repr` cut at the decimal point). */
  function ToInt(v: PyValue): (r: Option<PyValue>)
    ensures r.Some? ==> r.value.PyInt?
    ensures v.PyFalse? ==> r == Some(PyInt(0))
    ensures v.PyInt? ==> r == Some(v)
    ensures v.PyStr? ==> r.Some? == ParseInt(v.s).Some?
    ensures v.PyStr? && r.Some? ==> r.value == PyInt(ParseInt(v.s).value)
  {
    match v
    case PyFalse => Some(PyInt(0))
    case PyInt(_) => Some(v)
    case PyFloat(rep) => OptionInt(ParseInt(Split(rep, ".")[0]))
    case PyStr(s) => OptionInt(ParseInt(s))
  }

  /** `int(float(i)) == i`: the `repr` of a whole float, cut at its decimal
      point, reads back as the whole number. */
  lemma {:induction false} IntFloatRoundTrip(i: int)
    ensures ToInt(PyFloat(IntToString(i) + ".0")) == Some(PyInt(i))
  {
    var digits := IntToString(i);
    assert '.' !in digits by {
      forall k | 0 <= k < |digits| ensures digits[k] != '.' {
        if i < 0 {
          if k > 0 { assert digits[k] == NatToString(-i)[k - 1]; assert IsDigit(digits[k]); }
        } else {
          assert IsDigit(NatToString(i)[k]);
        }
      }
    }
    FirstAfterWithoutLead(digits, ".");
    SplitCons(digits, ".", "0");
    assert digits + ".0" == digits + "." + "0";
    ParseIntToString(i);
  }

  function OptionInt(i: Option<int>): (r: Option<PyValue>)
    ensures r.Some? <==> i.Some?
    ensures r.Some? ==> r.value == PyInt(i.value)
  {
    if i.Some? then Some(PyInt(i.value)) else None
  }

  /** The order of the fields in the bulk message. It differs from the order in
      which `publish_to_mqtt` publishes the metrics. */
  const BulkOrder: seq<Metric> :=
    [CpuLoad, CpuTemp, DiskUsage, Voltage, SysClockSpeed, Swap, Memory, UptimeDays, WifiSignal]

  /** The conversion `bulk_publish_to_mqtt` applies to a metric's value before
      it enters the tuple: `float()` for the temperature and the voltage,
      `int()` for the clock speed, none for the rest. */
  function BulkField(m: Metric, v: PyValue, pyFloat: string -> Option<string>): Option<PyValue> {
    match m
    case CpuTemp => ToFloat(v, pyFloat)
    case Voltage => ToFloat(v, pyFloat)
    case SysClockSpeed => ToInt(v)
    case _ => Some(v)
  }

  /** The nine-element tuple of `bulk_publish_to_mqtt`, in its fixed order, or
      `None` when one of the conversions raises. */
  function BulkValues(r: Readings, pyFloat: string -> Option<string>): (vs: Option<seq<PyValue>>)
    ensures vs.Some? ==> |vs.value| == 9
    ensures vs.Some? <==> ToFloat(r.cpuTemp, pyFloat).Some? && ToFloat(r.voltage, pyFloat).Some? && ToInt(r.sysClockSpeed).Some?
    ensures vs.Some? <==> forall k :: 0 <= k < 9 ==> BulkField(BulkOrder[k], ReadingOf(r, BulkOrder[k]), pyFloat).Some?
    ensures vs.Some? ==>
      forall k :: 0 <= k < 9 ==> Some(vs.value[k]) == BulkField(BulkOrder[k], ReadingOf(r, BulkOrder[k]), pyFloat)
  {
    match (ToFloat(r.cpuTemp, pyFloat), ToFloat(r.voltage, pyFloat), ToInt(r.sysClockSpeed))
    case (Some(temp), Some(volts), Some(clock)) =>
      Some([r.cpuLoad, temp, r.usedSpace, volts, clock, r.swap, r.memory, r.uptimeDays, r.wifiSignal])
    case _ =>
      assert BulkOrder[1] == CpuTemp && BulkOrder[3] == Voltage && BulkOrder[4] == SysClockSpeed;
      None
  }

  function Reprs(vs: seq<PyValue>): (fs: seq<string>)
    ensures |fs| == |vs| && forall i :: 0 <= i < |vs| ==> fs[i] == Repr(vs[i])
  {
    seq(|vs|, i requires 0 <= i < |vs| => Repr(vs[i]))
  }

  /** `str(values)` for a tuple of several values. */
  function TupleStr(vs: seq<PyValue>): string {
    "(" + Join(Reprs(vs), ", ") + ")"
  }

  /** `str(values)[1:-1]`: the tuple's text without its parentheses. */
  function BulkPayload(r: Readings, pyFloat: string -> Option<string>): Option<string> {
    match BulkValues(r, pyFloat)
    case None => None
    case Some(vs) =>
      var t := TupleStr(vs);
      Some(t[1..|t| - 1])
  }

  lemma {:induction false} StripParens(x: string)
    ensures var t := "(" + x + ")"; t[1..|t| - 1] == x
  {
    var t := "(" + x + ")";
    assert t[1..|t| - 1] == x by {
      forall k | 0 <= k < |x| ensures t[1..|t| - 1][k] == x[k] { assert t[k + 1] == x[k]; }
    }
  }

  /** The bulk payload is exactly the fields' `repr`s joined by `", "`; when no
      field contains a comma, splitting it on `", "` gives back the nine
      fields. */
  lemma {:induction false} BulkPayloadFields(r: Readings, pyFloat: string -> Option<string>)
    requires BulkValues(r, pyFloat).Some?
    ensures BulkPayload(r, pyFloat) == Some(Join(Reprs(BulkValues(r, pyFloat).value), ", "))
    ensures (forall i :: 0 <= i < 9 ==> ',' !in Reprs(BulkValues(r, pyFloat).value)[i]) ==>
      Split(BulkPayload(r, pyFloat).value, ", ") == Reprs(BulkValues(r, pyFloat).value)
  {
    var fs := Reprs(BulkValues(r, pyFloat).value);
    StripParens(Join(fs, ", "));
    if forall i :: 0 <= i < 9 ==> ',' !in fs[i] {
      SplitJoin(fs, ", ");
    }
  }

  /** The topic of the bulk message: `{prefix}/{host}`. */
  function BulkMessage(cfg: Config, host: string, payload: string): Message {
    Mqtt.Message(cfg.mqttTopicPrefix + "/" + host, Value(payload), 1)
  }

  /** What `bulk_publish_to_mqtt` publishes: one qos-1 message, or nothing when
      building the tuple raises. */
  function BulkPlan(cfg: Config, host: string, r: Readings, pyFloat: string -> Option<string>): (p: seq<Message>)
    ensures |p| <= 1
    ensures |p| == 1 <==> BulkPayload(r, pyFloat).Some?
    ensures forall k :: 0 <= k < |p| ==> p[k].qos == 1 && p[k].topic == cfg.mqttTopicPrefix + "/" + host && p[k].payload.Value?
    ensures |p| == 1 ==> p[0].payload == Value(BulkPayload(r, pyFloat).value)
  {
    match BulkPayload(r, pyFloat)
    case None => []
    case Some(payload) => [BulkMessage(cfg, host, payload)]
  }

  /** `bulk_publish_to_mqtt`. `raised` reports the exception that building the
      tuple raises, in which case nothing is published. */
  method BulkPublishToMqtt(client: Mqtt.Recorder<Payload>, cfg: Config, host: string, r: Readings,
                           pyFloat: string -> Option<string>) returns (raised: bool)
    modifies client
    ensures raised <==> BulkPayload(r, pyFloat).None?
    ensures client.sent == old(client.sent) + BulkPlan(cfg, host, r, pyFloat)
  {
    var payload := BulkPayload(r, pyFloat);
    raised := payload.None?;
    if !raised {
      client.Publish(cfg.mqttTopicPrefix + "/" + host, Value(payload.value), 1);
    }
  }

  // ---------------------------------------------------------------------------
  // One run of the script (__main__)
  // ---------------------------------------------------------------------------

  /** What collecting one metric yields: the Python `False` it starts from when
      it is disabled, the probe's answer when it is enabled. A probe is `None`
      where it raises. */
  function Probed(cfg: Config, probe: Metric -> Option<PyValue>, m: Metric): Option<PyValue> {
    if Enabled(cfg, m) then probe(m) else Some(PyFalse)
  }

  /** The readings `__main__` collects, or `None` when a probe raises: the
      script does not catch that, so it stops before publishing anything. */
  function Collected(cfg: Config, probe: Metric -> Option<PyValue>): Option<Readings> {
    if forall m :: Probed(cfg, probe, m).Some? then
      Some(Readings(Probed(cfg, probe, CpuLoad).value, Probed(cfg, probe, CpuTemp).value,
                    Probed(cfg, probe, DiskUsage).value, Probed(cfg, probe, Voltage).value,
                    Probed(cfg, probe, SysClockSpeed).value, Probed(cfg, probe, Swap).value,
                    Probed(cfg, probe, Memory).value, Probed(cfg, probe, UptimeDays).value,
                    Probed(cfg, probe, WifiSignal).value))
    else None
  }

  /** Collection fails exactly when an enabled metric's probe raises; otherwise
      every disabled metric reads `False` and every enabled one the probe's
      value. */
  lemma {:induction false} CollectedReadings(cfg: Config, probe: Metric -> Option<PyValue>)
    ensures Collected(cfg, probe).None? <==> exists m :: Enabled(cfg, m) && probe(m).None?
    ensures Collected(cfg, probe).Some? ==>
      forall m :: ReadingOf(Collected(cfg, probe).value, m) == if Enabled(cfg, m) then probe(m).value else PyFalse
  {
    if exists m :: Enabled(cfg, m) && probe(m).None? {
      var m :| Enabled(cfg, m) && probe(m).None?;
      assert Probed(cfg, probe, m).None?;
    } else {
      forall m ensures Probed(cfg, probe, m).Some? {
        assert !(Enabled(cfg, m) && probe(m).None?);
      }
    }
    if Collected(cfg, probe).Some? {
      forall m ensures ReadingOf(Collected(cfg, probe).value, m) == Probed(cfg, probe, m).value {
        CollectedReadingOf(cfg, probe, m);
      }
    }
  }

  /** Each field of the collected readings is what collecting that metric
      yielded. */
  lemma {:induction false} CollectedReadingOf(cfg: Config, probe: Metric -> Option<PyValue>, m: Metric)
    requires forall m :: Probed(cfg, probe, m).Some?
    ensures ReadingOf(Collected(cfg, probe).value, m) == Probed(cfg, probe, m).value
  {
    match m
    case CpuLoad => case CpuTemp => case DiskUsage => case Voltage => case Swap =>
    case Memory => case SysClockSpeed => case UptimeDays => case WifiSignal =>
  }

  /** `check_cpu_temp`, `check_voltage` and `check_wifi_signal` catch every
      exception and answer with a fallback value, so these three probes never
      raise. */
  predicate CatchesErrors(probe: Metric -> Option<PyValue>) {
    probe(CpuTemp).Some? && probe(Voltage).Some? && probe(WifiSignal).Some?
  }

  /** With the three guarded probes never raising, collection fails exactly when
      one of the six unguarded probes of an enabled metric raises. */
  lemma {:induction false} CaughtProbesNeverAbort(cfg: Config, probe: Metric -> Option<PyValue>)
    requires CatchesErrors(probe)
    ensures Collected(cfg, probe).None? <==>
      exists m :: m != CpuTemp && m != Voltage && m != WifiSignal && Enabled(cfg, m) && probe(m).None?
  {
    CollectedReadings(cfg, probe);
    if Collected(cfg, probe).None? {
      var m :| Enabled(cfg, m) && probe(m).None?;
      assert m != CpuTemp && m != Voltage && m != WifiSignal;
    }
  }

  /** One step of the collection in `__main__`: the value starts as `False`
      and is replaced by the probe's answer when the metric's flag is on. */
  method ProbeIfEnabled(cfg: Config, probe: Metric -> Option<PyValue>, m: Metric) returns (v: Option<PyValue>)
    ensures v == Probed(cfg, probe, m)
    ensures !Enabled(cfg, m) ==> v == Some(PyFalse)
  {
    v := Some(PyFalse);
    if Enabled(cfg, m) {
      v := probe(m);
    }
  }

  /** The collection step of `__main__`: each enabled metric is probed in
      turn, and a probe that raises ends the run. */
  method CollectReadings(cfg: Config, probe: Metric -> Option<PyValue>) returns (r: Option<Readings>)
    ensures r == Collected(cfg, probe)
  {
    var cpuLoad := ProbeIfEnabled(cfg, probe, CpuLoad);
    if cpuLoad.None? { return None; }
    var cpuTemp := ProbeIfEnabled(cfg, probe, CpuTemp);
    if cpuTemp.None? { return None; }
    var usedSpace := ProbeIfEnabled(cfg, probe, DiskUsage);
    if usedSpace.None? { return None; }
    var voltage := ProbeIfEnabled(cfg, probe, Voltage);
    if voltage.None? { return None; }
    var sysClockSpeed := ProbeIfEnabled(cfg, probe, SysClockSpeed);
    if sysClockSpeed.None? { return None; }
    var swap := ProbeIfEnabled(cfg, probe, Swap);
    if swap.None? { return None; }
    var memory := ProbeIfEnabled(cfg, probe, Memory);
    if memory.None? { return None; }
    var uptimeDays := ProbeIfEnabled(cfg, probe, UptimeDays);
    if uptimeDays.None? { return None; }
    var wifiSignal := ProbeIfEnabled(cfg, probe, WifiSignal);
    if wifiSignal.None? { return None; }
    assert forall m :: Probed(cfg, probe, m).Some? by {
      forall m ensures Probed(cfg, probe, m).Some? {
        match m
        case CpuLoad => case CpuTemp => case DiskUsage => case Voltage => case Swap =>
        case Memory => case SysClockSpeed => case UptimeDays => case WifiSignal =>
      }
    }
    r := Some(Readings(cpuLoad.value, cpuTemp.value, usedSpace.value, voltage.value, sysClockSpeed.value,
                       swap.value, memory.value, uptimeDays.value, wifiSignal.value));
  }

  /** Everything one run of the script publishes. */
  function RunPlan(cfg: Config, host: string, modelName: string, probe: Metric -> Option<PyValue>,
                   pyFloat: string -> Option<string>): seq<Message>
  {
    match Collected(cfg, probe)
    case None => []
    case Some(r) => if cfg.groupMessages then BulkPlan(cfg, host, r, pyFloat) else PublishPlan(cfg, host, modelName, r)
  }

  /** `__main__`: collect, then publish either the bulk message or the
      per-metric messages. */
  method RunMonitor(client: Mqtt.Recorder<Payload>, cfg: Config, host: string, modelName: string,
                    probe: Metric -> Option<PyValue>, pyFloat: string -> Option<string>)
    modifies client
    ensures client.sent == old(client.sent) + RunPlan(cfg, host, modelName, probe, pyFloat)
  {
    var readings := CollectReadings(cfg, probe);
    if readings.None? {
      assert client.sent + [] == client.sent;
      return;
    }
    if cfg.groupMessages {
      var _ := BulkPublishToMqtt(client, cfg, host, readings.value, pyFloat);
    } else {
      PublishToMqtt(client, cfg, host, modelName, readings.value);
    }
  }

  /** In bulk mode a run publishes no discovery message and at most one
      message, on `{prefix}/{host}`. */
  lemma {:induction false} BulkModeSingleMessage(cfg: Config, host: string, modelName: string, probe: Metric -> Option<PyValue>,
                              pyFloat: string -> Option<string>)
    requires cfg.groupMessages
    ensures var p := RunPlan(cfg, host, modelName, probe, pyFloat);
      |p| <= 1 && forall k :: 0 <= k < |p| ==> p[k].topic == cfg.mqttTopicPrefix + "/" + host && !p[k].payload.Discovery?
  {
  }

  /** With only CPU load and CPU temperature enabled, discovery off and every
      probe answering, a run publishes exactly those two state messages, load
      first. */
  lemma {:induction false} TwoMetricRun(cfg: Config, host: string, modelName: string, probe: Metric -> Option<PyValue>,
                     pyFloat: string -> Option<string>)
    requires !cfg.groupMessages && !cfg.discoveryMessages
    requires forall m :: Enabled(cfg, m) <==> m == CpuLoad || m == CpuTemp
    requires forall m :: probe(m).Some?
    ensures var r := Collected(cfg, probe).value;
      RunPlan(cfg, host, modelName, probe, pyFloat) == [StateMessage(cfg, host, r, CpuLoad), StateMessage(cfg, host, r, CpuTemp)]
  {
    var r := Collected(cfg, probe).value;
    PublishPlanSteps(cfg, host, modelName, r);
    assert Enabled(cfg, CpuLoad) && Enabled(cfg, CpuTemp);
    assert !Enabled(cfg, DiskUsage) && !Enabled(cfg, Voltage) && !Enabled(cfg, Swap) && !Enabled(cfg, Memory);
    assert !Enabled(cfg, SysClockSpeed) && !Enabled(cfg, UptimeDays) && !Enabled(cfg, WifiSignal);
  }

  /** With every metric disabled, bulk mode still sends all nine fields: the
      Python `False` the script starts from, coerced by `float()` to `0.0` and
      by `int()` to `0` where the tuple converts it. */
  lemma {:induction false} BulkPayloadAllDisabled(cfg: Config, probe: Metric -> Option<PyValue>, pyFloat: string -> Option<string>)
    requires forall m :: !Enabled(cfg, m)
    ensures Collected(cfg, probe).Some?
    ensures BulkPayload(Collected(cfg, probe).value, pyFloat)
         == Some(Join(["False", "0.0", "False", "0.0", "0", "False", "False", "False", "False"], ", "))
  {
    var r := Collected(cfg, probe).value;
    assert r == Readings(PyFalse, PyFalse, PyFalse, PyFalse, PyFalse, PyFalse, PyFalse, PyFalse, PyFalse) by {
      assert !Enabled(cfg, CpuLoad) && !Enabled(cfg, CpuTemp) && !Enabled(cfg, DiskUsage);
      assert !Enabled(cfg, Voltage) && !Enabled(cfg, Swap) && !Enabled(cfg, Memory);
      assert !Enabled(cfg, SysClockSpeed) && !Enabled(cfg, UptimeDays) && !Enabled(cfg, WifiSignal);
    }
    var vs := [PyFalse, PyFloat("0.0"), PyFalse, PyFloat("0.0"), PyInt(0), PyFalse, PyFalse, PyFalse, PyFalse];
    assert BulkValues(r, pyFloat) == Some(vs);
    var fs := ["False", "0.0", "False", "0.0", "0", "False", "False", "False", "False"];
    assert Reprs(vs) == fs;
    BulkPayloadFields(r, pyFloat);
  }
}
