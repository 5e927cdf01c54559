# rpi-mqtt-monitor, modelled in Dafny

rpi-mqtt-monitor is a small Raspberry Pi / Linux host monitor. It runs a
handful of shell commands and reads sysfs files to measure the host. It then
publishes the readings to an MQTT broker: one message per metric, preceded
by a Home Assistant discovery document when discovery is on, or a single CSV
message in bulk mode. Around this glue sit several helpers:

- an SHT21 humidity/temperature driver with a CRC-8 frame check;
- DS18B20 1-Wire helpers;
- a drive-temperature survey over hwmon devices;
- a script that merges new settings from `config.py.example` into `config.py`;
- the older single-file monitor `cpu_mqtt.py`.

The model keeps the deterministic part of each of these and proves what it
promises. Every source of I/O becomes an input value:

- a command's output is a string;
- a directory listing is a sequence;
- a file's content is an `Option<string>` (`None` where reading fails);
- a sensor frame is a byte sequence;
- a probe is a function from metric to the Python value it returns.

The MQTT client is `Mqtt.Recorder`, a class whose `sent` field records every
`publish(topic, payload, qos)` call in order.

Modules:

- `Wrappers` — `Option`.
- `Text` — the Python string operations the parsers use:
  - `strip` over Python's whitespace set;
  - `split` with an explicit separator, and `join`;
  - an indexed field, where `None` stands for the `IndexError`;
  - single-character `replace`, ASCII `lower`;
  - `int()` and `str()` of integers;
  - round-trip lemmas for all of these.
- `Mqtt` — the message record and the recording client.
- `Monitor` — `src/rpi-cpu2mqtt.py`:
  - metrics and enable flags;
  - the `config_json` descriptor table;
  - state and discovery topics;
  - the per-metric publish sequence of `publish_to_mqtt`;
  - the bulk tuple of `bulk_publish_to_mqtt`;
  - the collection and branch of `__main__`.
- `Probes` — the parsing halves of `check_wifi_signal` and `check_cpu_load`.
- `Sht21` — `ext_sensor_lib/sht21.py`:
  - `_calculate_checksum` as a method with nested loops, proved equal to a CRC-8 fold;
  - the accept rule of `read_temperature` / `read_humidity`;
  - the raw reading with its status bits masked;
  - the two conversions, in exact arithmetic.
- `Ds18b20` — `src/ext_sensor_lib/ds18b20.py`:
  - `get_available_sensors` as a loop proved against a filter;
  - the sensor path;
  - the `w1_slave` token and the -300 sentinel.
- `DriveCheck` — `src/drive_check.py`:
  - the readers `get_hwmon_device_name` and `get_hwmon_temp` over the files' contents;
  - the `check_all_drive_temps` loop, proved against a fold whose keys and values are characterised.
- `ConfigUpdate` — `src/update.py`:
  - `get_assignments` as a last-assignment-wins map;
  - the missing-assignment comprehension;
  - `display_config_differences`;
  - `update_config`, as a method appending to a `ConfigFile` object;
  - the script's display-then-update step.
- `LegacyMonitor` — `cpu_mqtt.py`:
  - its two parsers;
  - its fixed three-message publish;
  - its `__main__`.

A disabled metric keeps the Python `False` that `__main__` starts from
(src/rpi-cpu2mqtt.py:253). It does not become `0`. In bulk mode it is
rendered `False`, except where the tuple converts it: `float()` gives `0.0`
for the CPU temperature and the voltage, and `int()` gives `0` for the clock
speed (`Monitor.BulkPayloadAllDisabled`).

## Model

| member | source | states |
|---|---|---|
| Mqtt.Recorder.Publish | src/rpi-cpu2mqtt.py:169 | `client.publish` appends exactly one `(topic, payload, qos)` record and keeps all earlier ones |
| Text.Strip | src/drive_check.py:7 | the result is the input with its leading and trailing Python whitespace removed, and it neither starts nor ends with whitespace |
| Text.StripPadded | src/rpi-cpu2mqtt.py:23 | stripping whitespace padding from a text that has none at its ends gives that text back |
| Text.Find | src/rpi-cpu2mqtt.py:42 | the index is the first occurrence of the separator, and it is `None` exactly when the separator does not occur |
| Text.Split | src/rpi-cpu2mqtt.py:23 | `str.split(sep)` gives at least one piece, and no piece contains the separator |
| Text.JoinSplit | src/rpi-cpu2mqtt.py:23 | joining the pieces of a split with the separator gives back the original text |
| Text.SplitJoin | src/rpi-cpu2mqtt.py:237 | splitting a join gives back the pieces when no piece holds the separator's first character |
| Text.Field | src/rpi-cpu2mqtt.py:23 | `s.split(sep)[k]` exists exactly when the split has more than `k` pieces (otherwise `IndexError`), and it never contains the separator |
| Text.ReplaceChar | cpu_mqtt.py:37 | the one-character text `c` becomes `t` and any other single character is kept, which with `Text.ReplaceCharAppend` fixes the result; with `c` not in `t`, `c` is gone; no new characters appear except those of `t`; a text without `c` is unchanged |
| Text.ReplaceCharAppend | cpu_mqtt.py:37 | `replace` distributes over concatenation |
| Text.Lower | src/drive_check.py:28 | `lower()` keeps the length and lower-cases each character |
| Text.NatToString | cpu_mqtt.py:55 | `str()` of a natural number is a non-empty digit string without leading zero |
| Text.ParseInt | src/drive_check.py:17 | `int(s)` succeeds exactly when `s` stripped is an optionally signed digit string; a negative result comes from a leading `-` |
| Text.DigitsValueOfNat | cpu_mqtt.py:55 | the digits `str()` writes denote the number written |
| Text.ParseIntToString | src/ext_sensor_lib/ds18b20.py:21 | `int(str(i)) == i` for every integer |
| Monitor.MetricNamed | src/rpi-cpu2mqtt.py:114-151 | the `if`/`elif` chain recognises a name only when it is one of the nine metric names, and then the metric of that name |
| Monitor.MetricNamedRoundTrip | src/rpi-cpu2mqtt.py:114-151 | each metric is recognised by its own name and by no other |
| Monitor.ConfigJsonFor | src/rpi-cpu2mqtt.py:112-153 | `""` exactly for names outside the nine metrics; otherwise state topic `prefix/host/name`, unique id `host_name`, the device block, and that metric's icon, name suffix and unit |
| Monitor.ConfigJsonTable | src/rpi-cpu2mqtt.py:114-151 | table entries: cputemp `°C`, sys_clock_speed `MHz`, uptime_days `days`, voltage `V`, wifi icon `mdi:wifi`, cpuload name `host CPU Usage`; `uptime` is not a metric name |
| Monitor.TopicsAndIdsDistinct | src/rpi-cpu2mqtt.py:112-113 | two different metrics never share a state topic, a unique id or a discovery topic |
| Monitor.EnabledAmong | src/rpi-cpu2mqtt.py:164-227 | the enabled metrics of a list are exactly its members whose flag is on |
| Monitor.PlanLayout | src/rpi-cpu2mqtt.py:164-227 | the blocks for a list of metrics hold, per enabled metric in list order, its state message, immediately preceded by its discovery message when discovery is on, and nothing else |
| Monitor.PublishPlanLayout | src/rpi-cpu2mqtt.py:164-227 | `publish_to_mqtt` emits the enabled metrics in the fixed order cpuload … wifi_signal whatever subset is enabled, discovery (qos 0) immediately before state (qos 1) |
| Monitor.BlockStateCount | src/rpi-cpu2mqtt.py:164-170 | one `if config.<flag>` block publishes a qos-1 message on metric `m`'s state topic exactly when it is `m`'s block and `m` is enabled |
| Monitor.OneStateMessagePerEnabledMetric | src/rpi-cpu2mqtt.py:164-227 | exactly one qos-1 message on an enabled metric's state topic, none for a disabled metric |
| Monitor.DiscoveryMatchesState | src/rpi-cpu2mqtt.py:165-169 | the discovery document's `state_topic` is the topic of that metric's state message, and its topic is `homeassistant/sensor/{prefix}/{unique_id}/config` at qos 0 |
| Monitor.PublishPlanSteps | src/rpi-cpu2mqtt.py:164-227 | the run is the nine blocks, one after the other, in source order |
| Monitor.PublishBlock | src/rpi-cpu2mqtt.py:164-170 | one block appends its discovery and state messages to what was published before |
| Monitor.PublishToMqtt | src/rpi-cpu2mqtt.py:156-229 | the recorded messages grow by exactly the publish plan |
| Monitor.ToFloat | src/rpi-cpu2mqtt.py:236 | `float()` always yields a float; `False` becomes `0.0`; a float is kept; `int(float(i)) == i` for an int; text converts exactly when the `float()` parameter accepts it, to that parameter's value |
| Monitor.IntFloatRoundTrip | src/rpi-cpu2mqtt.py:236 | the `repr` of `float(i)` cut at the decimal point reads back as `i` |
| Monitor.ToInt | src/rpi-cpu2mqtt.py:236 | `int()` always yields an int; `False` becomes `0`; an int is kept; text converts exactly when it is an integer literal, to the value `int()` reads |
| Monitor.BulkValues | src/rpi-cpu2mqtt.py:236 | the tuple has nine fields and exists exactly when the two `float()` and the `int()` conversions succeed; field `k` is the converted reading of the `k`-th metric of `BulkOrder` (cpu_load, float(cpu_temp), used_space, float(voltage), int(sys_clock_speed), swap, memory, uptime_days, wifi_signal) |
| Monitor.BulkPayloadFields | src/rpi-cpu2mqtt.py:236-237 | `str(values)[1:-1]` is the nine fields' `repr`s joined by `", "`; splitting on `", "` gives them back when none holds a comma |
| Monitor.BulkPlan | src/rpi-cpu2mqtt.py:236-245 | bulk mode publishes one message exactly when the payload can be built, at qos 1, on `prefix/host`, and its payload is that bulk payload |
| Monitor.BulkPublishToMqtt | src/rpi-cpu2mqtt.py:232-248 | raises exactly when building the tuple fails, and otherwise records the single bulk message |
| Monitor.CollectedReadings | src/rpi-cpu2mqtt.py:253-276 | collection fails exactly when an enabled probe raises; otherwise every disabled metric is `False` and every enabled one the probe's value |
| Monitor.ProbeIfEnabled | src/rpi-cpu2mqtt.py:259-260 | the value is `False` unless the flag is on, in which case it is the probe's answer |
| Monitor.CaughtProbesNeverAbort | src/rpi-cpu2mqtt.py:19-27 | with `check_wifi_signal`, `check_voltage` and `check_cpu_temp` catching every exception, collection fails exactly when another enabled probe raises |
| Monitor.CollectReadings | src/rpi-cpu2mqtt.py:253-276 | the step-by-step collection with early exit yields the collected readings |
| Monitor.RunMonitor | src/rpi-cpu2mqtt.py:251-281 | a run publishes nothing when a probe raises, else the bulk message or the per-metric plan, as `group_messages` says |
| Monitor.BulkModeSingleMessage | src/rpi-cpu2mqtt.py:278-279 | in bulk mode a run publishes at most one message, on `prefix/host`, and never a discovery document |
| Monitor.TwoMetricRun | src/rpi-cpu2mqtt.py:259-281 | with only cpuload and cputemp enabled and discovery off, exactly those two state messages are sent, load first |
| Monitor.BulkPayloadAllDisabled | src/rpi-cpu2mqtt.py:236-237 | with every metric disabled the bulk payload is `False, 0.0, False, 0.0, 0, False, False, False, False` |
| Probes.WifiToken | src/rpi-cpu2mqtt.py:23 | `None` (the `IndexError`) exactly when the stripped output has no blank, or its second blank-separated word has no `=`; a token holds neither `/` nor `=` |
| Probes.WifiPercent | src/rpi-cpu2mqtt.py:24 | the percentage is within half a unit of `100 q / 70`; qualities 0..70 map into 0..100, and 70 maps to 100 |
| Probes.WifiPercentNearest | src/rpi-cpu2mqtt.py:24 | no other whole number is as close to `100 q / 70` (so rounding ties never arise) |
| Probes.WifiSignal | src/rpi-cpu2mqtt.py:19-27 | the result is an integer exactly when the token exists and `int()` accepts it, and `'NA'` otherwise |
| Probes.WifiProbeNeverAborts | src/rpi-cpu2mqtt.py:19-27 | a run whose wifi probe is `WifiSignal` of the command output never fails on the wifi metric, and an enabled wifi reading is that probe's answer |
| Probes.WifiSignalOfIwconfig | src/rpi-cpu2mqtt.py:23 | for an `iwconfig` line `Link Quality=q/max …` with any padding, the token is `q` and the signal is `q`'s percentage |
| Probes.LoadToken | src/rpi-cpu2mqtt.py:42 | `None` (the `IndexError`) exactly when there is no `average:`; the token holds no blank and no comma |
| Text.FieldOneExists | src/rpi-cpu2mqtt.py:42 | `split("average:")[1]` exists exactly when `average:` occurs |
| Probes.LoadTokenOfUptime | src/rpi-cpu2mqtt.py:42 | from `uptime` output, the first figure after `average:` comes out, a decimal comma turned into a point |
| Sht21.Step | ext_sensor_lib/sht21.py:110-114 | one bit step keeps the checksum below 256 |
| Sht21.Crc8 | ext_sensor_lib/sht21.py:101-115 | the checksum of any byte string fits in eight bits |
| Sht21.CalculateChecksum | ext_sensor_lib/sht21.py:101-115 | the nested loops compute the CRC-8 of exactly the first `number_of_bytes` bytes, below 256 |
| Sht21.ChecksumVectors | ext_sensor_lib/sht21.py:161-164 | the checksum of `[99, 172]` is 249 and of `[99, 160]` is 132 |
| Sht21.StepsZero | ext_sensor_lib/sht21.py:110-114 | bit steps map only 0 to 0 |
| Sht21.ChecksumOfFrame | ext_sensor_lib/sht21.py:77-78 | `crc(data) == b` exactly when the checksum of `data + [b]` is 0 |
| Sht21.RawValue | ext_sensor_lib/sht21.py:124-125 | the raw reading is the big-endian value rounded down to a multiple of four, at most 65532, status bits zero |
| Sht21.ConversionVectors | ext_sensor_lib/sht21.py:150-159 | the buffer `99, 172` gives 21.565… °C within 0.1 and `99, 82` gives 42.4924 % within 0.001 |
| Sht21.ConversionRanges | ext_sensor_lib/sht21.py:117-143 | temperatures lie in [-46.85, 128.87) and humidities in [-6, 119) |
| Sht21.Accept | ext_sensor_lib/sht21.py:76-78 | a short frame raises; a value exactly when the checksum of bytes 0..1 equals byte 2, converted from bytes 0 and 1; otherwise `None` |
| Sht21.ReadAcceptsValidFrames | ext_sensor_lib/sht21.py:71-87 | both reads accept a three-byte frame exactly when the checksum of the whole frame is 0 |
| Ds18b20.SensorIds | src/ext_sensor_lib/ds18b20.py:38-43 | there are no more ids than listing entries |
| Ds18b20.GetAvailableSensors | src/ext_sensor_lib/ds18b20.py:35-43 | the loop returns the `28-` entries with that prefix removed, in listing order |
| Ds18b20.SensorIdsMembership | src/ext_sensor_lib/ds18b20.py:40-42 | `id` is returned exactly when `"28-" + id` is a listing entry |
| Ds18b20.SensorIdsAppend | src/ext_sensor_lib/ds18b20.py:39-42 | listing order is kept: ids of a concatenation are the concatenation of ids |
| Ds18b20.SensorIdsSkip | src/ext_sensor_lib/ds18b20.py:40 | an entry without the `28-` prefix contributes nothing |
| Ds18b20.SensorPathOfListedId | src/ext_sensor_lib/ds18b20.py:16 | the file read for a returned id is `w1_slave` inside the very listing entry the id came from |
| Ds18b20.TemperatureToken | src/ext_sensor_lib/ds18b20.py:20 | `None` (the `IndexError`) exactly when the content has fewer than two lines or its second line fewer than ten blank-separated fields; a token holds no blank and no newline |
| Ds18b20.SensorDs18b20 | src/ext_sensor_lib/ds18b20.py:9-32 | an unreadable file gives the -300 sentinel; otherwise the value is the token read as a number, and a missing or non-numeric token raises |
| Ds18b20.SensorOfW1Slave | src/ext_sensor_lib/ds18b20.py:20-21 | for a `w1_slave` file whose second line is nine byte fields and `t=milli`, the reading is `milli`, whatever the CRC line says |
| DriveCheck.DeviceName | src/drive_check.py:4-10 | `None` exactly when the `name` file cannot be read, else its stripped content |
| DriveCheck.HwmonTemp | src/drive_check.py:12-21 | `None` without temperature files; otherwise the first file alone decides: unreadable gives `None`, readable gives what `int()` makes of its stripped content |
| DriveCheck.EntryOfFiles | src/drive_check.py:7-32 | a device whose `name` file holds a drive name on a line and whose first temperature file holds `str(t)` on a line enters the dictionary as `(name, t)` |
| Text.StripIntLine | src/drive_check.py:17 | a whole number written on its own line strips back to its digits |
| DriveCheck.GetHwmonTemp | src/drive_check.py:12-21 | the loop with its return in the first iteration computes the first-file temperature |
| DriveCheck.Entry | src/drive_check.py:27-31 | a device is written exactly when its name reads, is a drive name, and it has a temperature; its key is the name and its value the temperature |
| DriveCheck.DriveTempsStep | src/drive_check.py:26-31 | one loop iteration writes the device's entry over the dictionary built so far |
| DriveCheck.CheckAllDriveTemps | src/drive_check.py:23-32 | the loop builds the device-by-device dictionary |
| DriveCheck.DriveTempsKeys | src/drive_check.py:28-31 | a key is present exactly when some device contributes it; devices with no name or no temperature add nothing |
| DriveCheck.DriveTempsKeysAreDrives | src/drive_check.py:27-31 | every key contains `nvme` or `sd` once lower-cased, and is some device's stripped name, case kept |
| DriveCheck.DriveTempsLastWins | src/drive_check.py:26-31 | of several devices with one name, the last decides the temperature |
| ConfigUpdate.BindingsLastWins | src/update.py:10 | a name is assigned exactly when a statement assigns it, with the value of the last such statement |
| ConfigUpdate.Missing | src/update.py:17 | the missing set is exactly the example's names absent from the current config, with the example's values |
| ConfigUpdate.DisplayReportsMissing | src/update.py:24-36 | `display_config_differences` is `True` exactly when the example assigns a name the current config does not |
| ConfigUpdate.ConfigFile.Append | src/update.py:20-22 | appending one line adds that assignment, overriding only its own name |
| ConfigUpdate.AppendAll | src/update.py:21-22 | writing the missing lines keeps the old lines as a prefix, writes only missing names, exactly one line per missing name, and adds exactly the missing assignments |
| ConfigUpdate.UpdateConfig | src/update.py:13-22 | the new assignments are the old ones plus the missing ones; old lines are kept; one line is written per missing name and nothing when nothing is missing |
| ConfigUpdate.UpdateScript | src/update.py:46-50 | the script updates only when differences are reported, and afterwards nothing is missing |
| ConfigUpdate.MergeKeepsCurrent | src/update.py:20-22 | every existing assignment keeps its value |
| ConfigUpdate.MergeCoversExample | src/update.py:17-22 | after the merge exactly the current and the example names are assigned |
| ConfigUpdate.MergeIdempotent | src/update.py:19 | a second merge finds nothing missing and changes nothing |
| LegacyMonitor.LoadToken | cpu_mqtt.py:30 | `None` (the `IndexError`) exactly when there is no `average:`; the token holds no blank and no comma |
| LegacyMonitor.LoadTokenOfUptime | cpu_mqtt.py:30 | from `uptime` output the first figure after `average:` comes out, when it has no comma of its own |
| LegacyMonitor.OneLine | cpu_mqtt.py:37 | no newline and no carriage return remain |
| LegacyMonitor.TempToken | cpu_mqtt.py:37 | `None` (the `IndexError`) exactly when the cleaned output has no `=`; the token holds no newline, carriage return or `'` |
| LegacyMonitor.TempTokenOfVcgencmd | cpu_mqtt.py:37 | from `temp=…'C` output the text between `=` and `'` comes out |
| LegacyMonitor.PublishToMqtt | cpu_mqtt.py:40-58 | exactly the three plan messages are appended |
| LegacyMonitor.LegacyPlanShape | cpu_mqtt.py:47-55 | three qos-1 messages, cpuload, cputemp, diskusage in that order, on three distinct topics under `masoko/{host}/`; the disk payload reads back as the integer |
| LegacyMonitor.RunLegacy | cpu_mqtt.py:60-68 | nothing is published when a parser raises, else exactly the three messages of the parsed values |

## Left out

- Network and MQTT I/O are not modelled: connecting, authenticating, the publish transport, disconnecting, and the `time.sleep` pacing and random start delay.
- Probe I/O becomes input values: the shell commands, `os.statvfs`, sysfs reads, `glob`, `os.listdir` and the I2C device.
  - The probe parameter of `Monitor.CollectReadings` stands for all nine probes `__main__` calls, `check_cpu_load` and `check_wifi_signal` included. Of those two only the text parsing is modelled (`Probes.LoadToken`, `Probes.WifiSignal`); `Probes.WifiProbeNeverAborts` connects the wifi probe to the run. The remaining seven return values that are inputs.
  - A probe is free to raise in the model. That `check_wifi_signal`, `check_voltage` and `check_cpu_temp` never raise is the hypothesis of `Monitor.CaughtProbesNeverAbort`, not a property of every run.
  - The CPU model name that `check_model_name` returns is a parameter of `Monitor.ConfigJsonFor`.
  - `hostname` is a parameter throughout.
- `json.dumps` of the discovery descriptor is not modelled: the descriptor is a record.
- Probes.WifiPercent: computed in exact integer arithmetic as the nearest whole number to `100 q / 70`, not in floating point.
- Probes.LoadToken: the text it receives is whatever `str(p)` produced. The CPU-count division and the `round(…, 1)` that follow are floating point and are left out.
- Ds18b20.SensorDs18b20: the token is read with `int()` syntax, not `float()`, because the sensor writes whole thousandths. The result stays in thousandths: the `/ 1000`, the `'%6.1f'` formatting and `round(…, 1)` are left out.
- DriveCheck.HwmonTemp: temperatures stay in thousandths of a degree; the `/ 1000.0` is left out.
- Sht21.TemperatureFromBuffer: scaled in exact rational arithmetic, not IEEE doubles.
- Sht21.HumidityFromBuffer: scaled in exact rational arithmetic, not IEEE doubles.
- Monitor.ToFloat: `float()` of text is the parameter `pyFloat`, standing for the library routine followed by `repr`.
- Monitor.ToInt: a float whose `repr` uses an exponent (`1e+16`) is not truncated as Python would.
- Monitor.ToFloat: an int is rendered as its digits followed by `.0`, whereas Python's `repr(float(i))` switches to exponent form (`1e+16`) once `abs(i)` reaches `10**16`; in the code the only ints that reach `float()` are the `0` fallbacks of `check_voltage` and `check_cpu_temp`.
- Monitor.Repr: `repr` of strings does not model escaping of quotes, backslashes or unprintable characters.
- Text.ParseInt: underscores between digits and non-ASCII digits, which Python's `int()` accepts, are not.
- Text.Lower: only ASCII letters are lower-cased.
- ConfigUpdate.AppendAll: the order in which the dictionary yields the missing assignments is not modelled; any order is allowed.
- Parts of `src/update.py` are not modelled:
  - The config file text, `ast.parse`, `ast.walk` and `literal_eval` are not modelled. A file is its sequence of assignments, and only simple `name = value` assignments are modelled.
  - The printed listing of `display_config_differences` is not modelled.
  - The `git pull` and `chdir` at the top level are not modelled.
- The SHT21 class plumbing is not modelled: `__init__`, `close`, `__enter__`/`__exit__`, the I2C commands and wait times.
  - Its unit tests appear only as the vectors of `Sht21.ChecksumVectors` and `Sht21.ConversionVectors`.
- The DS18B20 verbose printing and the `__main__` demo loops of `ds18b20.py`, `sht21.py` and `drive_check.py` are not modelled.
- Error messages that `drive_check.py` prints are not modelled.
- The credentials hard-coded in `cpu_mqtt.py` are not modelled.
- The disk usage of `cpu_mqtt.py`, computed in floating point from `os.statvfs`, is an integer input.
