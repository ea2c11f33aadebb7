# PC power monitor core, modelled in Dafny

The program polls a hardware-monitoring service for one machine's sensor
readings. It normalises the JSON it gets back: each reading is stamped with
its position and with the name of its reading type. From the readings it
then derives:

- load figures: CPU, GPU and RAM usage in percent;
- power figures: CPU and GPU power read directly, plus RAM, fan and drive
  power estimated from the configuration and the readings.

Each power figure is corrected for the efficiency of the power supply. Every
figure is then posted, one HTTP POST per figure, as a state update to a
webhook.

The model covers:

- `values.dfy` (module `PyValues`): the Python values involved.
  - Ints and floats (`Num`).
  - `round` with ties to even, and `round(x, 1)`.
  - The decimal text `str()` gives for a posted state, with a parser that
    reads it back.
- `readings.dfy` (module `Readings`):
  - a reading of the polled JSON;
  - the two configuration sections the core reads, with `getint`/`get`
    fallbacks.
- `hwinfo_utils.dfy` (module `HwinfoUtils`):
  - the lookup of a reading by label;
  - the PSU multiplier;
  - the fan power estimate.
- `webhook_service.dfy` (module `Webhook`):
  - the updates the load and power pushes post, and the request built for
    each update;
  - the class `WebhookService`, whose `sent` log records every POST in order;
  - the send-zeros path of the power push as the code is written (it
    raises), next to the corrected behaviour (it posts zeros).
- `hwinfo_service.dfy` (module `HwInfo`):
  - the reading-type table;
  - the in-place loops that write `readingTypeName` and `readingIndex` into
    the array of readings, and the error they stop at;
  - the URL of the monitoring service.

Floats are modelled by their exact rational value.

## Model

| member | source | states |
|---|---|---|
| PyValues.RoundHalfEven | service/webhook_service.py:117 | `round(x)` is an integer within 0.5 of `x`; on a tie it is the even one |
| PyValues.RoundHalfEvenUnique | service/webhook_service.py:133 | any integer with the two rounding properties is `round(x)`, so the contract pins the function down |
| PyValues.RoundOfWhole | service/webhook_service.py:117 | rounding a whole number leaves it unchanged |
| PyValues.RoundTenths | service/webhook_service.py:57 | `round(x, 1)` is a count of tenths within 0.05 of `x` |
| PyValues.NatToString | service/webhook_service.py:180 | the decimal text of a natural number is non-empty and all digits; it has one digit exactly when the number is below 10 |
| PyValues.ParseNatToString | service/webhook_service.py:180 | decimal text of a natural number parses back to the number |
| PyValues.IntToString | service/webhook_service.py:180 | `str` of an int is non-empty and starts with '-' exactly when the int is negative |
| PyValues.ParseSignedOfNat | service/webhook_service.py:180 | the digits of a magnitude, with or without a leading '-', read back as that sign and magnitude |
| PyValues.IntToStringHasNoPoint | service/webhook_service.py:180 | no character of an int's text is a decimal point |
| PyValues.ParseStateOfPoint | service/webhook_service.py:180 | a signed number followed by a point and one digit reads back as that many tenths |
| PyValues.ParseStateWhole | service/webhook_service.py:180 | the text of an int state has no decimal point and reads back as the same int |
| PyValues.ParseStateTenths | service/webhook_service.py:180 | the text of a one-decimal float, negatives included, reads back as the same number of tenths |
| PyValues.Str | service/webhook_service.py:180 | no contract of its own (Python's `str` of an int or a one-decimal float); characterised by PyValues.ParseStateStr, PyValues.ParseStateWhole and PyValues.ParseStateTenths |
| PyValues.ParseStateStr | service/webhook_service.py:180 | the posted state text determines the state: an int and a float never have the same text, and both round-trip |
| HwinfoUtils.GetIntReading | utils/hwinfo_utils.py:4-15 | the default `{value 0, unit}` comes back exactly when no reading has the label; otherwise the result is the first reading with that label |
| HwinfoUtils.GetIntReadingAt | utils/hwinfo_utils.py:12-15 | the lookup returns the reading at the first position carrying the label |
| HwinfoUtils.FirstWithLabelFound | utils/hwinfo_utils.py:12-15 | the same for every position at once: whenever a position is the first to carry the label, the lookup returns the reading there |
| HwinfoUtils.PowerMultiplier | utils/hwinfo_utils.py:18-20 | the multiplier is (200 - e)/100; it is at least 1 exactly when e <= 100 and positive exactly when e < 200 |
| HwinfoUtils.PowerMultiplierDecreasing | utils/hwinfo_utils.py:18-20 | a more efficient supply gives a strictly smaller multiplier |
| HwinfoUtils.PowerMultiplierExamples | utils/hwinfo_utils.py:18-20 | efficiency 100, 85 and 0 give multipliers 1.0, 1.15 and 2.0 |
| HwinfoUtils.FanWeight | utils/hwinfo_utils.py:24-26 | no contract of its own (full-duty fan watts from the three counts, absent counts 0); characterised by HwinfoUtils.FansPower, HwinfoUtils.FansPowerWithoutFans, HwinfoUtils.FansPowerExamples and Webhook.ExampleCounts |
| HwinfoUtils.CpuLoad | utils/hwinfo_utils.py:27-31 | no contract of its own (the configured CPU load reading's value, 0 when missing); characterised by HwinfoUtils.FansPower and HwinfoUtils.FansPowerExamples |
| HwinfoUtils.FansPower | utils/hwinfo_utils.py:23-32 | with non-negative fan counts, fan watts are at least 40 % of full-duty watts. At or below 40 % CPU load they are exactly that floor; above it they scale with the load |
| HwinfoUtils.FanDutyPower | utils/hwinfo_utils.py:32 | full-duty watts / 100 * max(40, load) meets the same floor and proportionality |
| HwinfoUtils.FanDutyPowerMonotone | utils/hwinfo_utils.py:32 | with non-negative fan counts, a higher CPU load never lowers the fan estimate |
| HwinfoUtils.FansPowerWithoutFans | utils/hwinfo_utils.py:24-32 | with no fan counts configured the estimate is 0 W for any load |
| HwinfoUtils.FansPowerExamples | utils/hwinfo_utils.py:23-32 | two 80 mm and four 120 mm fans give 15.4 W at 70 % load and the floor of 8.8 W at 10 % |
| Webhook.BuildRequest | service/webhook_service.py:179-191 | no contract of its own; characterised by Webhook.RequestCarriesUpdate and Webhook.RequestDeterminesUpdate |
| Webhook.RequestCarriesUpdate | service/webhook_service.py:179-191 | the request goes to url + device id; the state text reads back as the state pushed; it carries the friendly name, the unit, the bearer token and the JSON content type |
| Webhook.RequestDeterminesUpdate | service/webhook_service.py:179-191 | two updates that produce the same request are the same update, so the request log loses nothing |
| Webhook.RequestsSnoc | service/webhook_service.py:54-71 | posting one more update appends exactly its request after those already posted |
| Webhook.RequestsAppend | service/webhook_service.py:130-168 | posting two runs of updates posts the requests of the first run, then those of the second, as the power push does with the total and the detailed block |
| Webhook.RoundLoad | service/webhook_service.py:57 | a load is posted within 0.05 of its value; an int stays the same int, a float becomes a one-decimal float |
| Webhook.LoadUpdates | service/webhook_service.py:31-71 | no contract of its own; characterised by Webhook.LoadUpdatesLayout, Webhook.LoadUpdatesZeros, Webhook.LoadUpdatesFollowReadings and Webhook.WebhookService.PushLoadToWebhook |
| Webhook.LoadUpdatesLayout | service/webhook_service.py:54-71 | the load push posts three updates: the `_cpu_load`, `_gpu_load` and `_ram_load` ids with their names, in that order |
| Webhook.LoadUpdatesZeros | service/webhook_service.py:31-34 | in send-zeros mode all three load updates are the int 0 with unit "%" |
| Webhook.LoadUpdatesFollowReadings | service/webhook_service.py:35-71 | otherwise each of the CPU, GPU and RAM loads posted is within 0.05 of its configured reading. When a reading has the label, the first one is posted as `round(value, 1)` in its own unit; when none has it, the int 0 is posted in "%" |
| Webhook.RamPower | service/webhook_service.py:105-117 | no contract of its own; characterised by Webhook.RamPowerEstimate and Webhook.ExampleRamPower |
| Webhook.RamPowerEstimate | service/webhook_service.py:106-117 | RAM watts are (used + available)/2600 to the nearest watt; 0 W when both readings are missing |
| Webhook.DrivesPower | service/webhook_service.py:121 | drive watts are 5 times the configured drive count, and 5 W when the count is not configured |
| Webhook.Corrected | service/webhook_service.py:133 | a corrected figure is posted as an int within 0.5 W of figure times multiplier |
| Webhook.MeasuredFigures | service/webhook_service.py:94-121 | no contract of its own (the five component figures outside send-zeros mode); characterised by Webhook.ExampleFigures and Webhook.AsWrittenAgreesWhenMeasuring |
| Webhook.Total | service/webhook_service.py:124 | no contract of its own; characterised by Webhook.FigureUpdatesValues (the total is the sum of the five components) and Webhook.PowerTotalExample |
| Webhook.FigureUpdates | service/webhook_service.py:128-168 | no contract of its own; characterised by Webhook.FigureUpdatesLayout, Webhook.FigureUpdatesValues and Webhook.WebhookService.PushPowerFigures |
| Webhook.ComponentUpdates | service/webhook_service.py:137-168 | no contract of its own; characterised through Webhook.FigureUpdates by Webhook.FigureUpdatesLayout and Webhook.FigureUpdatesValues, and by Webhook.WebhookService.PushComponentFigures |
| Webhook.PowerUpdates | service/webhook_service.py:85-168 | no contract of its own; characterised by Webhook.PowerUpdatesZeros, Webhook.DeviceIds, Webhook.AsWrittenAgreesWhenMeasuring and Webhook.WebhookService.PushPowerToWebhook |
| Webhook.FigureUpdatesLayout | service/webhook_service.py:130-168 | the power push posts one update, or six when detailed. The `_total_power` update in W always comes first and is the same either way; the detailed list follows in the order cpu, gpu, ram, drives, fans, with their ids, names and units |
| Webhook.FigureUpdatesValues | service/webhook_service.py:124-168 | each of the six power figures is posted as an int within 0.5 W of its figure times the multiplier; the total's figure is the sum of the five components |
| Webhook.PowerUpdatesZeros | service/webhook_service.py:85-91 | in send-zeros mode every power update posted is the int 0 in W, whatever the efficiency (corrected behaviour, see Findings) |
| Webhook.DeviceIds | service/webhook_service.py:54-168 | the load push followed by a detailed power push posts nine updates, under the platform id followed by each suffix in turn: `_cpu_load`, `_gpu_load`, `_ram_load`, `_total_power`, `_cpu_power`, `_gpu_power`, `_ram_power`, `_drives_power`, `_fans_power` |
| Webhook.DeviceIdsDistinct | service/webhook_service.py:54-168 | the nine device ids one platform posts under are pairwise distinct |
| Webhook.ExampleLookups | utils/hwinfo_utils.py:12-15 | in the worked example each default label finds the reading that carries it |
| Webhook.ExampleCounts | service/webhook_service.py:121 | the worked example's configuration gives 22 W of fans at full duty and 15 W of drives |
| Webhook.ExampleRamPower | service/webhook_service.py:106-117 | 8,000,000 used plus 8,000,000 available gives 6154 W of RAM |
| Webhook.ExampleFansPower | utils/hwinfo_utils.py:23-32 | 22 W of fans at 70 % CPU load gives 15.4 W |
| Webhook.ExampleFigures | service/webhook_service.py:94-121 | the worked example's components: CPU and GPU readings, 6154 W RAM, 15.4 W fans, 15 W drives |
| Webhook.PowerTotalExample | service/webhook_service.py:124-135 | the worked example posts a total of 7480 W behind an 85 % efficient supply |
| Webhook.FigureUpdatesAsWritten | service/webhook_service.py:85-168 | no contract of its own (the code as written: multiplying a zero dict raises TypeError); characterised by Webhook.SendZerosRaisesAsWritten and Webhook.AsWrittenAgreesWhenMeasuring |
| Webhook.PowerUpdatesAsWritten | service/webhook_service.py:85-168 | no contract of its own; characterised by Webhook.SendZerosRaisesAsWritten and Webhook.AsWrittenAgreesWhenMeasuring |
| Webhook.SendZerosRaisesAsWritten | service/webhook_service.py:85-135 | as written, send-zeros mode raises TypeError for every input, where the corrected model posts a total of 0 |
| Webhook.AsWrittenAgreesWhenMeasuring | service/webhook_service.py:92-168 | outside send-zeros mode the code as written and the corrected model post the same updates |
| Webhook.WebhookService.constructor | service/webhook_service.py:11-19 | the service keeps its url, token and configuration and has posted nothing |
| Webhook.WebhookService.PushReadingToWebhook | service/webhook_service.py:170-192 | exactly one request, built from the update, is appended to the log |
| Webhook.WebhookService.PushLoadToWebhook | service/webhook_service.py:21-71 | the log grows by exactly the requests of the three load updates |
| Webhook.WebhookService.PushPowerToWebhook | service/webhook_service.py:73-168 | the log grows by exactly the requests of the power updates for the poll, the efficiency and the two switches |
| Webhook.WebhookService.PushPowerFigures | service/webhook_service.py:126-168 | posting the figures appends their updates' requests, total first, in order |
| Webhook.WebhookService.PushComponentFigures | service/webhook_service.py:137-168 | the detailed block appends the requests of the CPU, GPU, RAM, drives and fans updates, in that order |
| HwInfo.LookupTypeName | service/hwinfo_service.py:5-9 | no contract of its own (the table lookup by `str(code)`); characterised by HwInfo.LookupDefinedExactly, HwInfo.LookupOfDigit and HwInfo.LookupIsTypeName |
| HwInfo.LookupDefinedExactly | service/hwinfo_service.py:5-9 | looking up `str(code)` in the table succeeds exactly when the code is 0 to 8; every other int, negative ones included, raises KeyError |
| HwInfo.LookupOfDigit | service/hwinfo_service.py:5-9 | a code from 0 to 8 is looked up by its single digit and gets the name listed at its position |
| HwInfo.LookupIsTypeName | service/hwinfo_service.py:5-9 | the table lookup by text and the lookup by position agree on every int, failures included |
| HwInfo.TypeNameInjective | service/hwinfo_service.py:5-7 | no two codes share a name |
| HwInfo.TypeNameExamples | service/hwinfo_service.py:5-7 | 0 is "None", 5 is "Power", 8 is "Other"; 9 and -1 have no name |
| HwInfo.FirstUnknownType | service/hwinfo_service.py:8-9 | every reading before the position has a known type code, and the reading at the position (if any) does not |
| HwInfo.FirstUnknownTypeOfCodes | service/hwinfo_service.py:8-9 | where the loop stops depends on the type codes alone, so stamping indexes first does not move it |
| HwInfo.ChangeReadingTypes | service/hwinfo_service.py:4-10 | readings before the first unknown code get their type name in place and the rest are untouched. The same document is returned exactly when there is no unknown code; otherwise KeyError with the code as text |
| HwInfo.HwInfoService.constructor | service/hwinfo_service.py:18-24 | the URL is http://host:port/json.json |
| HwInfo.HwInfoService.GetNormalizedHwinfoJson | service/hwinfo_service.py:26-34 | every reading ends up with its index, even when naming raises. On success every reading also has a type name and nothing else changed; otherwise the KeyError of the first unknown code |

## Left out

- The HTTP GET of the monitoring service is not modelled: no timeout, no certificate switch, no `['hwinfo']` unwrapping. The fetched document is a parameter of `HwInfo.HwInfoService.GetNormalizedHwinfoJson`.
- The POST itself and the status code returned by `push_reading_to_webhook` are not modelled. A POST appends a `Request` to `sent`; network failures are out of scope.
- `utils/config_utils.py` is not part of this model. The configuration is a constructor parameter. ConfigParser's file parsing, its case-insensitive option names, and `getint` raising on text that is not an integer are not modelled.
- Floating point is modelled by exact values. Not modelled:
  - the binary representation of 2.6 and 1.15;
  - ties that binary rounding breaks differently;
  - `-0.0`;
  - exponent notation in `str()` of very large or very small floats;
  - infinities and NaN.
- Readings missing `labelOriginal`, `value` or `readingType`, and values that are not numbers, are not modelled. Every modelled reading has all its fields. Reading types are ints.
- The reading dict is modelled as a value. `get_int_reading` returns the list's own dict, but nothing the core does afterwards writes through that alias.
- JSON keys other than the readings list, and reading fields the core never reads, are left out.
- The commented-out `replaceUrlPlaceholders` (service/hwinfo_service.py:36-41) is dead code and not modelled.
- Webhook.WebhookService.PushPowerToWebhook: in send-zeros mode it posts zeros, the evidently intended behaviour, not the TypeError the code raises. The code as written is `Webhook.PowerUpdatesAsWritten` (see Findings).
- Webhook.WebhookService.PushPowerFigures is the posting half of `push_power_to_webhook`, and Webhook.WebhookService.PushComponentFigures its `if detailed:` block. They are split out so each part is proved on its own; neither is a function of its own in the source.
- The defaults `send_zeros=False` of `push_load_to_webhook` and `detailed=True`, `send_zeros=False` of `push_power_to_webhook` (service/webhook_service.py:22 and :74) are not modelled as defaults. The model takes both switches explicitly, which covers every call.

## Findings

| source | as written | input that shows it | evidently intended | confidence | as-written member | corrected member |
|---|---|---|---|---|---|---|
| service/webhook_service.py:85-135 | with `send_zeros` every power local, `total_power` included, is a dict `{'value': 0, 'unit': 'W'}`, so `total_power * power_consumption_multiplier` raises TypeError before any POST | any call of `push_power_to_webhook` with `send_zeros=True` | post a 0 W total, and 0 W for each component when detailed, as the load push does with its zeros | high; not executed | Webhook.SendZerosRaisesAsWritten | Webhook.PowerUpdatesZeros |

The `send_zeros` docstrings (service/webhook_service.py:28 and :82) say the
values are sent as 0, and both pushes build zero dicts for that mode
(service/webhook_service.py:31-34 and :85-91). The load push posts those
zeros; the power push multiplies its zero dict and raises. The model
follows the code in `Webhook.PowerUpdatesAsWritten` and uses the corrected
figures in the service class.
