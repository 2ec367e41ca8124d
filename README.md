# Plant monitor: bands, colours, alerts and the monitoring loop

This project models the decision logic of a Raspberry Pi plant monitor (`main.py`).
Every pass of its loop does several things. It reads a sensor row and the plant row
it points to from the database. It derives a `[min, target, max]` triple for
temperature and one for humidity. It samples temperature, humidity and light, and
writes the raw reading back to the database. It draws a sun or moon icon and tries to
send a WhatsApp alert when the sensor is blocked or the plant is too cold (as written the
attempt fails and ends the program; see Findings). Finally it shows
the two readings on the LED matrix, each in a colour that depends on where the
reading falls in its triple.

The Dafny modules follow the parts of `main.py`:

- `Rules` (`rules.dfy`): `set_rules`. A plant row becomes two `Band` values, temperature ±3 and humidity ±`hum / 100 * 10`.
- `Display` (`display.dfy`): the two colour chains of `draw_data`. A reading falls into one of five
  `Tier`s through the one comparison chain both metrics share. Each chain is also written out as the
  source has it (`TempColour`, `HumColour`), and each is proved equal to a palette applied to that tier.
  The humidity palette is the temperature palette mirrored.
- `Alerts` (`alerts.dfy`): the message-body `match` of `send_alert`.
- `Monitor` (`monitor.dfy`): the `while True` body of `main`, as the ordered list of effects one pass
  performs (`CycleTrace`, computed step by step by the method `Pass`), and the loop over a finite
  list of passes (`Loop`, proved equal to `Run`). Apart from `CycleAsWritten`, the passes are
  the corrected ones of the Findings table: an alert is recorded as sent to main's fixed number.

The database reads and the sensor sample are inputs. The clock is not used: every read of it in the source is commented out. The plant row fetched in a pass and the
reading sampled in it make up a `Cycle`, and the bands of each pass are derived from that pass's own
plant row. Writes to the database and the display, alerts and sleeps are recorded as `Effect`s.
Readings and targets are `real`.

The code has no alert memory, no profile validation and no special case for the target, and the model
follows the code:

- Alerts are level-triggered, not edge-triggered. In the corrected pass, every pass whose condition holds
  sends its alert again, and nothing is de-duplicated (`RunAlerts`, `ScenarioRepeatedBlocking`).
- Profiles are not validated. A negative humidity target gives an inverted band, and a reading at that
  target is then shown red (`HumBandInvertedBelowZero`, `HumColourNegativeTarget`).
- A reading equal to the target counts as on target only when the band's min does not exceed the target
  (`TargetIsAtTargetIff`). It is not AtTarget for every band.

## Model

| member | source | states |
|---|---|---|
| `Rules.TempBand` | main.py:60-61 | the temperature triple has the plant's target in the middle, with min 3 below and max 3 above, so min < target < max for every target |
| `Rules.HumBand` | main.py:63-64 | the humidity triple computed as `hum - hum/100*10`, `hum`, `hum + hum/100*10`, which is the target plus or minus a tenth of itself, symmetric around the target |
| `Rules.SetRules` | main.py:56-69 | set_rules returns the temperature triple `[t-3, t, t+3]` and the humidity triple `[h - h/10, h, h + h/10]` of the plant row |
| `Rules.HumBandOrderedIff` | main.py:63-67 | the humidity triple satisfies min <= target <= max exactly when the target is not negative |
| `Rules.HumBandStrictIff` | main.py:63-67 | the humidity triple is strictly increasing exactly when the target is positive |
| `Rules.HumBandDegenerateIff` | main.py:63-67 | min, target and max of the humidity triple coincide exactly when the target is zero |
| `Rules.HumBandInvertedBelowZero` | main.py:63-64 | with a negative humidity target the triple is inverted: max < target < min |
| `Display.Classify` | main.py:80-100 | the shared comparison chain puts a reading in exactly one tier: FarBelow iff below min; Below iff in [min, target); AtTarget iff equal to the target and not below min; Above iff past the target, not below min and below max; FarAbove otherwise |
| `Display.Mirror` | main.py:80-100 | the mirror of a tier sits at rank 4 minus its rank |
| `Display.HumPalette` | main.py:91-100 | the humidity palette (red, yellow, green, light blue, blue) is the temperature palette applied to the mirrored tier |
| `Display.TempColour` | main.py:80-89 | the temperature if/elif chain gives the temperature palette's colour for the reading's tier: blue, light blue, green, yellow, red |
| `Display.HumColour` | main.py:91-100 | the humidity if/elif chain gives the humidity palette's colour for the reading's tier: red, yellow, green, light blue, blue |
| `Display.ClassifyMonotone` | main.py:80-100 | for every band, ordered or not, a higher reading never gets a lower tier |
| `Display.ClassifyOrdered` | main.py:80-100 | on an ordered band each tier is an interval: below min, [min, target), the target itself, (target, max), and at or above max apart from the target |
| `Display.TargetIsAtTargetIff` | main.py:84 | a reading equal to the target is AtTarget exactly when the band's min does not exceed the target |
| `Display.ColoursMirror` | main.py:80-100 | the humidity colour of a reading is the temperature palette's colour for the mirrored tier, and the other way round |
| `Display.PalettesInjective` | main.py:80-100 | within each palette, different tiers get different colours |
| `Display.RgbInjective` | main.py:81-100 | the five colours are five different RGB triples |
| `Display.TempColourOnTempBand` | main.py:80-89 | against target t: blue below t-3, light blue on [t-3, t), green at t, yellow on (t, t+3), red from t+3 up, so a reading at max is red and not yellow |
| `Display.HumColourOnHumBand` | main.py:91-100 | against a positive target h: red below h - h/10, yellow up to h, green at h, light blue up to h + h/10, blue from h + h/10 up, so a reading at max is blue |
| `Display.HumColourZeroTarget` | main.py:91-100 | with a zero humidity target, readings below zero are red, zero is green, and readings above zero are blue |
| `Display.HumColourNegativeTarget` | main.py:91-95 | with a negative humidity target, a reading equal to the target is red, not green |
| `Alerts.MessageBody` | main.py:139-145 | the low-temperature body is the fixed prefix, then the plant name, then a full stop |
| `Alerts.BodiesTellKindsApart` | main.py:142-145 | a low-temperature body never equals a sensor-blocked body, whatever the plant names |
| `Alerts.LowTemperatureBodyNamesPlant` | main.py:142-143 | two low-temperature bodies are equal only when they name the same plant |
| `Alerts.BlockedBodyIgnoresPlant` | main.py:144-145 | the sensor-blocked body is the same fixed text about the cabbage for every plant |
| `Monitor.CycleTrace` | main.py:171-207 | one pass has 8 to 10 effects, starts by clearing the display and ends with the 10-second sleep |
| `Monitor.IconStepAlerts` | main.py:186-191 | the icon step sends one sensor-blocked alert when the light is below 50 and no alert otherwise |
| `Monitor.LowTempStepAlerts` | main.py:197-199 | the temperature step sends one low-temperature alert when the reading is below the band's min and no alert otherwise |
| `Monitor.CycleAlerts` | main.py:186-202 | a pass sends, in this order, a sensor-blocked alert iff light < 50 and a low-temperature alert iff temp < target - 3, and no other alert; in particular there is none for high temperature |
| `Monitor.CycleOrder` | main.py:171-207 | the order of a pass. Clear comes first. Persist comes second, once, with the raw temp, hum and light, the plant id and user 1. The icon comes third, once: moon iff light < 50. The sensor-blocked alert, if sent, comes next, then the 3-second sleep, then the low-temperature alert if sent. The pass ends with rotation 180, the temperature in its colour with "C", the humidity in its colour with "%", and the 10-second sleep. Every alert falls between the icon and the rotation |
| `Monitor.Run` | main.py:170-207 | the trace of n passes of the loop has between 8n and 10n effects |
| `Monitor.RunAlerts` | main.py:170-199 | the alerts over many passes are the alerts each pass calls for on its own inputs, pass after pass; no earlier alert suppresses a later one |
| `Monitor.Pass` | main.py:171-207 | the statements of the loop body, run in order, produce exactly the effects of one pass |
| `Monitor.Loop` | main.py:170-207 | running the loop over a list of passes produces the effects of every pass in turn |
| `Monitor.ScenarioTwentyFifty` | main.py:56-100 | targets 20 and 50 give the triples (17, 20, 23) and (45, 50, 55); 16 degrees is blue and sends a low-temperature alert; 20 degrees is green and sends none; humidity 55 is blue |
| `Monitor.ScenarioRepeatedBlocking` | main.py:186-189 | over six passes with the sensor blocked on the 2nd, 3rd, 4th and 6th, four sensor-blocked alerts are sent, not two |
| `Monitor.AsWrittenHaltsAtFirstAlert` | main.py:150-163 | as written, a pass stops exactly when the intended pass would send an alert. It performs the intended effects up to the first alert, and contains no alert and no display message. A pass without alerts is the intended pass |
| `Monitor.BlockedSensorHaltsAsWritten` | main.py:186-189 | as written, a pass with light 40 stops after clear, persist and the moon icon |

## Left out

- Database access (`get_sensor_data`, `get_user_data`, `get_plant_data`, `update_sensor_data`): the plant row of each pass is an input, and the write is the `Persist` effect. A missing row, which raises in the source, is not modelled.
- Sensor and display drivers (`monitor_plant`, `sense.clear`, `set_pixels`, `show_message`, `set_rotation`, gain and integration setup): the reading is an input, and the display calls are effects. The 64-pixel `moon` and `sun` patterns are reduced to the `Icon` they draw.
- Text formatting in `draw_data`: `ShowMessage` carries the raw value and its unit suffix. `round(x, 1)`, `str` and the scroll speed 0.1 are not modelled, because they depend on floating-point rounding and formatting.
- Floating point in general: readings and targets are `real`. `hum / 100 * 10` equals `hum / 10` only over the reals.
- The Twilio client in `send_alert` and its `print` report: the corrected model records a `SendAlert` effect with main's fixed number and the selected body. The source passes neither the number nor a sender to the client, so the recipient is part of the correction. The as-written failure is modelled separately (see Findings).
- Console `print` calls in `main` and `send_alert`: they are not recorded as effects.
- The infinite loop and the real-time `sleep`s: the loop runs over a finite list of passes, and each sleep is a `Pause` effect with its number of seconds.
- Commented-out code: the high-temperature alert, the daylight-hours light alert, the user phone lookup and `init_sensor`.
- Alert memory, edge-triggering, profile validation and error types: the code has none of them, so the model has none.
- `send_alert` can be called with any string, and a string with no case would leave `message_body` unbound. The model's `AlertKind` has only the two kinds that `main` passes.

## Findings

| source | as written | input that shows it | evidently intended | confidence | as-written member | corrected member |
|---|---|---|---|---|---|---|
| main.py:150-163 | `send_alert` builds its client from `account_sid` and `auth_token`, which are never defined. The `NameError` is caught, but line 163 then reads `message`, which was never bound. The `UnboundLocalError` escapes `main` and ends the program at the first alert, before anything is sent or shown. Even past that, `client.messages.create` (main.py:155-158) gets only `body=`, with no `to` or `from_`; `phone_num` is used only by the print at line 163 | a pass with light 40.0 (or a temperature below target - 3) | the alert body is sent to main's fixed number `phone_num`, or its failure is logged, and the pass goes on to rotate, show the readings and sleep | high; not executed | `Monitor.CycleAsWritten`, exhibited by `Monitor.AsWrittenHaltsAtFirstAlert` and `Monitor.BlockedSensorHaltsAsWritten` | `Monitor.CycleTrace`, whose every pass ends with the display and the sleep (`Monitor.CycleOrder`) and which `Run`, `Pass` and `Loop` use |
