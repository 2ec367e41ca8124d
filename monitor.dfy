// One pass of the monitor loop (the `while True` body of main in main.py) as the
// ordered list of effects it performs, and the loop itself over finitely many passes.

module Monitor {
  import opened Rules
  import opened Display
  import opened Alerts

  /** What monitor_plant returns: temperature, humidity and the clear-channel light. */
  datatype Reading = Reading(temp: real, hum: real, light: real)

  /** The inputs of one pass: the plant row fetched this pass and the sampled reading. */
  datatype Cycle = Cycle(plant: Plant, reading: Reading)

  /** The two icons draw_icon knows. */
  datatype Icon = Moon | Sun

  /** An action of the loop on the display, the database or the alert service. */
  datatype Effect =
    | Clear
    | Persist(sensorId: int, temp: real, hum: real, light: real, plantId: int, userId: int)
    | DrawIcon(icon: Icon)
    | SendAlert(to: string, kind: AlertKind, body: string)
    | Pause(seconds: nat)
    | SetRotation(degrees: int)
    | ShowMessage(value: real, unit: string, colour: Colour)

  /** The user id every persisted reading carries. */
  const UserId: int := 1
  /** Light readings below this count as a blocked sensor. */
  const LightThreshold: real := 50.0
  /** Seconds slept after the icon, and at the end of a pass. */
  const ShortPause: nat := 3
  const LongPause: nat := 10
  /** Display rotation set before the readings are shown. */
  const Rotation: int := 180

  /** The sensor is taken to be blocked when the light is under the threshold. */
  predicate Blocked(r: Reading) {
    r.light < LightThreshold
  }

  /**
   * The alert effect of a kind for a plant. The recipient is the fixed number of
   * main; the source never hands it to the client, so it belongs to the corrected pass.
   */
  function Alert(kind: AlertKind, p: Plant): Effect {
    SendAlert(Phone, kind, MessageBody(kind, p.name))
  }

  /** Icon step: moon and a sensor-blocked alert, or sun alone. */
  function IconStep(c: Cycle): seq<Effect> {
    if Blocked(c.reading) then [DrawIcon(Moon), Alert(SensorBlocked, c.plant)] else [DrawIcon(Sun)]
  }

  /** Temperature step: a low-temperature alert below the band's min; nothing above its max. */
  function LowTempStep(c: Cycle, tempRules: Band): seq<Effect> {
    if c.reading.temp < tempRules.lo then [Alert(LowTemperature, c.plant)] else []
  }

  /** draw_data: the temperature then the humidity, each in its tier colour. */
  function DrawData(temp: real, hum: real, tempRules: Band, humRules: Band): seq<Effect> {
    [ShowMessage(temp, "C", TempColour(temp, tempRules)), ShowMessage(hum, "%", HumColour(hum, humRules))]
  }

  /** Every effect of one pass, in order; the bands come from this pass's plant row. */
  function CycleTrace(sensorId: int, c: Cycle): (trace: seq<Effect>)
    ensures 8 <= |trace| <= 10
    ensures trace[0] == Clear
    ensures trace[|trace| - 1] == Pause(LongPause)
  {
    var (tempRules, humRules) := SetRules(c.plant);
    [Clear]
    + [Persist(sensorId, c.reading.temp, c.reading.hum, c.reading.light, c.plant.plantId, UserId)]
    + IconStep(c)
    + [Pause(ShortPause)]
    + LowTempStep(c, tempRules)
    + [SetRotation(Rotation)]
    + DrawData(c.reading.temp, c.reading.hum, tempRules, humRules)
    + [Pause(LongPause)]
  }

  /** The kinds of the alerts in a trace, in the order they are sent. */
  function AlertsSent(t: seq<Effect>): seq<AlertKind> {
    if t == [] then [] else (if t[0].SendAlert? then [t[0].kind] else []) + AlertsSent(t[1..])
  }

  /** A trace sends no alert exactly when none of its effects is an alert. */
  lemma {:induction false} NoAlertsSent(t: seq<Effect>)
    ensures AlertsSent(t) == [] <==> forall i :: 0 <= i < |t| ==> !t[i].SendAlert?
  {
    if t != [] {
      NoAlertsSent(t[1..]);
      assert forall i :: 1 <= i < |t| ==> t[i] == t[1..][i - 1];
    }
  }

  lemma {:induction false} AlertsSentAppend(a: seq<Effect>, b: seq<Effect>)
    ensures AlertsSent(a + b) == AlertsSent(a) + AlertsSent(b)
  {
    if a == [] {
      assert a + b == b;
    } else {
      assert (a + b)[0] == a[0];
      assert (a + b)[1..] == a[1..] + b;
      AlertsSentAppend(a[1..], b);
    }
  }

  /** The icon step sends the sensor-blocked alert exactly when the sensor is blocked. */
  lemma IconStepAlerts(c: Cycle)
    ensures AlertsSent(IconStep(c)) == if Blocked(c.reading) then [SensorBlocked] else []
  {
    var icon := IconStep(c);
    if Blocked(c.reading) {
      assert icon[1..][1..] == [];
      assert AlertsSent(icon[1..]) == [SensorBlocked];
    }
  }

  /** The temperature step sends the low-temperature alert exactly below the band's min. */
  lemma LowTempStepAlerts(c: Cycle, tempRules: Band)
    ensures AlertsSent(LowTempStep(c, tempRules)) == if c.reading.temp < tempRules.lo then [LowTemperature] else []
  {
  }

  /** The alerts one pass ought to send, from its own inputs alone. */
  function ExpectedAlerts(c: Cycle): seq<AlertKind> {
    (if c.reading.light < 50.0 then [SensorBlocked] else [])
    + (if c.reading.temp < c.plant.temp - 3.0 then [LowTemperature] else [])
  }

  /**
   * A pass sends exactly one sensor-blocked alert when the light is under 50,
   * then exactly one low-temperature alert when the temperature is under
   * target - 3, and no other alert (in particular none for high temperature).
   */
  lemma CycleAlerts(sensorId: int, c: Cycle)
    ensures AlertsSent(CycleTrace(sensorId, c)) == ExpectedAlerts(c)
  {
    var tempRules, humRules := TempBand(c.plant.temp), HumBand(c.plant.hum);
    QuietPieces(sensorId, c, tempRules, humRules);
    IconStepAlerts(c);
    LowTempStepAlerts(c, tempRules);
    var persist := [Persist(sensorId, c.reading.temp, c.reading.hum, c.reading.light, c.plant.plantId, UserId)];
    var s1 := [Clear] + persist;
    QuietAppend([Clear], persist);
    var s2 := s1 + IconStep(c);
    AlertsSentAppend(s1, IconStep(c));
    var s3 := s2 + [Pause(ShortPause)];
    QuietAppend(s2, [Pause(ShortPause)]);
    var s4 := s3 + LowTempStep(c, tempRules);
    AlertsSentAppend(s3, LowTempStep(c, tempRules));
    var s5 := s4 + [SetRotation(Rotation)];
    QuietAppend(s4, [SetRotation(Rotation)]);
    var s6 := s5 + DrawData(c.reading.temp, c.reading.hum, tempRules, humRules);
    QuietAppend(s5, DrawData(c.reading.temp, c.reading.hum, tempRules, humRules));
    QuietAppend(s6, [Pause(LongPause)]);
  }

  /** Appending a piece that sends nothing leaves the alerts as they were. */
  lemma QuietAppend(a: seq<Effect>, b: seq<Effect>)
    requires AlertsSent(b) == []
    ensures AlertsSent(a + b) == AlertsSent(a)
  {
    AlertsSentAppend(a, b);
    assert AlertsSent(a) + [] == AlertsSent(a);
  }

  /** Clearing, persisting, sleeping, rotating and showing send no alert. */
  lemma QuietPieces(sensorId: int, c: Cycle, tempRules: Band, humRules: Band)
    ensures AlertsSent([Clear]) == []
    ensures AlertsSent([Persist(sensorId, c.reading.temp, c.reading.hum, c.reading.light, c.plant.plantId, UserId)]) == []
    ensures AlertsSent([Pause(ShortPause)]) == [] && AlertsSent([Pause(LongPause)]) == []
    ensures AlertsSent([SetRotation(Rotation)]) == []
    ensures AlertsSent(DrawData(c.reading.temp, c.reading.hum, tempRules, humRules)) == []
  {
    NoAlertsSent([Clear]);
    NoAlertsSent([Persist(sensorId, c.reading.temp, c.reading.hum, c.reading.light, c.plant.plantId, UserId)]);
    NoAlertsSent([Pause(ShortPause)]);
    NoAlertsSent([Pause(LongPause)]);
    NoAlertsSent([SetRotation(Rotation)]);
    NoAlertsSent(DrawData(c.reading.temp, c.reading.hum, tempRules, humRules));
  }

  /**
   * The order of one pass: clear, persist the raw reading with plant id and
   * user 1, the icon (moon exactly when blocked) and its alert, the short
   * pause, the low-temperature alert if any, rotation, temperature then
   * humidity in their colours, the long pause. Persist and the icon occur once,
   * and every alert falls between the icon and the rotation.
   */
  lemma CycleOrder(sensorId: int, c: Cycle)
    ensures var t := CycleTrace(sensorId, c);
      var k := if Blocked(c.reading) then 1 else 0;
      var n := |t|;
      && t[0] == Clear
      && t[1] == Persist(sensorId, c.reading.temp, c.reading.hum, c.reading.light, c.plant.plantId, 1)
      && t[2] == DrawIcon(if c.reading.light < 50.0 then Moon else Sun)
      && (Blocked(c.reading) ==> t[3] == SendAlert(Phone, SensorBlocked, BlockedBody))
      && t[3 + k] == Pause(ShortPause)
      && (c.reading.temp < c.plant.temp - 3.0 ==>
            t[4 + k] == SendAlert(Phone, LowTemperature, MessageBody(LowTemperature, c.plant.name)))
      && n == 8 + k + (if c.reading.temp < c.plant.temp - 3.0 then 1 else 0)
      && t[n - 4] == SetRotation(180)
      && t[n - 3] == ShowMessage(c.reading.temp, "C", TempColour(c.reading.temp, TempBand(c.plant.temp)))
      && t[n - 2] == ShowMessage(c.reading.hum, "%", HumColour(c.reading.hum, HumBand(c.plant.hum)))
      && t[n - 1] == Pause(10)
      && (forall i :: 0 <= i < n && t[i].Persist? ==> i == 1)
      && (forall i :: 0 <= i < n && t[i].DrawIcon? ==> i == 2)
      && (forall i :: 0 <= i < n && t[i].SendAlert? ==> 3 <= i < n - 4)
  {
  }

  /** The trace of the first `|cycles|` passes of the loop. */
  function Run(sensorId: int, cycles: seq<Cycle>): (trace: seq<Effect>)
    ensures 8 * |cycles| <= |trace| <= 10 * |cycles|
    decreases |cycles|
  {
    if cycles == [] then []
    else Run(sensorId, cycles[..|cycles| - 1]) + CycleTrace(sensorId, cycles[|cycles| - 1])
  }

  /** One more pass of the loop appends that pass's trace. */
  lemma RunStep(sensorId: int, cycles: seq<Cycle>, k: nat)
    requires k < |cycles|
    ensures Run(sensorId, cycles[..k + 1]) == Run(sensorId, cycles[..k]) + CycleTrace(sensorId, cycles[k])
  {
    assert cycles[..k + 1][..k] == cycles[..k];
  }

  /** The alerts of each pass, pass after pass. */
  function ExpectedRunAlerts(cycles: seq<Cycle>): seq<AlertKind>
    decreases |cycles|
  {
    if cycles == [] then []
    else ExpectedRunAlerts(cycles[..|cycles| - 1]) + ExpectedAlerts(cycles[|cycles| - 1])
  }

  /**
   * The loop keeps no alert history: each pass sends the alerts its own
   * reading calls for, however many passes before it sent the same ones.
   */
  lemma {:induction false} RunAlerts(sensorId: int, cycles: seq<Cycle>)
    ensures AlertsSent(Run(sensorId, cycles)) == ExpectedRunAlerts(cycles)
    decreases |cycles|
  {
    if cycles != [] {
      var init, last := cycles[..|cycles| - 1], cycles[|cycles| - 1];
      RunAlerts(sensorId, init);
      AlertsSentAppend(Run(sensorId, init), CycleTrace(sensorId, last));
      CycleAlerts(sensorId, last);
    }
  }

  /**
   * One pass of main's loop body: the statements in order, each appending
   * the effect it has on the display, the database or the alert service.
   */
  method Pass(sensorId: int, c: Cycle) returns (pass: seq<Effect>)
    ensures pass == CycleTrace(sensorId, c)
  {
    var plant, reading := c.plant, c.reading;
    pass := [Clear];
    var (tempRules, humRules) := SetRules(plant);
    pass := pass + [Persist(sensorId, reading.temp, reading.hum, reading.light, plant.plantId, UserId)];
    if reading.light < LightThreshold {
      pass := pass + [DrawIcon(Moon), SendAlert(Phone, SensorBlocked, MessageBody(SensorBlocked, plant.name))];
    } else {
      pass := pass + [DrawIcon(Sun)];
    }
    pass := pass + [Pause(ShortPause)];
    if reading.temp < tempRules.lo {
      pass := pass + [SendAlert(Phone, LowTemperature, MessageBody(LowTemperature, plant.name))];
    }
    pass := pass + [SetRotation(Rotation)];
    pass := pass + [ShowMessage(reading.temp, "C", TempColour(reading.temp, tempRules)),
                    ShowMessage(reading.hum, "%", HumColour(reading.hum, humRules))];
    pass := pass + [Pause(LongPause)];
  }

  /** The loop of main over the given passes, one pass after another. */
  method Loop(sensorId: int, cycles: seq<Cycle>) returns (trace: seq<Effect>)
    ensures trace == Run(sensorId, cycles)
  {
    trace := [];
    var k := 0;
    while k < |cycles|
      invariant 0 <= k <= |cycles|
      invariant trace == Run(sensorId, cycles[..k])
    {
      var pass := Pass(sensorId, cycles[k]);
      RunStep(sensorId, cycles, k);
      trace := trace + pass;
      k := k + 1;
    }
    assert cycles[..k] == cycles;
  }

  /** A plant with targets 20 degrees and 50 percent humidity. */
  const Basil: Plant := Plant(7, "basil", 20.0, 50.0)

  /** Bands (17, 20, 23) and (45, 50, 55); 16 degrees is blue and alerts, 20 is green and does not. */
  lemma ScenarioTwentyFifty()
    ensures SetRules(Basil) == (Band(17.0, 20.0, 23.0), Band(45.0, 50.0, 55.0))
    ensures TempColour(16.0, TempBand(20.0)) == Blue && TempColour(20.0, TempBand(20.0)) == Green
    ensures HumColour(55.0, HumBand(50.0)) == Blue
    ensures AlertsSent(CycleTrace(1, Cycle(Basil, Reading(16.0, 50.0, 200.0)))) == [LowTemperature]
    ensures AlertsSent(CycleTrace(1, Cycle(Basil, Reading(20.0, 50.0, 200.0)))) == []
  {
    CycleAlerts(1, Cycle(Basil, Reading(16.0, 50.0, 200.0)));
    CycleAlerts(1, Cycle(Basil, Reading(20.0, 50.0, 200.0)));
  }

  /**
   * Blocked on the 2nd, 3rd, 4th and 6th of six passes: four sensor-blocked alerts, one
   * per blocked pass, not one per change from clear to blocked.
   */
  lemma ScenarioRepeatedBlocking()
    ensures var lit, dark := Cycle(Basil, Reading(20.0, 50.0, 200.0)), Cycle(Basil, Reading(20.0, 50.0, 40.0));
      AlertsSent(Run(1, [lit, dark, dark, dark, lit, dark]))
        == [SensorBlocked, SensorBlocked, SensorBlocked, SensorBlocked]
  {
    var lit, dark := Cycle(Basil, Reading(20.0, 50.0, 200.0)), Cycle(Basil, Reading(20.0, 50.0, 40.0));
    var cs := [lit, dark, dark, dark, lit, dark];
    RunAlerts(1, cs);
    assert ExpectedAlerts(lit) == [] && ExpectedAlerts(dark) == [SensorBlocked];
    assert cs[..5] == [lit, dark, dark, dark, lit];
    assert [lit, dark, dark, dark, lit][..4] == [lit, dark, dark, dark];
    assert [lit, dark, dark, dark][..3] == [lit, dark, dark];
    assert [lit, dark, dark][..2] == [lit, dark];
    assert [lit, dark][..1] == [lit];
    assert [lit][..0] == [];
    assert ExpectedRunAlerts([lit]) == [];
    assert ExpectedRunAlerts([lit, dark]) == [SensorBlocked];
    assert ExpectedRunAlerts([lit, dark, dark]) == [SensorBlocked, SensorBlocked];
    assert ExpectedRunAlerts([lit, dark, dark, dark]) == [SensorBlocked, SensorBlocked, SensorBlocked];
    assert ExpectedRunAlerts([lit, dark, dark, dark, lit]) == [SensorBlocked, SensorBlocked, SensorBlocked];
  }

  /** How a pass of the loop ends as the source is written. */
  datatype CycleEnd = Completed(effects: seq<Effect>) | Halted(effects: seq<Effect>)

  /**
   * A pass as written: send_alert builds its client from names that are never
   * defined, the resulting error is caught, and the report that follows reads
   * a `message` that was never bound, so the error escapes main and the
   * process stops at its first alert, with nothing sent and nothing shown.
   */
  function CycleAsWritten(sensorId: int, c: Cycle): CycleEnd {
    var (tempRules, humRules) := SetRules(c.plant);
    var head := [Clear, Persist(sensorId, c.reading.temp, c.reading.hum, c.reading.light, c.plant.plantId, UserId)];
    if Blocked(c.reading) then Halted(head + [DrawIcon(Moon)])
    else if c.reading.temp < tempRules.lo then Halted(head + [DrawIcon(Sun), Pause(ShortPause)])
    else Completed(head + [DrawIcon(Sun), Pause(ShortPause), SetRotation(Rotation)]
                   + DrawData(c.reading.temp, c.reading.hum, tempRules, humRules) + [Pause(LongPause)])
  }

  /**
   * As written, a pass halts exactly when the intended pass sends an alert; it
   * then performs the intended effects up to the first alert, sends no alert
   * and shows nothing. A pass without alerts is the intended one.
   */
  lemma AsWrittenHaltsAtFirstAlert(sensorId: int, c: Cycle)
    ensures var w, t := CycleAsWritten(sensorId, c), CycleTrace(sensorId, c);
      && (w.Halted? <==> ExpectedAlerts(c) != [])
      && (w.Completed? ==> w.effects == t)
      && (w.Halted? ==> |w.effects| < |t| && w.effects == t[..|w.effects|] && t[|w.effects|].SendAlert?)
      && (forall i :: w.Halted? && 0 <= i < |w.effects| ==> !w.effects[i].SendAlert?)
      && (forall i :: w.Halted? && 0 <= i < |w.effects| ==> !w.effects[i].ShowMessage?)
  {
  }

  /** The input that shows it: light 40 stops the program before anything is shown. */
  lemma BlockedSensorHaltsAsWritten()
    ensures CycleAsWritten(1, Cycle(Basil, Reading(20.0, 50.0, 40.0)))
      == Halted([Clear, Persist(1, 20.0, 50.0, 40.0, 7, 1), DrawIcon(Moon)])
  {
  }
}
