// Selection of the alert message body (the `match alert_type` of send_alert in main.py).

module Alerts {

  /** The two alert types that have a live case in the match. */
  datatype AlertKind = LowTemperature | SensorBlocked

  /**
   * The number main fixes before the loop. The source only names it in the
   * report at main.py:163; the client call never receives it, so addressing
   * alerts to it is the intended behaviour.
   */
  const Phone: string := "whatsapp:+447484872459"

  /** The text in front of the plant name in a low-temperature alert. */
  const LowPrefix: string := "The temperature is too low for the "

  /** The sensor-blocked text; it names the cabbage whatever the plant is. */
  const BlockedBody: string := "The sensor for the cabbage is blocked."

  /** The message body sent for an alert of `kind` about the plant called `plantName`. */
  function MessageBody(kind: AlertKind, plantName: string): (body: string)
    ensures kind == LowTemperature ==>
      |body| == |LowPrefix| + |plantName| + 1 &&
      body[..|LowPrefix|] == LowPrefix &&
      body[|LowPrefix|..|LowPrefix| + |plantName|] == plantName &&
      body[|body| - 1] == '.'
  {
    match kind
    case LowTemperature => LowPrefix + plantName + "."
    case SensorBlocked => BlockedBody
  }

  /** The two kinds of alert can never be confused: their bodies always differ. */
  lemma BodiesTellKindsApart(n: string, m: string)
    ensures MessageBody(LowTemperature, n) != MessageBody(SensorBlocked, m)
  {
    var low := MessageBody(LowTemperature, n);
    assert low[4] == LowPrefix[4] == 't';
    assert BlockedBody[4] == 's';
  }

  /** A low-temperature body names its plant: different plants give different bodies. */
  lemma LowTemperatureBodyNamesPlant(n: string, m: string)
    requires MessageBody(LowTemperature, n) == MessageBody(LowTemperature, m)
    ensures n == m
  {
  }

  /** A sensor-blocked body ignores the plant name it is given. */
  lemma BlockedBodyIgnoresPlant(n: string, m: string)
    ensures MessageBody(SensorBlocked, n) == MessageBody(SensorBlocked, m) == BlockedBody
  {
  }
}
