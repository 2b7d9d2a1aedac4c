/** The firmware header: channel pins, sensor and calibration constants, and
    the measurement record handed to the beacon transport. */
module Sensor {
  import opened Numerico

  /** Analog input pins of the three channels. */
  const PIN_VOzono: int := 5
  const PIN_Vref: int := 28
  const PIN_Vtemp: int := 29

  /** Sensor sensitivity (manufacturer units) and amplifier gain. */
  const SensibilidadSensor: real := -35.35
  const GananciaSensor: int := 499

  /** The bias offset as written in the header initializer. */
  const BIASsensorEscrito: real := -0.025

  /** The bias offset as stored: the constant is declared `int`, so its
      initializer is converted by truncation toward zero. */
  const BIASsensor: int := TruncarHaciaCero(BIASsensorEscrito)

  /** Final linear calibration fit, taken at their decimal values. */
  const Pendiente: real := 0.598082
  const Intercepto: real := 2.411722

  /** One measurement: the temperature (a double holding a rounded value) and
      the corrected ozone concentration in ppm times 10. */
  datatype MedicionSensor = MedicionSensor(temperatura: real, GasOzonoCorregido: real)

  /** The three logical channels the firmware samples. */
  datatype Canal = Ozono | Referencia | Temperatura

  /** The hardware pin bound to each channel. */
  function Pin(c: Canal): (p: int)
    ensures p == PIN_VOzono || p == PIN_Vref || p == PIN_Vtemp
  {
    match c
    case Ozono => PIN_VOzono
    case Referencia => PIN_Vref
    case Temperatura => PIN_Vtemp
  }

  /** Distinct channels are read from distinct pins. */
  lemma PinesDistintos(a: Canal, b: Canal)
    ensures Pin(a) == Pin(b) <==> a == b
  {
  }

  /** The declared bias of -0.025 V is stored as 0. */
  lemma BiasTruncadoACero()
    ensures BIASsensor == 0
    ensures BIASsensorEscrito != BIASsensor as real
  {
    assert (0.025).Floor == 0;
  }

  /** The calibration slope and intercept are both positive. */
  lemma AjusteConstantesPositivas()
    ensures Pendiente > 0.0 && Intercepto > 0.0
  {
  }
}
