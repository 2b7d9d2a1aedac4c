# Ozone beacon measurement pipeline, modelled in Dafny

The firmware of a battery-powered ozone sensor node samples three analog
channels: the ozone electrode, its reference electrode and a temperature
sensor. It turns the three raw ADC codes into a `MedicionSensor` record. The
record holds two values:

- the temperature, rounded with C `round`;
- the ozone concentration in ppm. This value is temperature-corrected, passed
  through a linear calibration fit and multiplied by 10.

The record is then broadcast in a BLE beacon.

This project models that pipeline over exact `real` arithmetic. Each stage is
a pure function:

- `Numerico`: the C numeric primitives the firmware uses. These are the `abs`
  macro, the truncating double-to-`int` conversion, and C `round` (halfway
  cases go away from zero), together with a relational definition of rounding.
- `Sensor`: the header. It holds the channel pins (5, 28, 29), the sensor
  constants, the calibration fit and the `MedicionSensor` record, which has
  exactly the two fields `temperatura` and `GasOzonoCorregido`, named as in
  the header.
- `Adaptador`: `leerValorAnalogico`. The hardware read `analogRead` is not
  modelled; its result is an integer code parameter. The converter is 10-bit,
  so codes run from 0 to 1023.
- `Correccion`: `leerOzono`, `leerTemperatura`, `obtenerConcentracionOzono` and
  `corregirConcentracionOzono`.
- `Medicion`: `obtenerMedicionSensor`. It is modelled on voltages
  (`MedicionDesdeVoltajes`), on raw codes (`ObtenerMedicionSensor`) and through
  a read function indexed by pin (`MedicionDesdeHardware`).

Behaviour of the code that the model keeps as written:

- `BIASsensor` is declared `const int` with initializer `-0.025`, so C stores
  0 and the bias has no effect on any voltage (`Sensor.BiasTruncadoACero`).
- The field `temperatura` is a `double` holding `round(t)`. The model stores a
  `real` with an integral value.
- C `round` rounds halfway cases away from zero, so -2.5 becomes -3
  (`Numerico.RedondeoEjemplos`).
- Equal ozone and reference voltages give a concentration of 0 only up to
  30 °C. Above 30 °C the zero-shift is subtracted from a zero concentration,
  so the result is positive (`Correccion.CorregirConcentracionOzono`).
- The sensitivity constant M = -35.35 × 499 × 1e-6 is -0.01763965
  (`Correccion.SensibilidadTotalNegativa`).

## Model

| member | source | states |
|---|---|---|
| Numerico.Abs | Arduino_Emite_Beacons/iBeacon.cpp:97 | the `abs` macro (also used at lines 128 and 147) yields a non-negative value equal to the input or its negation, and 0 exactly for 0 |
| Numerico.TruncarHaciaCero | Arduino_Emite_Beacons/iBeacon.h:14 | the implicit double-to-int conversion keeps the integer part: the result is within 1 of the input, on the zero side of it |
| Numerico.RedondearC | Arduino_Emite_Beacons/iBeacon.cpp:53 | C `round` yields an integer within 1/2 of its input, taking the value farther from zero on halfway cases |
| Numerico.RedondeoUnico | Arduino_Emite_Beacons/iBeacon.cpp:53 | at most one integer is a C rounding of a given real |
| Numerico.RedondearCCaracterizado | Arduino_Emite_Beacons/iBeacon.cpp:53 | `RedondearC(x) == n` holds exactly when `n` is the C rounding of `x`, in both directions |
| Numerico.RedondeoSimetrico | Arduino_Emite_Beacons/iBeacon.cpp:53 | rounding commutes with negation |
| Numerico.RedondeoEjemplos | Arduino_Emite_Beacons/iBeacon.cpp:53 | 21.6 rounds to 22, 2.5 to 3, -2.5 to -3, -2.4 to -2 |
| Sensor.Pin | Arduino_Emite_Beacons/iBeacon.h:7-9 | each channel is read from one of the pins 5, 28 or 29 |
| Sensor.PinesDistintos | Arduino_Emite_Beacons/iBeacon.h:7-9 | two channels share a pin exactly when they are the same channel |
| Sensor.BiasTruncadoACero | Arduino_Emite_Beacons/iBeacon.h:14 | the bias written as -0.025 is stored as 0 |
| Sensor.AjusteConstantesPositivas | Arduino_Emite_Beacons/iBeacon.h:17-18 | the calibration slope and intercept are both positive |
| Adaptador.LeerValorAnalogico | Arduino_Emite_Beacons/iBeacon.cpp:81-83 | code 0 gives the bias, code 1023 gives 3.3 V plus the bias, and every code in [0, 1023] lies between them |
| Adaptador.CodigoDeVoltajeInverso | Arduino_Emite_Beacons/iBeacon.cpp:81-83 | an independent inverse map recovers the code from the voltage |
| Adaptador.VoltajeMonotono | Arduino_Emite_Beacons/iBeacon.cpp:81-83 | the voltage is strictly increasing in the code, so the map is injective |
| Adaptador.VoltajePaso | Arduino_Emite_Beacons/iBeacon.cpp:81-83 | consecutive codes differ by exactly 3.3/1023 V |
| Adaptador.VoltajeEnRango | Arduino_Emite_Beacons/iBeacon.cpp:81-83 | since the stored bias is 0, every code in [0, 1023] reads as a voltage in [0, 3.3] |
| Correccion.DiferenciaOzono | Arduino_Emite_Beacons/iBeacon.cpp:97 | the ozone signal is non-negative, is one of the two signed differences, and is 0 exactly when the voltages are equal |
| Correccion.DiferenciaSimetrica | Arduino_Emite_Beacons/iBeacon.cpp:97 | the ozone signal is symmetric in the two voltages |
| Correccion.LeerOzono | Arduino_Emite_Beacons/iBeacon.cpp:94-98 | on raw codes the bias cancels: the signal is the code difference's magnitude times the resolution, and it is 0 exactly when the codes are equal |
| Correccion.VoltajeATemperatura | Arduino_Emite_Beacons/iBeacon.cpp:111-112 | 0 V gives 0 degrees, and the temperature has the sign of the voltage |
| Correccion.TemperaturaInversa | Arduino_Emite_Beacons/iBeacon.cpp:111-112 | the temperature transfer and an independent inverse compose to the identity in both orders |
| Correccion.TemperaturaLineal | Arduino_Emite_Beacons/iBeacon.cpp:111-112 | the temperature transfer is additive and homogeneous |
| Correccion.TemperaturaMonotona | Arduino_Emite_Beacons/iBeacon.cpp:111-112 | the temperature is strictly increasing in the voltage |
| Correccion.LeerTemperatura | Arduino_Emite_Beacons/iBeacon.cpp:109-113 | codes in [0, 1023] read as temperatures in [0, 57.06]; codes up to 537 read at most 30 degrees and codes from 538 read above 30 |
| Correccion.SensibilidadTotalNegativa | Arduino_Emite_Beacons/iBeacon.cpp:127 | M = sensitivity × gain × 1e-6 equals -0.01763965, which is negative and so non-zero |
| Correccion.ObtenerConcentracionOzono | Arduino_Emite_Beacons/iBeacon.cpp:126-129 | the concentration is non-negative, is 0 exactly when the signal is 0, and multiplied by abs(M) gives back abs(signal) |
| Correccion.ConcentracionEscala | Arduino_Emite_Beacons/iBeacon.cpp:126-129 | scaling the signal by k scales the concentration by abs(k) |
| Correccion.ZeroShift | Arduino_Emite_Beacons/iBeacon.cpp:144 | the zero-shift is non-negative and is 0 exactly when the temperature is at most 30 |
| Correccion.ZeroShiftMonotono | Arduino_Emite_Beacons/iBeacon.cpp:144 | the zero-shift never decreases with temperature and strictly increases above 30 |
| Correccion.ZeroShiftPendiente | Arduino_Emite_Beacons/iBeacon.cpp:144 | from 30 degrees up the zero-shift grows by exactly 0.0066 per degree; with its value 0 at 30 this fixes it as (t - 30)·0.0066 |
| Correccion.ZeroShiftLipschitz | Arduino_Emite_Beacons/iBeacon.cpp:144 | the zero-shift changes by at most 0.0066 times the change of temperature, so there is no jump at 30 |
| Correccion.SpanCorreccion | Arduino_Emite_Beacons/iBeacon.cpp:145 | the span factor is 1 exactly at 20 degrees, below 1 exactly below 20 and above 1 exactly above 20 |
| Correccion.SpanPendiente | Arduino_Emite_Beacons/iBeacon.cpp:145 | the span factor grows by exactly 0.003 per degree; with its value 1 at 20 this fixes it as 1 + (t - 20)·0.003 |
| Correccion.AjusteLineal | Arduino_Emite_Beacons/iBeacon.cpp:147 | `abs(pendiente·x·intercepto)` equals pendiente·intercepto·abs(x) and is 0 exactly when x is 0 |
| Correccion.AjusteLipschitz | Arduino_Emite_Beacons/iBeacon.cpp:147 | the fit changes by at most pendiente·intercepto times the change of its argument |
| Correccion.AjusteMonotonoProducto | Arduino_Emite_Beacons/iBeacon.cpp:146-147 | for non-negative arguments scaled by a common factor of either sign, the fit preserves their order |
| Correccion.CorregirConcentracionOzono | Arduino_Emite_Beacons/iBeacon.cpp:143-148 | the result is non-negative; with concentration 0 it is 0 up to 30 degrees and positive above; a concentration equal to the zero-shift reads as 0 |
| Correccion.CorreccionZonaMuerta | Arduino_Emite_Beacons/iBeacon.cpp:143-148 | up to 30 degrees no zero-shift enters the correction (it is the fit of the concentration times the span factor); at 20 degrees only the fit applies |
| Correccion.CorreccionDesplazada | Arduino_Emite_Beacons/iBeacon.cpp:144-147 | at every temperature the zero-shift is subtracted from the concentration: correcting c plus the zero-shift gives the fit of c times the span factor |
| Correccion.CorreccionMonotona | Arduino_Emite_Beacons/iBeacon.cpp:143-148 | for any temperature, the corrected value does not decrease as the concentration grows above the zero-shift |
| Correccion.CorreccionAcotada | Arduino_Emite_Beacons/iBeacon.cpp:143-148 | for temperatures in [0, 57.06] and concentrations in [0, 187.1] the correction is at most 299.9 |
| Medicion.MedicionDesdeVoltajes | Arduino_Emite_Beacons/iBeacon.cpp:46-54 | the stored temperature is an integral C rounding of the unrounded temperature; the stored concentration is non-negative and equals 10 times the correction computed with the unrounded temperature; equal channel voltages give 0 up to 30 degrees and a positive value above |
| Medicion.MedicionCaracterizada | Arduino_Emite_Beacons/iBeacon.cpp:52-54 | the computed record is exactly the record whose temperature is an integer in the C rounding relation with the unrounded temperature and whose concentration is 10 times the correction, so nothing else is written into it |
| Medicion.ObtenerMedicionSensor | Arduino_Emite_Beacons/iBeacon.cpp:46-54 | on raw codes: as above, with the stored temperature in [0, 57] for in-range codes; equal ozone and reference codes give 0 for temperature codes up to 537 and a positive value from 538 |
| Medicion.ConcentracionAcotada | Arduino_Emite_Beacons/iBeacon.cpp:94-98 | for in-range codes the raw concentration is at most 187.1 ppm |
| Medicion.MedicionAcotada | Arduino_Emite_Beacons/iBeacon.cpp:46-54 | for in-range codes the transmitted concentration lies in [0, 3000] |
| Medicion.MedicionDesdeHardware | Arduino_Emite_Beacons/iBeacon.cpp:46-54 | with `analogRead` as a parameter: the temperature is the integral C rounding of the reading on pin 29; the concentration is non-negative and is 10 times the correction of the pin 5 / pin 28 difference at the unrounded temperature; equal ozone and reference reads give 0 for temperature codes up to 537 (its pin dependence is stated by `Medicion.SoloTresPines`) |
| Medicion.SoloTresPines | Arduino_Emite_Beacons/iBeacon.cpp:95-110 | the measurement depends only on what the read function returns for pins 5, 28 and 29 |
| Medicion.EscenarioCompleto | Arduino_Emite_Beacons/iBeacon.cpp:46-54 | ozone 1.65 V, reference 1.60 V and temperature 0.40 V give a stored temperature of 7 and a concentration strictly between 39.27 and 39.29 |
| Medicion.CorreccionSinRedondear | Arduino_Emite_Beacons/iBeacon.cpp:50-53 | for codes (512, 496, 124), using the rounded temperature in the correction would give a different value, so the unrounded one matters |

## Left out

- BLE advertising (`startAdvertising`, iBeacon.cpp:14-35): calls into the Bluefruit library, whose source is not part of this model. This includes how the beacon converts the two double fields into its major and minor identifiers.
- Serial diagnostic printing (iBeacon.cpp:56-66): output only, with no effect on the record.
- `analogRead`: the hardware read becomes an integer code parameter, or a read function `int -> int` in `Medicion.MedicionDesdeHardware`. Codes are not clamped, as in the code.
- IEEE floating point: all arithmetic is exact `real` arithmetic. Double rounding error is not modelled. Neither is the single-precision storage of `pendiente` and `intercepto`, which are declared `float`; they are taken at their decimal values. The bounds in `Medicion.EscenarioCompleto` therefore hold for exact arithmetic.
- Which `abs` overload the Arduino core picks: modelled as the real absolute value.
