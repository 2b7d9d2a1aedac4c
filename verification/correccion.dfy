/** The measurement-correction engine: voltages become a temperature, a raw
    ozone concentration, and a temperature-corrected, calibrated concentration. */
module Correccion {
  import opened Numerico
  import opened Sensor
  import opened Adaptador

  // ---------------------------------------------------------------- ozone signal

  /** The differential ozone signal: the absolute difference of the ozone and
      reference channel voltages. */
  function DiferenciaOzono(vOzono: real, vRef: real): (d: real)
    ensures d >= 0.0
    ensures d == 0.0 <==> vOzono == vRef
    ensures d == vOzono - vRef || d == vRef - vOzono
  {
    Abs(vOzono - vRef)
  }

  /** The signal does not depend on which channel is named first. */
  lemma DiferenciaSimetrica(a: real, b: real)
    ensures DiferenciaOzono(a, b) == DiferenciaOzono(b, a)
  {
  }

  /** `leerOzono` on two raw codes. The bias is added to both channels and
      cancels, so the signal is the code difference times the resolution. */
  function LeerOzono(codigoOzono: int, codigoRef: int): (d: real)
    ensures d >= 0.0
    ensures d == 0.0 <==> codigoOzono == codigoRef
    ensures d == Abs((codigoOzono - codigoRef) as real) * ResolucionVoltios
  {
    VoltajeMonotono(codigoOzono, codigoRef);
    DiferenciaOzono(LeerValorAnalogico(codigoOzono), LeerValorAnalogico(codigoRef))
  }

  // ---------------------------------------------------------------- temperature

  /** Ratio correcting the nominal-versus-measured reference mismatch. */
  const FactorCalibracion: real := 26.10 / 18.87

  /** Degrees per volt of the complete temperature transfer. */
  const GradosPorVoltio: real := 125.0 / 10.0 * FactorCalibracion

  /** The temperature part of `leerTemperatura`, on a voltage. */
  function VoltajeATemperatura(v: real): (t: real)
    ensures v == 0.0 ==> t == 0.0
    ensures v > 0.0 <==> t > 0.0
    ensures v < 0.0 <==> t < 0.0
  {
    (v * 125.0 / 10.0) * FactorCalibracion
  }

  /** Independent inverse of the temperature transfer. */
  function TemperaturaAVoltaje(t: real): real {
    t / GradosPorVoltio
  }

  /** The temperature transfer and its inverse compose to the identity both ways. */
  lemma TemperaturaInversa(v: real, t: real)
    ensures TemperaturaAVoltaje(VoltajeATemperatura(v)) == v
    ensures VoltajeATemperatura(TemperaturaAVoltaje(t)) == t
  {
  }

  /** The temperature transfer is linear. */
  lemma TemperaturaLineal(a: real, b: real, k: real)
    ensures VoltajeATemperatura(a + b) == VoltajeATemperatura(a) + VoltajeATemperatura(b)
    ensures VoltajeATemperatura(k * a) == k * VoltajeATemperatura(a)
  {
  }

  /** The temperature transfer is strictly increasing. */
  lemma TemperaturaMonotona(a: real, b: real)
    ensures a < b <==> VoltajeATemperatura(a) < VoltajeATemperatura(b)
  {
  }

  /** `leerTemperatura` on the raw code of the temperature channel. */
  function LeerTemperatura(codigo: int): (t: real)
    ensures 0 <= codigo <= CodigoMaximo ==> 0.0 <= t <= 57.06
    ensures 0 <= codigo <= 537 ==> t <= 30.0
    ensures 538 <= codigo ==> t > 30.0
  {
    BiasTruncadoACero();
    VoltajeATemperatura(LeerValorAnalogico(codigo))
  }

  // ---------------------------------------------------------------- concentration

  /** The sensitivity constant M of the conversion from volts to ppm. */
  const SensibilidadTotal: real := SensibilidadSensor * GananciaSensor as real * 0.000001

  /** M is negative, hence non-zero: the division defining concentration is defined. */
  lemma SensibilidadTotalNegativa()
    ensures SensibilidadTotal < 0.0
    ensures SensibilidadTotal == -0.01763965
  {
  }

  /** `obtenerConcentracionOzono`: the absolute value of the signal divided by M. */
  function ObtenerConcentracionOzono(valorOzono: real): (c: real)
    ensures c >= 0.0
    ensures c == 0.0 <==> valorOzono == 0.0
    ensures c * Abs(SensibilidadTotal) == Abs(valorOzono)
  {
    Abs(valorOzono / SensibilidadTotal)
  }

  /** Concentration scales with the magnitude of the signal. */
  lemma ConcentracionEscala(v: real, k: real)
    ensures ObtenerConcentracionOzono(k * v) == Abs(k) * ObtenerConcentracionOzono(v)
  {
  }

  // ---------------------------------------------------------------- correction

  /** Zero-shift threshold and slope; span reference temperature and slope. */
  const UmbralZeroShift: real := 30.0
  const CoeficienteZeroShift: real := 0.0066
  const TemperaturaReferenciaSpan: real := 20.0
  const CoeficienteSpan: real := 0.003

  /** Zero-shift: none up to 30 degrees, then growing with the excess. */
  function ZeroShift(t: real): (z: real)
    ensures z >= 0.0
    ensures t <= UmbralZeroShift <==> z == 0.0
  {
    if t > 30.0 then (t - 30.0) * 0.0066 else 0.0
  }

  /** Zero-shift never decreases, and strictly increases above the threshold. */
  lemma ZeroShiftMonotono(a: real, b: real)
    requires a <= b
    ensures ZeroShift(a) <= ZeroShift(b)
    ensures UmbralZeroShift <= a < b ==> ZeroShift(a) < ZeroShift(b)
  {
  }

  /** Above the threshold the zero-shift grows at exactly 0.0066 per degree. */
  lemma ZeroShiftPendiente(a: real, b: real)
    requires UmbralZeroShift <= a <= b
    ensures ZeroShift(b) - ZeroShift(a) == CoeficienteZeroShift * (b - a)
  {
  }

  /** Zero-shift is continuous at the threshold: it changes by at most its
      slope times the change of temperature. */
  lemma ZeroShiftLipschitz(a: real, b: real)
    ensures Abs(ZeroShift(a) - ZeroShift(b)) <= CoeficienteZeroShift * Abs(a - b)
  {
  }

  /** Span factor, referenced to 20 degrees. */
  function SpanCorreccion(t: real): (s: real)
    ensures s == 1.0 <==> t == TemperaturaReferenciaSpan
    ensures s < 1.0 <==> t < TemperaturaReferenciaSpan
    ensures s > 1.0 <==> t > TemperaturaReferenciaSpan
  {
    1.0 + (t - 20.0) * 0.003
  }

  /** The span factor grows at exactly 0.003 per degree, at every temperature. */
  lemma SpanPendiente(a: real, b: real)
    ensures SpanCorreccion(b) - SpanCorreccion(a) == CoeficienteSpan * (b - a)
  {
  }

  /** The final calibration fit `|pendiente * x * intercepto|`. */
  function AjusteLineal(x: real): (r: real)
    ensures r == Pendiente * Intercepto * Abs(x)
    ensures r == 0.0 <==> x == 0.0
  {
    AjusteConstantesPositivas();
    Abs(Pendiente * x * Intercepto)
  }

  /** On non-negative arguments scaled by a common factor of either sign, the
      fit preserves their order: it depends only on magnitudes. */
  lemma AjusteMonotonoProducto(a1: real, a2: real, s: real)
    requires 0.0 <= a1 <= a2
    ensures AjusteLineal(a1 * s) <= AjusteLineal(a2 * s)
  {
    AbsProducto(a1, s);
    AbsProducto(a2, s);
    assert Abs(a1) == a1 && Abs(a2) == a2;
    ProductoAcotado(a1, Abs(s), a2, Abs(s));
    assert Abs(a1 * s) <= Abs(a2 * s);
    AjusteConstantesPositivas();
    ProductoAcotado(Pendiente * Intercepto, Abs(a1 * s), Pendiente * Intercepto, Abs(a2 * s));
  }

  /** The fit changes by at most its gain times the change of its argument. */
  lemma AjusteLipschitz(x1: real, x2: real)
    ensures Abs(AjusteLineal(x1) - AjusteLineal(x2)) <= Pendiente * Intercepto * Abs(x1 - x2)
  {
    var k := Pendiente * Intercepto;
    AjusteConstantesPositivas();
    assert AjusteLineal(x1) - AjusteLineal(x2) == k * (Abs(x1) - Abs(x2));
    AbsProducto(k, Abs(x1) - Abs(x2));
    ProductoAcotado(k, Abs(Abs(x1) - Abs(x2)), k, Abs(x1 - x2));
  }

  /** `corregirConcentracionOzono` (without the final scaling by 10). */
  function CorregirConcentracionOzono(temperatura: real, concentracionOzono: real): (r: real)
    ensures r >= 0.0
    ensures temperatura <= UmbralZeroShift && concentracionOzono == 0.0 ==> r == 0.0
    ensures temperatura > UmbralZeroShift && concentracionOzono == 0.0 ==> r > 0.0
    ensures concentracionOzono == ZeroShift(temperatura) ==> r == 0.0
  {
    var zeroShift := ZeroShift(temperatura);
    var spanCorreccion := SpanCorreccion(temperatura);
    var concentracionCorregida := (concentracionOzono - zeroShift) * spanCorreccion;
    AjusteLineal(concentracionCorregida)
  }

  /** Up to 30 degrees the zero-shift does not enter the correction, and at
      the 20-degree span reference only the calibration fit applies. */
  lemma CorreccionZonaMuerta(t: real, c: real)
    ensures t <= UmbralZeroShift ==> CorregirConcentracionOzono(t, c) == AjusteLineal(c * SpanCorreccion(t))
    ensures t == TemperaturaReferenciaSpan ==> CorregirConcentracionOzono(t, c) == AjusteLineal(c)
  {
  }

  /** The zero-shift is subtracted from the raw concentration at every
      temperature: a concentration raised by the zero-shift is corrected as
      the bare concentration scaled by the span factor. */
  lemma CorreccionDesplazada(t: real, c: real)
    ensures CorregirConcentracionOzono(t, c + ZeroShift(t)) == AjusteLineal(c * SpanCorreccion(t))
  {
  }

  /** Above the zero-shift the corrected value does not decrease as the raw
      concentration grows, whatever the sign of the span factor. */
  lemma CorreccionMonotona(t: real, c1: real, c2: real)
    requires ZeroShift(t) <= c1 <= c2
    ensures CorregirConcentracionOzono(t, c1) <= CorregirConcentracionOzono(t, c2)
  {
    AjusteMonotonoProducto(c1 - ZeroShift(t), c2 - ZeroShift(t), SpanCorreccion(t));
  }

  /** Over the temperature range of in-range codes, and for the largest
      concentration a full-scale signal yields, the correction stays below 299.9. */
  lemma CorreccionAcotada(t: real, c: real)
    requires 0.0 <= t <= 57.06 && 0.0 <= c <= 187.1
    ensures CorregirConcentracionOzono(t, c) <= 299.9
  {
    var z := ZeroShift(t);
    var s := SpanCorreccion(t);
    assert 0.0 <= z <= 0.2;
    assert 0.9 <= s <= 1.1112;
    var x := (c - z) * s;
    AbsProducto(c - z, s);
    ProductoAcotado(Abs(c - z), s, 187.1, 1.1112);
    AjusteConstantesPositivas();
  }
}
