/** Assembly of one measurement record from one acquisition pass. */
module Medicion {
  import opened Numerico
  import opened Sensor
  import opened Adaptador
  import opened Correccion

  /** Fixed-point transport factor: one decimal digit of ppm is kept. */
  const EscalaTransporte: real := 10.0

  /** `obtenerMedicionSensor` on the three channel voltages. The stored
      temperature is rounded; the correction uses the unrounded one. */
  function MedicionDesdeVoltajes(vOzono: real, vRef: real, vTemp: real): (m: MedicionSensor)
    ensures m.GasOzonoCorregido >= 0.0
    ensures m.temperatura == m.temperatura.Floor as real
    ensures EsRedondeoC(VoltajeATemperatura(vTemp), m.temperatura.Floor)
    ensures m.GasOzonoCorregido / EscalaTransporte ==
              CorregirConcentracionOzono(VoltajeATemperatura(vTemp),
                                         ObtenerConcentracionOzono(DiferenciaOzono(vOzono, vRef)))
    ensures vOzono == vRef && VoltajeATemperatura(vTemp) <= UmbralZeroShift ==>
              m.GasOzonoCorregido == 0.0
    ensures vOzono == vRef && VoltajeATemperatura(vTemp) > UmbralZeroShift ==>
              m.GasOzonoCorregido > 0.0
  {
    var temperatura := VoltajeATemperatura(vTemp);
    var valorOzono := DiferenciaOzono(vOzono, vRef);
    var concentracionOzono := ObtenerConcentracionOzono(valorOzono);
    var concentracionCorregida := CorregirConcentracionOzono(temperatura, concentracionOzono) * 10.0;
    MedicionSensor(RedondearC(temperatura) as real, concentracionCorregida)
  }

  /** The record holds nothing but these two values: the computed record is
      the one whose temperature is any integer satisfying the C rounding
      relation for the unrounded temperature and whose concentration is 10
      times the correction. */
  lemma MedicionCaracterizada(vOzono: real, vRef: real, vTemp: real, n: int, g: real)
    requires EsRedondeoC(VoltajeATemperatura(vTemp), n)
    requires g == EscalaTransporte * CorregirConcentracionOzono(VoltajeATemperatura(vTemp),
                                       ObtenerConcentracionOzono(DiferenciaOzono(vOzono, vRef)))
    ensures MedicionDesdeVoltajes(vOzono, vRef, vTemp) == MedicionSensor(n as real, g)
  {
    RedondeoUnico(VoltajeATemperatura(vTemp), n, RedondearC(VoltajeATemperatura(vTemp)));
  }

  /** `obtenerMedicionSensor` on the three raw ADC codes. */
  function ObtenerMedicionSensor(codigoOzono: int, codigoRef: int, codigoTemp: int): (m: MedicionSensor)
    ensures m.GasOzonoCorregido >= 0.0
    ensures m.temperatura == m.temperatura.Floor as real
    ensures EsRedondeoC(LeerTemperatura(codigoTemp), m.temperatura.Floor)
    ensures 0 <= codigoTemp <= CodigoMaximo ==> 0.0 <= m.temperatura <= 57.0
    ensures m.GasOzonoCorregido / EscalaTransporte ==
              CorregirConcentracionOzono(LeerTemperatura(codigoTemp),
                                         ObtenerConcentracionOzono(LeerOzono(codigoOzono, codigoRef)))
    ensures codigoOzono == codigoRef && 0 <= codigoTemp <= 537 ==> m.GasOzonoCorregido == 0.0
    ensures codigoOzono == codigoRef && 538 <= codigoTemp ==> m.GasOzonoCorregido > 0.0
  {
    var vOzono, vRef := LeerValorAnalogico(codigoOzono), LeerValorAnalogico(codigoRef);
    var vTemp := LeerValorAnalogico(codigoTemp);
    assert LeerTemperatura(codigoTemp) == VoltajeATemperatura(vTemp);
    assert LeerOzono(codigoOzono, codigoRef) == DiferenciaOzono(vOzono, vRef);
    MedicionDesdeVoltajes(vOzono, vRef, vTemp)
  }

  /** A full-scale differential signal yields at most 187.1 ppm. */
  lemma ConcentracionAcotada(codigoOzono: int, codigoRef: int)
    requires 0 <= codigoOzono <= CodigoMaximo && 0 <= codigoRef <= CodigoMaximo
    ensures ObtenerConcentracionOzono(LeerOzono(codigoOzono, codigoRef)) <= 187.1
  {
  }

  /** For in-range codes the transmitted concentration lies in [0, 3000]. */
  lemma MedicionAcotada(codigoOzono: int, codigoRef: int, codigoTemp: int)
    requires 0 <= codigoOzono <= CodigoMaximo && 0 <= codigoRef <= CodigoMaximo
    requires 0 <= codigoTemp <= CodigoMaximo
    ensures 0.0 <= ObtenerMedicionSensor(codigoOzono, codigoRef, codigoTemp).GasOzonoCorregido <= 3000.0
  {
    ConcentracionAcotada(codigoOzono, codigoRef);
    CorreccionAcotada(LeerTemperatura(codigoTemp),
                      ObtenerConcentracionOzono(LeerOzono(codigoOzono, codigoRef)));
  }

  /** The measurement taken through a hardware read function, one call per
      channel pin. */
  function MedicionDesdeHardware(analogRead: int -> int): (m: MedicionSensor)
    ensures m.GasOzonoCorregido >= 0.0
    ensures m.temperatura == m.temperatura.Floor as real
    ensures EsRedondeoC(LeerTemperatura(analogRead(PIN_Vtemp)), m.temperatura.Floor)
    ensures m.GasOzonoCorregido / EscalaTransporte ==
              CorregirConcentracionOzono(LeerTemperatura(analogRead(PIN_Vtemp)),
                ObtenerConcentracionOzono(LeerOzono(analogRead(PIN_VOzono), analogRead(PIN_Vref))))
    ensures analogRead(PIN_VOzono) == analogRead(PIN_Vref) && 0 <= analogRead(PIN_Vtemp) <= 537 ==>
              m.GasOzonoCorregido == 0.0
  {
    ObtenerMedicionSensor(analogRead(Pin(Ozono)), analogRead(Pin(Referencia)),
                          analogRead(Pin(Temperatura)))
  }

  /** Only the three channel pins influence the measurement. */
  lemma SoloTresPines(f: int -> int, g: int -> int)
    requires f(PIN_VOzono) == g(PIN_VOzono)
    requires f(PIN_Vref) == g(PIN_Vref)
    requires f(PIN_Vtemp) == g(PIN_Vtemp)
    ensures MedicionDesdeHardware(f) == MedicionDesdeHardware(g)
  {
  }

  /** Worked example: ozone 1.65 V, reference 1.60 V, temperature 0.40 V give a
      stored temperature of 7 and about 39.28 ppm x 10. */
  lemma EscenarioCompleto()
    ensures MedicionDesdeVoltajes(1.65, 1.60, 0.40).temperatura == 7.0
    ensures 39.27 < MedicionDesdeVoltajes(1.65, 1.60, 0.40).GasOzonoCorregido < 39.29
  {
    var t := VoltajeATemperatura(0.40);
    assert t == 130.5 / 18.87;
    RedondearCCaracterizado(t, 7);
  }

  /** The correction uses the unrounded temperature: on these codes,
      correcting with the stored (rounded) temperature gives another value. */
  lemma CorreccionSinRedondear()
    ensures var m := ObtenerMedicionSensor(512, 496, 124);
            m.GasOzonoCorregido / EscalaTransporte !=
              CorregirConcentracionOzono(m.temperatura, ObtenerConcentracionOzono(LeerOzono(512, 496)))
  {
    var t := LeerTemperatura(124);
    assert t == 130.5 / 18.87;
    RedondearCCaracterizado(t, 7);
  }
}
