/** Analog acquisition: a raw ADC code becomes a voltage. The hardware read
    itself is not modelled; its result is the `codigo` parameter. */
module Adaptador {
  import opened Sensor

  /** Largest code of the 10-bit converter and the supply-referenced full scale. */
  const CodigoMaximo: int := 1023
  const VoltajeFondoEscala: real := 3.3

  /** Volts per code step. */
  const ResolucionVoltios: real := VoltajeFondoEscala / CodigoMaximo as real

  /** `leerValorAnalogico`: code times 3.3 / 1023 plus the stored bias.
      Codes outside [0, 1023] are not clamped. */
  function LeerValorAnalogico(codigo: int): (v: real)
    ensures codigo == 0 ==> v == BIASsensor as real
    ensures codigo == CodigoMaximo ==> v == VoltajeFondoEscala + BIASsensor as real
    ensures 0 <= codigo <= CodigoMaximo ==>
              BIASsensor as real <= v <= VoltajeFondoEscala + BIASsensor as real
  {
    codigo as real * 3.3 / 1023.0 + BIASsensor as real
  }

  /** The inverse map, from a voltage back to the (fractional) code. */
  function CodigoDeVoltaje(v: real): real {
    (v - BIASsensor as real) * 1023.0 / 3.3
  }

  /** Reading a code and inverting the conversion gives the code back. */
  lemma CodigoDeVoltajeInverso(codigo: int)
    ensures CodigoDeVoltaje(LeerValorAnalogico(codigo)) == codigo as real
  {
  }

  /** The conversion is strictly increasing, hence injective. */
  lemma VoltajeMonotono(c1: int, c2: int)
    ensures c1 < c2 <==> LeerValorAnalogico(c1) < LeerValorAnalogico(c2)
    ensures c1 == c2 <==> LeerValorAnalogico(c1) == LeerValorAnalogico(c2)
  {
  }

  /** Consecutive codes are one resolution step apart. */
  lemma VoltajePaso(codigo: int)
    ensures LeerValorAnalogico(codigo + 1) - LeerValorAnalogico(codigo) == ResolucionVoltios
  {
  }

  /** Because the stored bias is 0, every in-range code yields a voltage in [0, 3.3]. */
  lemma VoltajeEnRango(codigo: int)
    requires 0 <= codigo <= CodigoMaximo
    ensures 0.0 <= LeerValorAnalogico(codigo) <= VoltajeFondoEscala
  {
    BiasTruncadoACero();
  }
}
