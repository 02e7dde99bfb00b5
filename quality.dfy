/** One water-quality measurement, the common input of the rule engine. */
module Quality {

  /** pH (dimensionless), TDS / BOD / COD / TN in mg/L, turbidity in NTU,
      temperature in degrees Celsius, and whether heavy metals are present. */
  datatype Sample = Sample(
    pH: real,
    tds: real,
    turbidity: real,
    bod: real,
    cod: real,
    tn: real,
    temperature: real,
    heavyMetals: bool)
}
