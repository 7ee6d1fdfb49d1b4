/** Conversion between the display units a user may pick and the canonical
    storage unit, the centimetre. Every length the designer stores is in
    centimetres; the display unit only scales what is shown or typed. */
module Units {

  /** The five display units: millimetre, centimetre, metre, inch, foot. */
  datatype Unit = Mm | Cm | M | In | Ft

  /** Length of one `unit` in centimetres (the fixed conversion table). */
  function CmPerUnit(unit: Unit): (factor: real)
    ensures factor > 0.0
  {
    match unit
    case Mm => 0.1
    case Cm => 1.0
    case M => 100.0
    case In => 2.54
    case Ft => 30.48
  }

  /** A length typed in `unit`, in centimetres. The unit defaults to `Cm`. */
  function ToBaseCm(value: real, unit: Unit := Cm): (valueCm: real)
    ensures FromBaseCm(valueCm, unit) == value
    ensures unit == Cm ==> valueCm == value
    ensures value >= 0.0 <==> valueCm >= 0.0
  {
    value * CmPerUnit(unit)
  }

  /** A length stored in centimetres, expressed in `unit`. The unit defaults to `Cm`. */
  function FromBaseCm(valueCm: real, unit: Unit := Cm): (value: real)
    ensures value * CmPerUnit(unit) == valueCm
    ensures unit == Cm ==> value == valueCm
    ensures valueCm >= 0.0 <==> value >= 0.0
  {
    valueCm / CmPerUnit(unit)
  }

  /** What the formatter decides before rounding: the value in the display
      unit and how many decimals it keeps. */
  datatype Shown = Shown(value: real, decimals: nat)

  /** Metres and feet keep two decimals, every other unit one. */
  function FormatValue(valueCm: real, unit: Unit): (shown: Shown)
    ensures ToBaseCm(shown.value, unit) == valueCm
    ensures shown.decimals == 2 <==> unit == M || unit == Ft
    ensures shown.decimals == 1 <==> unit != M && unit != Ft
  {
    Shown(FromBaseCm(valueCm, unit), if unit == M || unit == Ft then 2 else 1)
  }

  /** Converting to centimetres and back returns the value typed. */
  lemma RoundTripFromDisplay(value: real, unit: Unit)
    ensures FromBaseCm(ToBaseCm(value, unit), unit) == value
  {
  }

  /** Converting a stored length for display and back returns the stored length. */
  lemma RoundTripFromStorage(valueCm: real, unit: Unit)
    ensures ToBaseCm(FromBaseCm(valueCm, unit), unit) == valueCm
  {
  }

  /** With the unit omitted both conversions are the identity. */
  lemma DefaultUnitIsIdentity(value: real)
    ensures ToBaseCm(value) == value && FromBaseCm(value) == value
  {
  }

  /** Every factor is positive, so conversion keeps the order of lengths
      (strictly as well as weakly) in both directions. */
  lemma ConversionMonotone(v: real, w: real, unit: Unit)
    ensures v <= w <==> ToBaseCm(v, unit) <= ToBaseCm(w, unit)
    ensures v < w <==> ToBaseCm(v, unit) < ToBaseCm(w, unit)
    ensures v <= w <==> FromBaseCm(v, unit) <= FromBaseCm(w, unit)
    ensures v < w <==> FromBaseCm(v, unit) < FromBaseCm(w, unit)
  {
    var f := CmPerUnit(unit);
    assert ToBaseCm(w, unit) - ToBaseCm(v, unit) == (w - v) * f;
    assert FromBaseCm(w, unit) - FromBaseCm(v, unit) == (w - v) / f;
  }

  /** Conversion to centimetres is linear: it respects sums and scaling. */
  lemma ConversionLinear(a: real, b: real, k: real, unit: Unit)
    ensures ToBaseCm(a + b, unit) == ToBaseCm(a, unit) + ToBaseCm(b, unit)
    ensures ToBaseCm(k * a, unit) == k * ToBaseCm(a, unit)
  {
  }

  /** The table is self-consistent: a metre is a thousand millimetres, a
      metre a hundred centimetres, and a foot twelve inches. */
  lemma TableConsistent()
    ensures CmPerUnit(M) == 1000.0 * CmPerUnit(Mm)
    ensures CmPerUnit(M) == 100.0 * CmPerUnit(Cm)
    ensures CmPerUnit(Ft) == 12.0 * CmPerUnit(In)
    ensures ToBaseCm(1.0, Ft) == ToBaseCm(12.0, In)
  {
  }
}
