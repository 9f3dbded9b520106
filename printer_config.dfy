/** `PrinterConfig`: the two printer parameters from which the drive derives
    its clearances, and the conversions of a count of layers or of extrusion
    widths into centimetres. */
module Printer {

  /** Nozzle width and layer height, both in millimetres. The record is set
      once by its constructor and never changed. */
  datatype PrinterConfig = PrinterConfig(nozzleWidth: real, layerHeight: real)
  {
    /** `lToCm`: the height of `layers` printed layers, in centimetres. */
    function LToCm(layers: int): (cm: real)
      ensures layerHeight > 0.0 ==> (cm > 0.0 <==> layers > 0) && (cm < 0.0 <==> layers < 0)
    {
      layers as real * layerHeight * 0.1
    }

    /** `ewToCm`: the width of `widths` extrusion lines, in centimetres. */
    function EwToCm(widths: int): (cm: real)
      ensures nozzleWidth > 0.0 ==> (cm > 0.0 <==> widths > 0) && (cm < 0.0 <==> widths < 0)
    {
      widths as real * nozzleWidth * 0.1
    }
  }

  /** Both conversions are linear in the count: zero at zero and additive. */
  lemma ConversionsAreLinear(p: PrinterConfig, a: int, b: int)
    ensures p.LToCm(0) == 0.0 && p.EwToCm(0) == 0.0
    ensures p.LToCm(a + b) == p.LToCm(a) + p.LToCm(b)
    ensures p.EwToCm(a + b) == p.EwToCm(a) + p.EwToCm(b)
  {
  }

  /** With a positive layer height (nozzle width), more layers (widths) are
      strictly taller (wider). */
  lemma ConversionsIncrease(p: PrinterConfig, a: int, b: int)
    requires a < b
    ensures p.layerHeight > 0.0 ==> p.LToCm(a) < p.LToCm(b)
    ensures p.nozzleWidth > 0.0 ==> p.EwToCm(a) < p.EwToCm(b)
  {
    ConversionsAreLinear(p, a, b - a);
  }

  /** The printer the drive is built for: a 0.4 mm nozzle and 0.2 mm layers. */
  function DefaultPrinter(): PrinterConfig
  {
    PrinterConfig(0.4, 0.2)
  }

  /** Five layers of the default printer are 0.1 cm, three extrusion widths
      0.12 cm. */
  lemma DefaultPrinterClearances()
    ensures DefaultPrinter().LToCm(5) == 0.1
    ensures DefaultPrinter().EwToCm(3) == 0.12
  {
  }
}
