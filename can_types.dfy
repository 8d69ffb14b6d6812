/** The configuration enumerations of the FlexCAN0 driver interface (src/CAN.h). */
module CanTypes {

  /** Clock that feeds the FlexCAN protocol engine: the 8 MHz system
      oscillator or the peripheral (bus) clock. */
  datatype ClkSource = OscillatorSrc | PeripheralSrc

  /** The nominal bit rates a caller may ask for. */
  datatype BitTime = B10kHz | B20kHz | B50kHz | B125kHz | B250kHz | B500kHz | B800kHz | B1MHz

  /** The rate, in bit/s, that each enumerator names. */
  function NominalRate(b: BitTime): (r: nat)
    ensures 10_000 <= r <= 1_000_000
    ensures r == 500_000 <==> b == B500kHz
  {
    match b
    case B10kHz => 10_000
    case B20kHz => 20_000
    case B50kHz => 50_000
    case B125kHz => 125_000
    case B250kHz => 250_000
    case B500kHz => 500_000
    case B800kHz => 800_000
    case B1MHz => 1_000_000
  }
}
