/**
 * GPIO port addresses and the two ways the I/O driver names a port: the
 * port index k (0 for GPIOA, 1 for GPIOB, ...) and the encoded port:pin
 * value 0x0000PPpp, whose second byte is the port index and whose low byte
 * is the pin number.  The driver computes these in uint32_t (and, for one
 * result, uint16_t) arithmetic; the wrap-around is written out with `%`,
 * and the byte masks `& 0xFF00` and `& 0x00FF` as the equivalent
 * divisions and remainders by 256.
 */
module Ports {

  /** A uint32_t value. */
  type Word = x: int | 0 <= x < 0x1_0000_0000

  /** A uint16_t value. */
  type Half = x: int | 0 <= x < 0x1_0000

  const WORD_SIZE: int := 0x1_0000_0000

  /** Base address of GPIOA and the spacing of the port register blocks. */
  const GPIOA_BASE: Word := 0x4001_0800
  const GPIO_SIZE: Word := 0x0400

  /** The port register blocks of the STM32F103xB (ports A to E). */
  const GPIOA: Word := 0x4001_0800
  const GPIOB: Word := 0x4001_0C00
  const GPIOC: Word := 0x4001_1000
  const GPIOD: Word := 0x4001_1400
  const GPIOE: Word := 0x4001_1800

  /** Port:pin encoding: `__PORTx` is the port index in the second byte, `__PINn` the pin in the low byte. */
  const PORTA: Word := 0x0000
  const PORTB: Word := 0x0100
  const PORTC: Word := 0x0200
  const PORTD: Word := 0x0300
  const PORTE: Word := 0x0400
  const PORTF: Word := 0x0500
  const PORTG: Word := 0x0600
  /** The value that marks "no pin". */
  const NOTAV: Word := 0xFFFF

  /** The register block address of port index `k`, `GPIOA_BASE + k * GPIO_SIZE` in uint32_t. */
  function PortBase(k: Word): Word
  {
    (GPIOA_BASE + k * GPIO_SIZE) % WORD_SIZE
  }

  /** GetPortIndex: `(p - GPIOA_BASE) / GPIO_SIZE` in uint32_t, so an address below GPIOA wraps around first. */
  function GetPortIndex(p: Word): (k: Word)
    ensures k < 0x40_0000
  {
    ((p - GPIOA_BASE) % WORD_SIZE) / GPIO_SIZE
  }

  /** IO_PortIndex: the port index stored in a uint16_t and shifted to the second byte, truncated to uint16_t on return. */
  function PortIndex(p: Word): (r: Half)
    ensures r % 256 == 0
    ensures r / 256 == GetPortIndex(p) % 256
  {
    var result: Half := GetPortIndex(p) % 0x1_0000;
    (result * 256) % 0x1_0000
  }

  /** The port byte of an encoded port:pin value, `(e & __MASK_PIN) >> 8` (`__MASK_PIN` is 0xFF00: despite its name it selects the port). */
  function PortField(e: Word): (k: Word)
    ensures k < 256
  {
    (e / 256) % 256
  }

  /** The pin byte of an encoded port:pin value, `e & __MASK_PORT` (`__MASK_PORT` is 0x00FF). */
  function PinField(e: Word): (n: Word)
    ensures n < 256
  {
    e % 256
  }

  /** IO_GetPort: the register block address of the port named by the port byte of `e`. */
  function GetPort(e: Word): (a: Word)
    ensures GetPortIndex(a) == PortField(e)
  {
    GetPortIndexOfBase(PortField(e));
    PortBase(PortField(e))
  }

  /** The encoded value of pin `n` of port `k`, `__PORTx | __PINn`; the two bytes do not overlap. */
  function Encoded(k: Word, n: Word): Word
    requires k < 256 && n < 256
  {
    k * 256 + n
  }

  /** An encoded value holds its port in the second byte and its pin in the first. */
  lemma EncodedFields(k: Word, n: Word)
    requires k < 256 && n < 256
    ensures PortField(Encoded(k, n)) == k
    ensures PinField(Encoded(k, n)) == n
  {
  }

  /** GetPortIndex inverts PortBase for every index whose block lies below the top of the address space. */
  lemma GetPortIndexOfBase(k: Word)
    requires k < 0x2F_FFBE
    ensures GetPortIndex(PortBase(k)) == k
  {
    assert PortBase(k) == GPIOA_BASE + k * GPIO_SIZE;
  }

  /** IO_GetPort(IO_PortIndex(p)) == p for the block of every port index below 256. */
  lemma PortIndexRoundTrip(k: Word)
    requires k < 256
    ensures GetPort(PortIndex(PortBase(k))) == PortBase(k)
  {
    GetPortIndexOfBase(k);
  }

  /** IO_PortIndex(IO_GetPort(e)) recovers the port byte of `e`, in the second byte. */
  lemma GetPortRoundTrip(e: Word)
    ensures PortIndex(GetPort(e)) == PortField(e) * 256
  {
    GetPortIndexOfBase(PortField(e));
  }

  /** The named port blocks are the blocks of port indices 0 to 4. */
  lemma PortBlocks()
    ensures GPIOA == PortBase(0) && GPIOB == PortBase(1) && GPIOC == PortBase(2)
    ensures GPIOD == PortBase(3) && GPIOE == PortBase(4)
  {
  }
}
