/** Machine words of the driver and the byte order of the host it is built for. */
module Words {
  type u8 = x: int | 0 <= x < 0x100
  type u16 = x: int | 0 <= x < 0x1_0000
  type u32 = x: int | 0 <= x < U32_MODULUS

  const U32_MODULUS: int := 0x1_0000_0000

  datatype Option<+T> = None | Some(value: T)

  datatype VosStatus = Success | EFault | EInval | EFailure | EBusy | ENoMem | EBadMsg

  /** ANI_LITTLE_BYTE_ENDIAN or ANI_BIG_BYTE_ENDIAN. */
  datatype Host = LittleEndian | BigEndian

  function SwapU16(x: u16): u16 {
    (x % 256) * 256 + x / 256
  }

  /** The value a v_U16_t has after two bytes were copied into it. */
  function Load16(host: Host, b: seq<u8>): u16
    requires |b| == 2
  {
    var first: int, second: int := b[0], b[1];
    if host == LittleEndian then first + 256 * second else 256 * first + second
  }

  /** The two bytes a v_U16_t occupies. */
  function Store16(host: Host, x: u16): (b: seq<u8>)
    ensures |b| == 2 && Load16(host, b) == x
  {
    if host == LittleEndian then [x % 256, x / 256] else [x / 256, x % 256]
  }

  /** vos_cpu_to_be16 and vos_be16_to_cpu. */
  function Be16(host: Host, x: u16): u16 {
    if host == LittleEndian then SwapU16(x) else x
  }

  /** vos_cpu_to_le16 and vos_le16_to_cpu. */
  function Le16(host: Host, x: u16): u16 {
    if host == LittleEndian then x else SwapU16(x)
  }

  /** Whatever the host, a converted word lies on the wire in the order its name says,
      and is read back from there. */
  lemma WireOrder(host: Host, x: u16)
    ensures Store16(host, Be16(host, x)) == [x / 256, x % 256]
    ensures Store16(host, Le16(host, x)) == [x % 256, x / 256]
    ensures Be16(host, Load16(host, [x / 256, x % 256])) == x
    ensures Le16(host, Load16(host, [x % 256, x / 256])) == x
  {
  }
}
