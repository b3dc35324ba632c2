/** Byte values as they travel through the transmit FIFO, the NDEF image and
    the 64 KiB memory space. Bit fields (the control byte, the record
    header) are decoded from bv8 and meet these bytes only at concrete
    constants. */
module Bytes {
  type byte = x: int | 0 <= x < 256
}
