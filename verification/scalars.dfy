/** The scalar values a PLC driver reads and writes. Floating-point values are kept
    as their bit patterns: nothing here computes with them. */
module Scalars {

  type Int8 = x: int | -0x80 <= x < 0x80
  type Int16 = x: int | -0x8000 <= x < 0x8000
  type Int32 = x: int | -0x8000_0000 <= x < 0x8000_0000
  type Int64 = x: int | -0x8000_0000_0000_0000 <= x < 0x8000_0000_0000_0000
  type UInt8 = x: int | 0 <= x < 0x100
  type UInt16 = x: int | 0 <= x < 0x1_0000
  type UInt32 = x: int | 0 <= x < 0x1_0000_0000
  type UInt64 = x: int | 0 <= x < 0x1_0000_0000_0000_0000

  datatype Scalar =
    | Bool(b: bool)
    | I8(i8: Int8)
    | I16(i16: Int16)
    | I32(i32: Int32)
    | I64(i64: Int64)
    | U8(u8: UInt8)
    | U16(u16: UInt16)
    | U32(u32: UInt32)
    | U64(u64: UInt64)
    | F32(bits32: UInt32)
    | F64(bits64: UInt64)
    | Str(s: string)
}
