// Tags of DER elements.

module Der {
  import opened Bytes

  const INTEGER: Byte := 0x02
  const OCTET_STRING: Byte := 0x04
  const NULL: Byte := 0x05
  const OBJECT_IDENTIFIER: Byte := 0x06
  const SEQUENCE: Byte := 0x30
}
