/** Bytes and the numbers they stand for. */
module Bytes {

  lemma ByteBack(x: int)
    requires 0 <= x < 256
    ensures (x as bv8) as int == x
  {
  }
}
