/** Little-endian numbers, as every header and message of the system carries them. */
module LittleEndian {
  import opened Basics

  function Value(bytes: seq<Byte>): nat {
    if bytes == [] then 0 else bytes[0] + 256 * Value(bytes[1..])
  }

  function Digits(n: nat, count: nat): (r: seq<Byte>)
    ensures |r| == count
  {
    if count == 0 then [] else [n % 256] + Digits(n / 256, count - 1)
  }

  function Power(count: nat): nat { if count == 0 then 1 else 256 * Power(count - 1) }

  lemma {:induction false} ValueOfDigits(n: nat, count: nat)
    requires n < Power(count)
    ensures Value(Digits(n, count)) == n
  {
    if count > 0 {
      ValueOfDigits(n / 256, count - 1);
      assert Digits(n, count)[1..] == Digits(n / 256, count - 1);
    }
  }

  lemma {:induction false} ValueIsBounded(bytes: seq<Byte>)
    ensures Value(bytes) < Power(|bytes|)
  {
    if bytes != [] { ValueIsBounded(bytes[1..]); }
  }

  /** The bytes of a number are its digits. */
  lemma {:induction false} DigitsOfValue(bytes: seq<Byte>)
    ensures Digits(Value(bytes), |bytes|) == bytes
  {
    if bytes != [] {
      var rest := Value(bytes[1..]);
      DigitsOfValue(bytes[1..]);
      assert (bytes[0] + 256 * rest) % 256 == bytes[0] && (bytes[0] + 256 * rest) / 256 == rest;
    }
  }
}
