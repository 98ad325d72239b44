/**
 * Finding the end of the first DER item in a buffer
 * (codex-rs/codex-client/src/custom_ca.rs), with the machine arithmetic of the
 * source against section 8.1.3 of ITU-T X.690 over unbounded integers.
 */
module DerLength {
  import opened Prelude

  newtype byte = x: int | 0 <= x < 256

  // The value of a big-endian number of any width, most significant octet first.
  function BigEndian(octets: seq<byte>): nat {
    if octets == [] then 0
    else octets[0] as nat * Power256(|octets| - 1) + BigEndian(octets[1..])
  }

  function Power256(n: nat): (p: nat)
    ensures p > 0
  {
    if n == 0 then 1 else 256 * Power256(n - 1)
  }

  /**
   * What section 8.1.3 of ITU-T X.690 says of a definite-form item, one
   * identifier octet first: the length octets are all there and `n` counts the
   * identifier, the length octets and the contents they announce.
   */
  ghost predicate Definite(der: seq<byte>, n: nat) {
    |der| >= 2 &&
    if der[1] < 0x80 then n == 2 + der[1] as nat
    else
      var width := der[1] as nat - 0x80;
      width > 0 && |der| >= 2 + width && n == 2 + width + BigEndian(der[2..2 + width])
  }

  // Appending an octet is the Horner step.
  lemma {:induction false} BigEndianSnoc(octets: seq<byte>, b: byte)
    ensures BigEndian(octets + [b]) == 256 * BigEndian(octets) + b as nat
  {
    if octets == [] {
      assert octets + [b] == [b];
      assert [b][1..] == [];
    } else {
      assert (octets + [b])[1..] == octets[1..] + [b];
      BigEndianSnoc(octets[1..], b);
      assert Power256(|octets|) == 256 * Power256(|octets| - 1);
    }
  }

  // More octets never announce less.
  lemma {:induction false} BigEndianGrows(octets: seq<byte>, k: nat)
    requires k <= |octets|
    ensures BigEndian(octets[..k]) <= BigEndian(octets)
    decreases |octets| - k
  {
    if k == |octets| {
      assert octets[..k] == octets;
    } else {
      assert octets[..k + 1] == octets[..k] + [octets[k]];
      BigEndianSnoc(octets[..k], octets[k]);
      BigEndianGrows(octets, k + 1);
    }
  }

  function CheckedAdd(x: nat, y: nat, max: nat): Option<nat> {
    if x + y <= max then Some(x + y) else None
  }

  function CheckedMul(x: nat, y: nat, max: nat): Option<nat> {
    if x * y <= max then Some(x * y) else None
  }

  /**
   * `usizeMax` is the platform's largest `usize`, which no slice exceeds. An
   * answer is given exactly for the definite-form items that lie within the
   * buffer, so a checked operation that overflows never hides one.
   */
  method DerItemLength(der: seq<byte>, usizeMax: nat) returns (length: Option<nat>)
    requires |der| <= usizeMax
    ensures forall n: nat :: length == Some(n) <==> Definite(der, n) && n <= |der|
  {
    if |der| < 2 { return None; }
    var lengthOctet := der[1];
    if lengthOctet < 0x80 {
      var short := 2 + lengthOctet as nat;
      return if short <= |der| then Some(short) else None;
    }
    var lengthOctets := lengthOctet as nat - 0x80;
    if lengthOctets == 0 { return None; }
    var lengthEnd := CheckedAdd(2, lengthOctets, usizeMax);
    if lengthEnd.None? || lengthEnd.value > |der| { return None; }
    var lengthBytes := der[2..lengthEnd.value];
    var contentLength := 0;
    for i := 0 to |lengthBytes|
      invariant contentLength == BigEndian(lengthBytes[..i])
      invariant contentLength <= usizeMax
    {
      assert lengthBytes[..i + 1] == lengthBytes[..i] + [lengthBytes[i]];
      BigEndianSnoc(lengthBytes[..i], lengthBytes[i]);
      BigEndianGrows(lengthBytes, i + 1);
      var scaled := CheckedMul(contentLength, 256, usizeMax);
      if scaled.None? { return None; }
      var next := CheckedAdd(scaled.value, lengthBytes[i] as nat, usizeMax);
      if next.None? { return None; }
      contentLength := next.value;
    }
    assert lengthBytes[..|lengthBytes|] == lengthBytes;
    var total := CheckedAdd(lengthEnd.value, contentLength, usizeMax);
    if total.None? || total.value > |der| { return None; }
    return total;
  }

  method FirstDerItem(der: seq<byte>, usizeMax: nat) returns (item: Option<seq<byte>>)
    requires |der| <= usizeMax
    ensures item.Some? ==> item.value <= der && Definite(item.value, |item.value|)
    ensures forall n: nat :: n <= |der| && Definite(der, n) ==> item == Some(der[..n])
  {
    var length := DerItemLength(der, usizeMax);
    if length.None? { return None; }
    assert der == der[..length.value] + der[length.value..];
    TrailingBytesIgnored(der[..length.value], der[length.value..], length.value);
    return Some(der[..length.value]);
  }

  // A complete header announces the same length whatever follows it.
  lemma DefiniteExtends(der: seq<byte>, trailer: seq<byte>, n: nat)
    requires Definite(der, n)
    ensures Definite(der + trailer, n)
  {
    if der[1] >= 0x80 {
      var width := der[1] as nat - 0x80;
      assert (der + trailer)[2..2 + width] == der[2..2 + width];
    }
  }

  // A buffer that gave `n` gives `n` with any trailer, and a longer buffer's `n`
  // that lies within the shorter one was already its answer.
  lemma TrailingBytesIgnored(item: seq<byte>, trailer: seq<byte>, n: nat)
    requires n <= |item|
    ensures Definite(item + trailer, n) <==> Definite(item, n)
  {
    var whole := item + trailer;
    if Definite(item, n) { DefiniteExtends(item, trailer, n); }
    if Definite(whole, n) && whole[1] >= 0x80 {
      var width := whole[1] as nat - 0x80;
      assert whole[2..2 + width] == item[2..2 + width];
    }
  }
}
