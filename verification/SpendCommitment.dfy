// The bytes a spend's signature covers, and the decoder that shows no two payments
// share them.

module SpendCommitment {
  import opened Basics

  newtype byte = x: int | 0 <= x < 256

  datatype Payment = Payment(value: int, pubkey: seq<byte>)

  /** One output as the payload carries it, its key in hexadecimal. A field that is missing, or a
      value that `int` does not convert, is `None`. */
  datatype Output = Output(value: Option<int>, pubkey: Option<string>)

  datatype Error = BadField | BadHex | BadHash | NoOutputs | TooManyOutputs | BadValue | BadPubkey

  /** "itx.spend.v1". */
  const DOMAIN_TAG: seq<byte> := [0x69, 0x74, 0x78, 0x2E, 0x73, 0x70, 0x65, 0x6E, 0x64, 0x2E, 0x76, 0x31]

  const U32_MAX: int := 0xFFFF_FFFF

  // ----- big-endian integers ---------------------------------------------------------------------

  function Pow256(width: nat): (r: int)
    ensures r >= 1
  {
    if width == 0 then 1 else 256 * Pow256(width - 1)
  }

  /** `int.to_bytes(width, "big")`. */
  function BigEndian(n: int, width: nat): (s: seq<byte>)
    requires 0 <= n
    ensures |s| == width
  {
    if width == 0 then [] else BigEndian(n / 256, width - 1) + [(n % 256) as byte]
  }

  function FromBigEndian(s: seq<byte>): (n: int)
    ensures n >= 0
  {
    if s == [] then 0 else FromBigEndian(s[..|s| - 1]) * 256 + s[|s| - 1] as int
  }

  lemma {:induction false} BigEndianRoundTrip(n: int, width: nat)
    requires 0 <= n < Pow256(width)
    ensures FromBigEndian(BigEndian(n, width)) == n
    decreases width
  {
    if width > 0 {
      BigEndianRoundTrip(n / 256, width - 1);
      var s := BigEndian(n, width);
      assert s[..width - 1] == BigEndian(n / 256, width - 1);
    }
  }

  // ----- hexadecimal -------------------------------------------------------------------------------

  predicate IsSpace(c: char) { c == ' ' || '\t' <= c <= '\r' }

  function Digit(c: char): Option<int> {
    if '0' <= c <= '9' then Some(c as int - '0' as int)
    else if 'a' <= c <= 'f' then Some(c as int - 'a' as int + 10)
    else if 'A' <= c <= 'F' then Some(c as int - 'A' as int + 10)
    else None
  }

  /** `bytes.fromhex`: pairs of digits in either case, with white space allowed between pairs. */
  function FromHex(s: string): Option<seq<byte>> {
    if s == [] then Some([])
    else if IsSpace(s[0]) then FromHex(s[1..])
    else if |s| == 1 || Digit(s[0]).None? || Digit(s[1]).None? then None
    else
      match FromHex(s[2..])
      case None => None
      case Some(rest) => Some([(Digit(s[0]).value * 16 + Digit(s[1]).value) as byte] + rest)
  }

  function HexDigit(d: int): char
    requires 0 <= d < 16
  {
    if d < 10 then ('0' as int + d) as char else ('a' as int + d - 10) as char
  }

  /** `bytes.hex`. */
  function ToHex(s: seq<byte>): string {
    if s == [] then [] else [HexDigit(s[0] as int / 16), HexDigit(s[0] as int % 16)] + ToHex(s[1..])
  }

  lemma DigitOfHexDigit(d: int)
    requires 0 <= d < 16
    ensures Digit(HexDigit(d)) == Some(d) && !IsSpace(HexDigit(d))
  {
  }

  lemma {:induction false} FromHexInvertsToHex(s: seq<byte>)
    ensures FromHex(ToHex(s)) == Some(s)
    decreases |s|
  {
    if s != [] {
      DigitOfHexDigit(s[0] as int / 16);
      DigitOfHexDigit(s[0] as int % 16);
      FromHexInvertsToHex(s[1..]);
      assert ToHex(s)[2..] == ToHex(s[1..]);
      assert s == [s[0]] + s[1..];
    }
  }

  function Capital(c: char): char { if 'a' <= c <= 'z' then (c as int - 'a' as int + 'A' as int) as char else c }

  function Capitals(s: string): string { seq(|s|, i requires 0 <= i < |s| => Capital(s[i])) }

  lemma CapitalReadsTheSame(c: char)
    ensures Digit(Capital(c)) == Digit(c) && IsSpace(Capital(c)) == IsSpace(c)
  {
  }

  /** Hexadecimal reads the same in either case. */
  lemma {:induction false} HexIgnoresCase(s: string)
    ensures FromHex(Capitals(s)) == FromHex(s)
    decreases |s|
  {
    if s != [] {
      CapitalReadsTheSame(s[0]);
      HexIgnoresCase(s[1..]);
      assert Capitals(s)[1..] == Capitals(s[1..]);
      if |s| > 1 {
        CapitalReadsTheSame(s[1]);
        HexIgnoresCase(s[2..]);
        assert Capitals(s)[2..] == Capitals(s[2..]);
      }
    }
  }

  /** And the same with a blank, tab, line feed, vertical tab, form feed or carriage return
      after any whole number of bytes. */
  lemma {:induction false} HexIgnoresSpaces(a: string, c: char, b: string)
    requires FromHex(a).Some? && c in {' ', '\t', '\n', 11 as char, 12 as char, '\r'}
    ensures FromHex(a + [c] + b) == FromHex(a + b)
    decreases |a|
  {
    if a == [] {
      assert a + [c] + b == [c] + b && a + b == b;
      assert ([c] + b)[1..] == b;
    } else if IsSpace(a[0]) {
      HexIgnoresSpaces(a[1..], c, b);
      SkipsSpace(a, [c] + b);
      SkipsSpace(a, b);
      assert a + ([c] + b) == a + [c] + b && a[1..] + ([c] + b) == a[1..] + [c] + b;
    } else {
      HexIgnoresSpaces(a[2..], c, b);
      ReadsByte(a, [c] + b);
      ReadsByte(a, b);
      assert a + ([c] + b) == a + [c] + b && a[2..] + ([c] + b) == a[2..] + [c] + b;
    }
  }

  lemma SkipsSpace(a: string, b: string)
    requires a != [] && IsSpace(a[0])
    ensures FromHex(a + b) == FromHex(a[1..] + b)
  {
    assert (a + b)[1..] == a[1..] + b;
  }

  lemma ReadsByte(a: string, b: string)
    requires FromHex(a).Some? && a != [] && !IsSpace(a[0])
    ensures |a| > 1 && FromHex(a[2..]).Some? && Digit(a[0]).Some? && Digit(a[1]).Some?
    ensures FromHex(a + b) ==
      match FromHex(a[2..] + b)
      case None => None
      case Some(rest) => Some([(Digit(a[0]).value * 16 + Digit(a[1]).value) as byte] + rest)
  {
    assert (a + b)[2..] == a[2..] + b;
  }

  // ----- the encoding --------------------------------------------------------------------------------

  predicate ValidPayment(p: Payment) { 0 <= p.value <= U64_MAX && 1 <= |p.pubkey| <= 255 }

  predicate Valid(hash: seq<byte>, payments: seq<Payment>) {
    |hash| == 32 && 1 <= |payments| <= U32_MAX && forall p <- payments :: ValidPayment(p)
  }

  function EncodeOne(p: Payment): seq<byte>
    requires ValidPayment(p)
  {
    BigEndian(p.value, 8) + [|p.pubkey| as byte] + p.pubkey
  }

  function EncodeAll(payments: seq<Payment>): seq<byte>
    requires forall p <- payments :: ValidPayment(p)
  {
    if payments == [] then [] else EncodeOne(payments[0]) + EncodeAll(payments[1..])
  }

  function Encode(hash: seq<byte>, payments: seq<Payment>): seq<byte>
    requires Valid(hash, payments)
  {
    DOMAIN_TAG + hash + BigEndian(|payments|, 4) + EncodeAll(payments)
  }

  lemma {:induction false} EncodeAllAppend(a: seq<Payment>, p: Payment)
    requires (forall q <- a :: ValidPayment(q)) && ValidPayment(p)
    ensures EncodeAll(a + [p]) == EncodeAll(a) + EncodeOne(p)
    decreases |a|
  {
    if a == [] {
      assert (a + [p])[1..] == [];
    } else {
      EncodeAllAppend(a[1..], p);
      assert (a + [p])[1..] == a[1..] + [p];
    }
  }

  /** What the loop refuses an output with: its value first, then its key. */
  function Fault(o: Output): Option<Error> {
    if o.value.None? then Some(BadField)
    else if o.value.value < 0 || o.value.value > U64_MAX then Some(BadValue)
    else if o.pubkey.None? then Some(BadField)
    else
      match FromHex(o.pubkey.value)
      case None => Some(BadHex)
      case Some(key) => if 1 <= |key| <= 255 then None else Some(BadPubkey)
  }

  function Parsed(o: Output): (p: Payment)
    requires Fault(o).None?
    ensures ValidPayment(p)
  {
    Payment(o.value.value, FromHex(o.pubkey.value).value)
  }

  function Payments(outputs: seq<Output>): (payments: seq<Payment>)
    requires forall o <- outputs :: Fault(o).None?
    ensures |payments| == |outputs| && forall p <- payments :: ValidPayment(p)
  {
    seq(|outputs|, i requires 0 <= i < |outputs| => Parsed(outputs[i]))
  }

  /** The first `i` outputs are in order and on the wire. */
  ghost predicate Encoded(outputs: seq<Output>, i: nat, head: seq<byte>, preimage: seq<byte>)
    requires i <= |outputs|
  {
    && (forall j :: 0 <= j < i ==> Fault(outputs[j]).None?) && (forall o <- outputs[..i] :: Fault(o).None?)
    && preimage == head + EncodeAll(Payments(outputs[..i]))
  }

  lemma EncodeNext(outputs: seq<Output>, i: nat, head: seq<byte>, preimage: seq<byte>)
    requires i < |outputs| && Encoded(outputs, i, head, preimage) && Fault(outputs[i]).None?
    ensures Encoded(outputs, i + 1, head, preimage + EncodeOne(Parsed(outputs[i])))
  {
    var p, before := Parsed(outputs[i]), Payments(outputs[..i]);
    assert outputs[..i + 1] == outputs[..i] + [outputs[i]];
    assert Payments(outputs[..i + 1]) == before + [p];
    EncodeAllAppend(before, p);
    assert preimage + EncodeOne(p) == head + (EncodeAll(before) + EncodeOne(p));
  }

  /** The first check a spend fails, if it fails one. */
  ghost predicate Refused(hashHex: string, outputs: seq<Output>, e: Error) {
    match FromHex(hashHex)
    case None => e == BadHex
    case Some(hash) =>
      if |hash| != 32 then e == BadHash
      else if outputs == [] then e == NoOutputs
      else if |outputs| > U32_MAX then e == TooManyOutputs
      else FirstFault(outputs, e)
  }

  ghost predicate FirstFault(outputs: seq<Output>, e: Error) {
    exists i :: 0 <= i < |outputs| && Fault(outputs[i]) == Some(e) && forall j :: 0 <= j < i ==> Fault(outputs[j]).None?
  }

  function Written(payments: seq<Payment>): (outputs: seq<Output>)
    ensures |outputs| == |payments|
  {
    seq(|payments|, i requires 0 <= i < |payments| => Output(Some(payments[i].value), Some(ToHex(payments[i].pubkey))))
  }

  /** Every valid spend can be written out in hexadecimal so that nothing is refused and the
      same spend is read back. */
  lemma EverySpendIsAccepted(hash: seq<byte>, payments: seq<Payment>, e: Error)
    requires |hash| == 32 && 0 < |payments| < 0x1_0000_0000
    requires forall p <- payments :: 0 <= p.value < 0x1_0000_0000_0000_0000 && 0 < |p.pubkey| < 256
    ensures Valid(hash, payments)
    ensures FromHex(ToHex(hash)) == Some(hash) && !Refused(ToHex(hash), Written(payments), e)
    ensures (forall o <- Written(payments) :: Fault(o).None?) && Payments(Written(payments)) == payments
  {
    FromHexInvertsToHex(hash);
    var outputs := Written(payments);
    forall i | 0 <= i < |payments| ensures Fault(outputs[i]).None? && Parsed(outputs[i]) == payments[i] {
      FromHexInvertsToHex(payments[i].pubkey);
      assert payments[i] in payments;
    }
  }

  /** `spend_commitment_preimage`: the bytes of the spend that the hexadecimal stands for,
      exactly for a 32-byte hash and a nonempty list of u64 values to keys of 1 to 255
      bytes; otherwise the first check that fails. */
  method Preimage(hashHex: string, outputs: seq<Output>) returns (r: Result<seq<byte>, Error>)
    ensures r.Err? ==> Refused(hashHex, outputs, r.error)
    ensures r.Ok? ==> FromHex(hashHex).Some? && forall o <- outputs :: Fault(o).None?
    ensures r.Ok? ==> Valid(FromHex(hashHex).value, Payments(outputs))
    ensures r.Ok? ==> r.value == Encode(FromHex(hashHex).value, Payments(outputs))
  {
    var parsed := FromHex(hashHex);
    if parsed.None? {
      return Err(BadHex);
    }
    var hash := parsed.value;
    if |hash| != 32 {
      return Err(BadHash);
    }
    if outputs == [] {
      return Err(NoOutputs);
    }
    if |outputs| > U32_MAX {
      return Err(TooManyOutputs);
    }
    var preimage := DOMAIN_TAG + hash + BigEndian(|outputs|, 4);
    ghost var head := preimage;
    var i := 0;
    while i < |outputs|
      invariant 0 <= i <= |outputs| && Encoded(outputs, i, head, preimage)
    {
      var o := outputs[i];
      if o.value.None? {
        assert Fault(outputs[i]) == Some(BadField);
        return Err(BadField);
      }
      var value := o.value.value;
      if value < 0 || value > U64_MAX {
        assert Fault(outputs[i]) == Some(BadValue);
        return Err(BadValue);
      }
      if o.pubkey.None? {
        assert Fault(outputs[i]) == Some(BadField);
        return Err(BadField);
      }
      var key := FromHex(o.pubkey.value);
      if key.None? {
        assert Fault(outputs[i]) == Some(BadHex);
        return Err(BadHex);
      }
      if key.value == [] || |key.value| > 255 {
        assert Fault(outputs[i]) == Some(BadPubkey);
        return Err(BadPubkey);
      }
      EncodeNext(outputs, i, head, preimage);
      ghost var was := preimage;
      preimage := preimage + BigEndian(value, 8) + [|key.value| as byte] + key.value;
      assert preimage == was + EncodeOne(Parsed(o));
      i := i + 1;
    }
    assert outputs[..i] == outputs;
    return Ok(preimage);
  }

  // ----- the decoder -----------------------------------------------------------------------------------

  /** Reads `n` payments off the front, and nothing after them. */
  function DecodeAll(s: seq<byte>, n: nat): Option<seq<Payment>>
    decreases n
  {
    if n == 0 then if s == [] then Some([]) else None
    else if |s| < 9 || |s| < 9 + s[8] as int then None
    else
      var end := 9 + s[8] as int;
      match DecodeAll(s[end..], n - 1)
      case None => None
      case Some(rest) => Some([Payment(FromBigEndian(s[..8]), s[9..end])] + rest)
  }

  function Decode(s: seq<byte>): Option<(seq<byte>, seq<Payment>)> {
    if |s| < 48 || s[..12] != DOMAIN_TAG then None
    else
      match DecodeAll(s[48..], FromBigEndian(s[44..48]))
      case None => None
      case Some(payments) => Some((s[12..44], payments))
  }

  lemma EncodeOneParts(p: Payment, rest: seq<byte>)
    requires ValidPayment(p)
    ensures
      var s := EncodeOne(p) + rest;
      && |s| >= 9 + |p.pubkey| && s[8] as int == |p.pubkey|
      && FromBigEndian(s[..8]) == p.value && s[9..9 + |p.pubkey|] == p.pubkey && s[9 + |p.pubkey|..] == rest
  {
    var s := EncodeOne(p) + rest;
    assert s[..8] == BigEndian(p.value, 8);
    assert Pow256(8) == U64_MAX + 1;
    BigEndianRoundTrip(p.value, 8);
  }

  lemma DecodeOne(s: seq<byte>, n: nat, p: Payment, rest: seq<byte>, others: seq<Payment>)
    requires n > 0 && |s| >= 9 + |p.pubkey| && s[8] as int == |p.pubkey| && s[9 + |p.pubkey|..] == rest
    requires FromBigEndian(s[..8]) == p.value && s[9..9 + |p.pubkey|] == p.pubkey
    requires DecodeAll(rest, n - 1) == Some(others)
    ensures DecodeAll(s, n) == Some([p] + others)
  {
  }

  lemma DecodesFirst(p: Payment, rest: seq<byte>, others: seq<Payment>)
    requires ValidPayment(p) && DecodeAll(rest, |others|) == Some(others)
    ensures DecodeAll(EncodeOne(p) + rest, |others| + 1) == Some([p] + others)
  {
    EncodeOneParts(p, rest);
    DecodeOne(EncodeOne(p) + rest, |others| + 1, p, rest, others);
  }

  lemma {:induction false} DecodeAllInverts(payments: seq<Payment>)
    requires forall p <- payments :: ValidPayment(p)
    ensures DecodeAll(EncodeAll(payments), |payments|) == Some(payments)
    decreases |payments|
  {
    if payments != [] {
      DecodeAllInverts(payments[1..]);
      DecodesFirst(payments[0], EncodeAll(payments[1..]), payments[1..]);
      assert payments == [payments[0]] + payments[1..];
    }
  }

  /** The hash and the whole ordered payment list can be read back from the bytes. */
  lemma DecodeInvertsEncode(hash: seq<byte>, payments: seq<Payment>)
    requires Valid(hash, payments)
    ensures Decode(Encode(hash, payments)) == Some((hash, payments))
  {
    var s := Encode(hash, payments);
    assert s[..12] == DOMAIN_TAG;
    assert s[12..44] == hash;
    assert s[44..48] == BigEndian(|payments|, 4);
    assert s[48..] == EncodeAll(payments);
    assert Pow256(4) == U32_MAX + 1;
    BigEndianRoundTrip(|payments|, 4);
    DecodeAllInverts(payments);
  }

  /** Two different valid spends never sign the same bytes. */
  lemma EncodingIsInjective(hash: seq<byte>, payments: seq<Payment>, hash': seq<byte>, payments': seq<Payment>)
    requires Valid(hash, payments) && Valid(hash', payments') && Encode(hash, payments) == Encode(hash', payments')
    ensures hash == hash' && payments == payments'
  {
    DecodeInvertsEncode(hash, payments);
    DecodeInvertsEncode(hash', payments');
  }
}
