/**
 Modbus RTU read-register requests and the check of their replies: function 0x03 or 0x04, sections 6.3,
 6.4 and 7 of the MODBUS Application Protocol V1.1b3, with the CRC of module Crc.
 */
module Modbus {
  import opened Common
  import opened Crc
  import opened ErrorDetection
  import FlippedBits
  import opened FrameFormat

  datatype Reply = InvalidReply | NormalReply | ExceptionReply(code: Byte)

  predicate ReadFunction(f: Byte) { f == 3 || f == 4 }
  predicate Station(slave: Byte) { 1 <= slave <= 247 }
  predicate Quantity(q: int) { 1 <= q <= 125 }

  function Split(w: bv16): seq<Byte> { [Hi(Reg(w)), Lo(Reg(w))] }

  function RequestBody(slave: Byte, f: Byte, start: bv16, quantity: bv16): seq<Byte> {
    [slave, f] + Split(start) + Split(quantity)
  }

  /** modbus_rtu_build_read_registers. */
  method BuildRead(slave: Byte, f: Byte, start: bv16, quantity: bv16, output: array<Byte>, capacity: nat)
    returns (length: int)
    requires capacity <= output.Length
    modifies output
    ensures length == 8 || length == -1
    ensures length == 8 <==>
              && (f == 3 || f == 4) && 1 <= slave <= 247 && capacity >= 8
              && 1 <= quantity as int <= 125 && start as int + quantity as int <= 65536
    ensures length == 8 ==>
              && output[..8] == Sealed(RequestBody(slave, f, start, quantity))
              && output[8..] == old(output[..])[8..]
    ensures length == -1 ==> output[..] == old(output[..])
  {
    hide Sealed, RequestBody;
    if (f != 3 && f != 4) || slave < 1 || slave > 247 || capacity < 8 ||
       start as int + quantity as int > 65536 || (quantity as int) < 1 || quantity as int > 125
    {
      return -1;
    }
    WriteRequest(slave, f, start, quantity, output);
    AppendCrc(output, 0, 6);
    length := 8;
  }

  /** Register address and count go out high byte first. */
  method WriteRequest(slave: Byte, f: Byte, start: bv16, quantity: bv16, output: array<Byte>)
    requires output.Length >= 8
    modifies output
    ensures output[0..6] == RequestBody(slave, f, start, quantity)
    ensures output[6..] == old(output[6..])
  {
    output[0] := slave;
    output[1] := f;
    output[2] := (start >> 8) as Byte;
    output[3] := (start & 0xFF) as Byte;
    output[4] := (quantity >> 8) as Byte;
    output[5] := (quantity & 0xFF) as Byte;
    assert output[0..6] == [output[0], output[1]] + [output[2], output[3]] + [output[4], output[5]];
  }

  /** The word behind two bytes, high byte first. */
  function Join(hi: Byte, lo: Byte): bv16 { ((hi as bv16) << 8) | (lo as bv16) }

  lemma JoinSplits(w: bv16)
    ensures Join(Split(w)[0], Split(w)[1]) == w
  {}

  lemma SplitJoins(hi: Byte, lo: Byte)
    ensures Split(Join(hi, lo)) == [hi, lo]
  {}

  datatype ReadRequest = ReadRequest(slave: Byte, f: Byte, start: bv16, quantity: bv16)

  /** What a station reads from eight bytes with a good CRC. */
  function Understood(s: seq<Byte>): Option<ReadRequest> {
    if |s| == 8 && Codeword(s) then Some(ReadRequest(s[0], s[1], Join(s[2], s[3]), Join(s[4], s[5]))) else None
  }

  /** The station understands exactly what was asked, and no other eight bytes say it. */
  lemma RequestIsUnderstood(s: seq<Byte>, r: ReadRequest)
    ensures Understood(s) == Some(r) <==> s == Sealed(RequestBody(r.slave, r.f, r.start, r.quantity))
  {
    hide Codeword, Sealed, Join, Split;
    JoinSplits(r.start);
    JoinSplits(r.quantity);
    SplitIsPair(r.start);
    SplitIsPair(r.quantity);
    var body := RequestBody(r.slave, r.f, r.start, r.quantity);
    SealedIffCodeword(s, body);
    if Understood(s) == Some(r) {
      SplitJoins(s[2], s[3]);
      SplitJoins(s[4], s[5]);
      assert s[..6] == [s[0], s[1]] + [s[2], s[3]] + [s[4], s[5]];
    }
    if s == Sealed(body) {
      assert s[..6] == body;
      assert s[0] == body[0] && s[1] == body[1] && s[2] == body[2] && s[3] == body[3] && s[4] == body[4] && s[5] == body[5];
    }
  }

  lemma SplitIsPair(w: bv16)
    ensures |Split(w)| == 2 && Split(w) == [Split(w)[0], Split(w)[1]]
  {}

  /** Two holding registers from address zero of station one, as it goes over the wire. */
  lemma SampleRequest()
    ensures Sealed(RequestBody(1, 3, 0, 2)) == [0x01, 0x03, 0x00, 0x00, 0x00, 0x02, 0xC4, 0x0B]
  {
    ReadRequestCrc();
    assert RequestBody(1, 3, 0, 2) == [0x01, 0x03, 0x00, 0x00, 0x00, 0x02];
    hide Crc16;
  }

  // ---------------------------------------------------------------- replies

  /** The reply a station sends when the read succeeds. */
  function NormalBody(slave: Byte, f: Byte, registers: seq<Byte>): seq<Byte>
    requires |registers| <= 250
  {
    [slave, f, CountByte(|registers|)] + registers
  }

  function ExceptionBody(slave: Byte, f: Byte, code: Byte): seq<Byte> { [slave, f | 0x80, code] }

  function CountByte(n: nat): (b: Byte)
    requires n <= 250
    ensures Value(b) == n
  {
    ByteOf(n)
  }

  predicate Asked(slave: Byte, f: Byte, quantity: int) {
    ReadFunction(f) && Station(slave) && Quantity(quantity)
  }

  /** modbus_rtu_check_read_registers on the first `length` bytes of `frame`. */
  method CheckReply(frame: array<Byte>, length: nat, slave: Byte, f: Byte, quantity: nat) returns (r: Reply)
    requires length <= frame.Length
    ensures r == CheckedReply(frame[..length], slave, f, quantity)
  {
    hide Codeword;
    if (f != 3 && f != 4) || length < 5 || slave < 1 || slave > 247 || quantity < 1 || quantity > 125 {
      return InvalidReply;
    }
    if frame[0] != slave {
      return InvalidReply;
    }
    if frame[1] == f {
      if Value(frame[2]) != quantity * 2 || length != 5 + quantity * 2 {
        return InvalidReply;
      }
    } else if frame[1] == f | 0x80 {
      if length != 5 {
        return InvalidReply;
      }
    } else {
      return InvalidReply;
    }
    var crcOk := TrailerMatches(frame, length);
    if !crcOk {
      return InvalidReply;
    }
    return if frame[1] == f | 0x80 then ExceptionReply(frame[2]) else NormalReply;
  }

  method TrailerMatches(frame: array<Byte>, length: nat) returns (ok: bool)
    requires 2 <= length <= frame.Length
    ensures ok <==> Codeword(frame[..length])
  {
    hide Crc16, Lo, Hi;
    var calculated := ComputeCrc(frame, 0, length - 2);
    var received := (frame[length - 2] as bv16) | ((frame[length - 1] as bv16) << 8);
    ok := calculated.v == received;
    WordFromBytes(calculated, frame[length - 2], frame[length - 1]);
    assert frame[..length][..length - 2] == frame[0..0 + (length - 2)];
  }

  /** The checker's verdict, said by what the reply is. */
  ghost function CheckedReply(s: seq<Byte>, slave: Byte, f: Byte, quantity: nat): Reply {
    if !Asked(slave, f, quantity) || |s| < 5 || s[0] != slave || !Codeword(s) then InvalidReply
    else if s[1] == f && Value(s[2]) == 2 * quantity && |s| == 5 + 2 * quantity then NormalReply
    else if s[1] == f | 0x80 && |s| == 5 then ExceptionReply(s[2])
    else InvalidReply
  }

  lemma FunctionCodes(f: Byte)
    requires ReadFunction(f)
    ensures f | 0x80 != f
  {}

  lemma NormalIsSealed(s: seq<Byte>, slave: Byte, f: Byte, quantity: nat) returns (registers: seq<Byte>)
    requires Asked(slave, f, quantity) && CheckedReply(s, slave, f, quantity) == NormalReply
    ensures |registers| == 2 * quantity && s == Sealed(NormalBody(slave, f, registers))
  {
    hide Codeword, Sealed, Value;
    registers := s[3..|s| - 2];
    ByteIsItsValue(s[2], CountByte(2 * quantity));
    assert s[..|s| - 2] == NormalBody(slave, f, registers);
    SealedIffCodeword(s, NormalBody(slave, f, registers));
  }

  lemma SealedIsNormal(s: seq<Byte>, slave: Byte, f: Byte, registers: seq<Byte>)
    requires |registers| % 2 == 0 && Asked(slave, f, |registers| / 2) && s == Sealed(NormalBody(slave, f, registers))
    ensures CheckedReply(s, slave, f, |registers| / 2) == NormalReply
  {
    hide Codeword, Sealed, Value;
    SealedIffCodeword(s, NormalBody(slave, f, registers));
    assert s[..|s| - 2][1] == s[1] && s[..|s| - 2][0] == s[0] && s[..|s| - 2][2] == s[2];
  }

  lemma ExceptionIffSealed(s: seq<Byte>, slave: Byte, f: Byte, quantity: nat, code: Byte)
    requires Asked(slave, f, quantity)
    ensures CheckedReply(s, slave, f, quantity) == ExceptionReply(code) <==> s == Sealed(ExceptionBody(slave, f, code))
  {
    FunctionCodes(f);
    hide Codeword, Sealed, Value;
    SealedIffCodeword(s, ExceptionBody(slave, f, code));
    if |s| == 5 {
      assert s[..3] == [s[0], s[1], s[2]];
    }
  }

  /** A reply passes as normal exactly when something was asked that may be asked and it is the sealed answer
      with two bytes per register asked for, and as an exception exactly when it is the sealed exception of
      this very function; nothing else passes. */
  lemma AcceptsExactly(s: seq<Byte>, slave: Byte, f: Byte, quantity: nat)
    ensures CheckedReply(s, slave, f, quantity) == NormalReply <==>
              && (f == 3 || f == 4) && 1 <= slave <= 247 && 1 <= quantity <= 125
              && exists registers :: |registers| == 2 * quantity && s == Sealed(NormalBody(slave, f, registers))
    ensures forall code :: CheckedReply(s, slave, f, quantity) == ExceptionReply(code) <==>
                             && (f == 3 || f == 4) && 1 <= slave <= 247 && 1 <= quantity <= 125
                             && s == Sealed(ExceptionBody(slave, f, code))
  {
    if Asked(slave, f, quantity) { AskedAccepts(s, slave, f, quantity); }
    hide Codeword, Sealed, NormalBody, ExceptionBody, Value;
  }

  lemma AskedAccepts(s: seq<Byte>, slave: Byte, f: Byte, quantity: nat)
    requires Asked(slave, f, quantity)
    ensures CheckedReply(s, slave, f, quantity) == NormalReply <==>
              exists registers :: |registers| == 2 * quantity && s == Sealed(NormalBody(slave, f, registers))
    ensures forall code :: CheckedReply(s, slave, f, quantity) == ExceptionReply(code) <==>
                             s == Sealed(ExceptionBody(slave, f, code))
  {
    hide Codeword, Sealed, CheckedReply, NormalBody, ExceptionBody, Value;
    if CheckedReply(s, slave, f, quantity) == NormalReply {
      var registers := NormalIsSealed(s, slave, f, quantity);
    }
    forall registers | |registers| == 2 * quantity && s == Sealed(NormalBody(slave, f, registers))
      ensures CheckedReply(s, slave, f, quantity) == NormalReply
    {
      SealedIsNormal(s, slave, f, registers);
    }
    forall code
      ensures CheckedReply(s, slave, f, quantity) == ExceptionReply(code) <==>
                s == Sealed(ExceptionBody(slave, f, code))
    {
      ExceptionIffSealed(s, slave, f, quantity, code);
    }
  }

  lemma SealedIffCodeword(s: seq<Byte>, body: seq<Byte>)
    ensures s == Sealed(body) <==> |s| == |body| + 2 && s[..|s| - 2] == body && Codeword(s)
  {
    hide Crc16, Lo, Hi;
    if |s| == |body| + 2 {
      assert s == s[..|s| - 2] + [s[|s| - 2], s[|s| - 1]];
    }
    if s == Sealed(body) {
      assert s[..|s| - 2] == body;
    }
  }

  /** An accepted reply damaged by a burst of at most sixteen bits, by up to three flipped bits or by an odd
      number of them is rejected. */
  lemma DamagedReplyIsRejected(s: seq<Byte>, t: seq<Byte>, slave: Byte, f: Byte, quantity: nat, at: nat)
    requires CheckedReply(s, slave, f, quantity) != InvalidReply
    requires |t| == |s| && t != s
    requires var a, b := BitsOf(s), BitsOf(t);
             || (forall i | 0 <= i < |a| && a[i] != b[i] :: at <= i < at + 16)
             || Ones(Difference(a, b)) % 2 == 1
             || 1 <= Ones(Difference(a, b)) <= 3
    ensures CheckedReply(t, slave, f, quantity) == InvalidReply
  {
    hide Codeword;
    if Ones(Difference(BitsOf(s), BitsOf(t))) % 2 == 1 {
      OddFlipsDetected(s, t);
    } else if Ones(Difference(BitsOf(s), BitsOf(t))) == 2 {
      FlippedBits.FewFlipsDetected(s, t);
    } else {
      BurstDetected(s, t, at);
    }
  }
}
