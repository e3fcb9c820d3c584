/**
 * The Snowflake decoder tool. A Discord ID is an unsigned integer whose
 * bits, from the top, are a 42-bit millisecond timestamp counted from the
 * Discord epoch (2015-01-01T00:00:00.000Z), a 5-bit worker ID, a 5-bit
 * process ID and a 12-bit per-millisecond increment. `BigInt` does not
 * truncate, so digit strings beyond 64 bits decode with a larger timestamp.
 */
module SnowflakeTool {
  import opened Wrappers
  import opened Decimal
  import opened Bits

  /** 2015-01-01T00:00:00.000Z in Unix milliseconds. */
  const DiscordEpoch: nat := 1420070400000

  const WorkerMask: nat := 0x3E0000
  const ProcessMask: nat := 0x1F000
  const IncrementMask: nat := 0xFFF

  datatype Snowflake = Snowflake(timestampMs: nat, workerId: nat, processId: nat, increment: nat)

  /** What passes the guard `!id || !/^\d+$/.test(id)`: a non-empty digit string. */
  predicate IsSnowflakeText(s: string)
  {
    s != [] && AllDigits(s)
  }

  lemma MaskLayout()
    ensures Pow2(5) == 32 && Pow2(12) == 4096 && Pow2(17) == 131072 && Pow2(22) == 4194304
    ensures WorkerMask == ShiftLeft(Mask(5), 17)
    ensures ProcessMask == ShiftLeft(Mask(5), 12)
    ensures IncrementMask == Mask(12)
  {
  }

  /**
   * `decodeSnowflake`: `null` unless the text is a non-empty digit string;
   * otherwise the four fields taken out with the source's shifts and masks.
   */
  function Decode(s: string): (r: Option<Snowflake>)
    ensures r.None? <==> !IsSnowflakeText(s)
    ensures r.Some? ==>
      && r.value.timestampMs == Value(s) / Pow2(22) + DiscordEpoch
      && r.value.workerId == (Value(s) / Pow2(17)) % 32
      && r.value.processId == (Value(s) / Pow2(12)) % 32
      && r.value.increment == Value(s) % 4096
    ensures r.Some? ==> r.value.workerId < 32 && r.value.processId < 32 && r.value.increment < 4096
  {
    if !IsSnowflakeText(s) then None
    else
      var id := Value(s);
      MaskLayout();
      FieldMask(id, 5, 17);
      FieldMask(id, 5, 12);
      AndMask(id, 12);
      Some(Snowflake(
        ShiftRight(id, 22) + DiscordEpoch,
        ShiftRight(And(id, WorkerMask), 17),
        ShiftRight(And(id, ProcessMask), 12),
        And(id, IncrementMask)))
  }

  /** `((timestamp - EPOCH) << 22) | (worker << 17) | (process << 12) | increment`. */
  function Reassemble(f: Snowflake): nat
    requires f.timestampMs >= DiscordEpoch
  {
    Or(Or(Or(ShiftLeft(f.timestampMs - DiscordEpoch, 22), ShiftLeft(f.workerId, 17)),
          ShiftLeft(f.processId, 12)),
       f.increment)
  }

  lemma {:induction false} ReassembleBit(id: nat, i: nat)
    ensures Bit(Or(Or(Or(ShiftLeft(id / Pow2(22), 22), ShiftLeft((id / Pow2(17)) % Pow2(5), 17)),
                      ShiftLeft((id / Pow2(12)) % Pow2(5), 12)),
                   id % Pow2(12)), i)
            == Bit(id, i)
  {
    var hi, w, p, inc := id / Pow2(22), (id / Pow2(17)) % Pow2(5), (id / Pow2(12)) % Pow2(5), id % Pow2(12);
    var a, b, c := ShiftLeft(hi, 22), ShiftLeft(w, 17), ShiftLeft(p, 12);
    ShiftLeftBit(hi, 22, i);
    ShiftLeftBit(w, 17, i);
    ShiftLeftBit(p, 12, i);
    LowBit(id, 12, i);
    assert Bit(a, i) == (i >= 22 && Bit(hi, i - 22));
    assert Bit(b, i) == (i >= 17 && Bit(w, i - 17));
    assert Bit(c, i) == (i >= 12 && Bit(p, i - 12));
    assert Bit(inc, i) == (i < 12 && Bit(id, i));
    if i >= 22 {
      ShiftRightBit(id, 22, i - 22);
      assert Bit(a, i) == Bit(id, i);
      assert !Bit(b, i) && !Bit(c, i) && !Bit(inc, i) by {
        LowBit(id / Pow2(17), 5, i - 17);
        LowBit(id / Pow2(12), 5, i - 12);
      }
    } else if i >= 17 {
      LowBit(id / Pow2(17), 5, i - 17);
      ShiftRightBit(id, 17, i - 17);
      assert Bit(b, i) == Bit(id, i);
      assert !Bit(c, i) by { LowBit(id / Pow2(12), 5, i - 12); }
    } else if i >= 12 {
      LowBit(id / Pow2(12), 5, i - 12);
      ShiftRightBit(id, 12, i - 12);
      assert Bit(c, i) == Bit(id, i);
    }
    assert Bit(Or(Or(Or(a, b), c), inc), i) == (Bit(a, i) || Bit(b, i) || Bit(c, i) || Bit(inc, i));
  }

  /** Decoding loses nothing: the four fields put back together give the ID. */
  lemma DecodeLossless(s: string)
    requires IsSnowflakeText(s)
    ensures Decode(s).Some? && Decode(s).value.timestampMs >= DiscordEpoch
    ensures Reassemble(Decode(s).value) == Value(s)
  {
    var id := Value(s);
    MaskLayout();
    var whole := Or(Or(Or(ShiftLeft(id / Pow2(22), 22), ShiftLeft((id / Pow2(17)) % Pow2(5), 17)),
                        ShiftLeft((id / Pow2(12)) % Pow2(5), 12)),
                     id % Pow2(12));
    forall i: nat ensures Bit(whole, i) == Bit(id, i) {
      ReassembleBit(id, i);
    }
    BitsDetermine(whole, id);
    assert Reassemble(Decode(s).value) == whole;
  }

  /** The degenerate ID "0" decodes to the epoch with zero fields. */
  lemma DecodeZero()
    ensures Decode("0") == Some(Snowflake(DiscordEpoch, 0, 0, 0))
  {
    assert Value("0") == 0;
  }

  /**
   * A real ID: any digit text whose value is 175928847299117063 decodes to
   * 1462015105796 ms, worker 1, process 0, increment 7.
   */
  lemma DecodeExample(s: string)
    requires IsSnowflakeText(s) && Value(s) == 175928847299117063
    ensures Decode(s) == Some(Snowflake(1462015105796, 1, 0, 7))
  {
    MaskLayout();
    assert Value(s) / 131072 == 1342230585473;
    assert Value(s) / 4096 == 42951378735136;
  }

  /**
   * The input handler stores `value.replace(/\D/g, '')`, so the stored text
   * is either empty or accepted by the decoder.
   */
  lemma StoredInputDecodes(raw: string)
    ensures Decode(StripNonDigits(raw)).None? <==> StripNonDigits(raw) == []
  {
  }
}
