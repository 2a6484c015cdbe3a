/** Packing a message into the fixed radio payload of eleven bytes and back. */
module Serializer {
  import opened Parameters
  import opened Outcomes
  import opened Messages

  type Byte = b: int | 0 <= b < 256

  // where the fields lie in the payload
  const TYPE_INDEX := 0
  const MASTER_INDEX := 1
  const MASTER_LENGTH := 6
  const OFFSET_INDEX := 7
  const OFFSET_LENGTH := 3
  const WORK_INDEX := 10
  const PAYLOAD_LENGTH := 11

  /** A message whose fields fit the types of the source: 64-bit ID, DeltaSync, one byte of work. */
  predicate Sendable(m: Message) {
    0 <= m.master < Pow256(8) && m.ValidOffset() && 0 <= m.work < 256
  }

  function Code(kind: MessageType): Byte {
    match kind
    case MasterSync => 1
    case WorkSync => 2
    case ControlNetGranularity => 3
    case ControlScatterClique => 4
    case ControlWorkTime => 5
    case ControlWorkCycle => 6
    case MergeOther => 7
    case MergeMyMasterDepart => 8
    case MergeMySlaveDepart => 9
    case AbandonMastership => 10
    case Info => 11
    case Invalid => 12
  }

  function MessageTypeFromRaw(raw: Byte): MessageType {
    match raw
    case 1 => MasterSync
    case 2 => WorkSync
    case 3 => ControlNetGranularity
    case 4 => ControlScatterClique
    case 5 => MergeOther
    case 6 => MergeMyMasterDepart
    case 7 => MergeMySlaveDepart
    case 8 => AbandonMastership
    case 9 => Info
    case _ => Invalid
  }

  function Pow256(n: nat): (p: nat)
    ensures p >= 1
  {
    if n == 0 then 1 else 256 * Pow256(n - 1)
  }

  /** The low-order n bytes of a number, least significant first. */
  function LittleEndian(value: nat, n: nat): (bytes: seq<Byte>)
    ensures |bytes| == n
  {
    if n == 0 then [] else [value % 256] + LittleEndian(value / 256, n - 1)
  }

  function Number(bytes: seq<Byte>): nat {
    if bytes == [] then 0 else bytes[0] + 256 * Number(bytes[1..])
  }

  function Payload(m: Message): (bytes: seq<Byte>)
    requires Sendable(m)
    ensures |bytes| == PAYLOAD_LENGTH
  {
    [Code(m.kind)] + LittleEndian(m.master, MASTER_LENGTH) + LittleEndian(m.offset, OFFSET_LENGTH) + [m.work]
  }

  /** What a receiver reads: nothing for an unknown type, and a halt for an offset out of range. */
  function Parsed(bytes: seq<Byte>): Result<Option<Message>>
    requires |bytes| == PAYLOAD_LENGTH
  {
    var kind := MessageTypeFromRaw(bytes[TYPE_INDEX]);
    var offset := Number(bytes[OFFSET_INDEX..OFFSET_INDEX + OFFSET_LENGTH]);
    if kind == Invalid then Ok(None)
    else if offset > PERIOD then Halted(InvalidOffset)
    else Ok(Some(Message(kind, Number(bytes[MASTER_INDEX..MASTER_INDEX + MASTER_LENGTH]), offset, bytes[WORK_INDEX])))
  }

  lemma {:induction false} NumberRoundTrip(value: nat, n: nat)
    ensures Number(LittleEndian(value, n)) == value % Pow256(n)
    decreases n
  {
    if n != 0 {
      NumberRoundTrip(value / 256, n - 1);
      assert LittleEndian(value, n)[1..] == LittleEndian(value / 256, n - 1);
      ModuloProduct(value, Pow256(n - 1));
    }
  }

  /** The least significant byte comes first. */
  lemma {:induction false} BytesInOrder(value: nat, n: nat, k: nat)
    requires k < n
    ensures LittleEndian(value, n)[k] == value / Pow256(k) % 256
    decreases k
  {
    if k != 0 {
      BytesInOrder(value / 256, n - 1, k - 1);
      QuotientProduct(value, Pow256(k - 1));
    }
  }

  lemma QuotientProduct(value: nat, m: nat)
    requires m > 0
    ensures value / 256 / m == value / (256 * m)
  {
    var high, low := value / 256, value % 256;
    var q, r := high / m, high % m;
    assert high == q * m + r;
    assert value == 256 * (q * m + r) + low == q * (256 * m) + (256 * r + low);
    var d := 256 * m;
    assert 0 <= 256 * r + low < d;
    DivModUnique(value, d, q, 256 * r + low);
  }

  lemma ModuloProduct(value: nat, m: nat)
    requires m > 0
    ensures value % 256 + 256 * (value / 256 % m) == value % (256 * m)
  {
    var low, high := value % 256, value / 256;
    var q, r := high / m, high % m;
    assert high == q * m + r;
    var small := low + 256 * r;
    assert value == 256 * (q * m + r) + low == q * (256 * m) + small;
    assert 0 <= small < 256 * m;
    DivModUnique(value, 256 * m, q, small);
  }

  lemma {:induction false} FactorGap(a: nat, b: nat, d: nat)
    requires a < b
    ensures a * d + d <= b * d
    decreases b
  {
    assert b * d == (b - 1) * d + d;
    if a < b - 1 {
      FactorGap(a, b - 1, d);
    }
  }

  lemma DivModUnique(value: nat, d: nat, q: nat, r: nat)
    requires d > 0 && r < d && value == q * d + r
    ensures value % d == r && value / d == q
  {
    var q', r' := value / d, value % d;
    assert value == q' * d + r';
    if q < q' {
      FactorGap(q, q', d);
    } else if q' < q {
      FactorGap(q', q, d);
    }
  }

  lemma PayloadSlices(m: Message)
    requires Sendable(m)
    ensures var bytes := Payload(m);
            && bytes[TYPE_INDEX] == Code(m.kind) && bytes[WORK_INDEX] == m.work
            && bytes[MASTER_INDEX..MASTER_INDEX + MASTER_LENGTH] == LittleEndian(m.master, MASTER_LENGTH)
            && bytes[OFFSET_INDEX..OFFSET_INDEX + OFFSET_LENGTH] == LittleEndian(m.offset, OFFSET_LENGTH)
  {
  }

  lemma MasterField(m: Message)
    requires Sendable(m)
    ensures Number(Payload(m)[MASTER_INDEX..MASTER_INDEX + MASTER_LENGTH]) == m.master % Pow256(MASTER_LENGTH)
  {
    PayloadSlices(m);
    NumberRoundTrip(m.master, MASTER_LENGTH);
  }

  lemma OffsetFits()
    ensures PERIOD < Pow256(OFFSET_LENGTH)
  {
    assert Pow256(1) == 256 && Pow256(2) == 256 * Pow256(1);
  }

  lemma OffsetField(m: Message)
    requires Sendable(m)
    ensures Number(Payload(m)[OFFSET_INDEX..OFFSET_INDEX + OFFSET_LENGTH]) == m.offset
  {
    PayloadSlices(m);
    NumberRoundTrip(m.offset, OFFSET_LENGTH);
    OffsetFits();
  }

  /** Every message is read back with its offset, its work and the low 48 bits of its master, and with
      the type its code stands for on the receiving side. */
  lemma PayloadFields(m: Message)
    requires Sendable(m)
    ensures var kind := MessageTypeFromRaw(Code(m.kind));
            Parsed(Payload(m)) ==
            if kind == Invalid then Ok(None)
            else Ok(Some(Message(kind, m.master % Pow256(MASTER_LENGTH), m.offset, m.work)))
  {
    PayloadSlices(m);
    MasterField(m);
    OffsetField(m);
  }

  /** Round trip: a message survives exactly if its type carries sync and its master has 48 bits.  In
      particular no merge message is ever read as what it was sent as. */
  lemma RoundTrip(m: Message)
    requires Sendable(m)
    ensures Parsed(Payload(m)) == Ok(Some(m)) <==> CarriesSync(m.kind) && m.master < Pow256(MASTER_LENGTH)
  {
    PayloadFields(m);
    if m.master >= Pow256(MASTER_LENGTH) {
      assert m.master % Pow256(MASTER_LENGTH) < Pow256(MASTER_LENGTH);
    }
  }

  /** The codes sent, in the order of the enumeration, and what the types after the first four are taken for. */
  lemma MisreadTypes()
    ensures Code(MasterSync) == 1 && Code(WorkSync) == 2 && Code(ControlNetGranularity) == 3
    ensures Code(ControlScatterClique) == 4 && Code(ControlWorkTime) == 5 && Code(ControlWorkCycle) == 6
    ensures Code(MergeOther) == 7 && Code(MergeMyMasterDepart) == 8 && Code(MergeMySlaveDepart) == 9
    ensures Code(AbandonMastership) == 10 && Code(Info) == 11
    ensures forall kind :: IsMerge(kind) ==> MessageTypeFromRaw(Code(kind)) != kind
    ensures MessageTypeFromRaw(Code(ControlWorkTime)) == MergeOther
    ensures MessageTypeFromRaw(Code(ControlWorkCycle)) == MergeMyMasterDepart
    ensures MessageTypeFromRaw(Code(MergeOther)) == MergeMySlaveDepart
    ensures MessageTypeFromRaw(Code(MergeMyMasterDepart)) == AbandonMastership
    ensures MessageTypeFromRaw(Code(MergeMySlaveDepart)) == Info
    ensures MessageTypeFromRaw(Code(AbandonMastership)) == MessageTypeFromRaw(Code(Info)) == Invalid
  {
  }

  /** memcpy of the low-order bytes of a number into the buffer. */
  method CopyIn(buffer: array<Byte>, index: nat, length: nat, value: nat)
    requires index + length <= buffer.Length
    modifies buffer
    ensures buffer[..] == old(buffer[..index]) + LittleEndian(value, length) + old(buffer[index + length..])
  {
    var i, rest := 0, value;
    while i < length
      invariant 0 <= i <= length
      invariant buffer[..index] == old(buffer[..index])
      invariant buffer[index + i..] == old(buffer[index + i..])
      invariant buffer[index..index + i] + LittleEndian(rest, length - i) == LittleEndian(value, length)
    {
      ghost var done := buffer[index..index + i];
      buffer[index + i] := rest % 256;
      assert buffer[index..index + i + 1] == done + [rest % 256];
      assert done + ([rest % 256] + LittleEndian(rest / 256, length - i - 1)) ==
             (done + [rest % 256]) + LittleEndian(rest / 256, length - i - 1);
      rest := rest / 256;
      i := i + 1;
    }
    assert buffer[..] == buffer[..index] + buffer[index..index + length] + buffer[index + length..];
  }

  /** memcpy of some bytes of the buffer into a zeroed number. */
  method CopyOut(buffer: array<Byte>, index: nat, length: nat) returns (value: nat)
    requires index + length <= buffer.Length
    ensures value == Number(buffer[index..index + length])
  {
    value := 0;
    var i := length;
    while i > 0
      invariant 0 <= i <= length
      invariant value == Number(buffer[index + i..index + length])
    {
      i := i - 1;
      assert buffer[index + i..index + length][1..] == buffer[index + i + 1..index + length];
      value := buffer[index + i] + 256 * value;
    }
  }

  method SerializeSyncMessageIntoRadioBuffer(m: Message, buffer: array<Byte>)
    requires Sendable(m) && buffer.Length == PAYLOAD_LENGTH
    modifies buffer
    ensures buffer[..] == Payload(m)
  {
    buffer[TYPE_INDEX] := Code(m.kind);
    CopyIn(buffer, MASTER_INDEX, MASTER_LENGTH, m.master);
    CopyIn(buffer, OFFSET_INDEX, OFFSET_LENGTH, m.offset);
    buffer[WORK_INDEX] := m.work;
  }

  method Unserialize(buffer: array<Byte>) returns (r: Result<Option<Message>>)
    requires buffer.Length == PAYLOAD_LENGTH
    ensures r == Parsed(buffer[..])
  {
    var kind := MessageTypeFromRaw(buffer[TYPE_INDEX]);
    if kind == Invalid {
      return Ok(None);
    }
    var master := CopyOut(buffer, MASTER_INDEX, MASTER_LENGTH);
    var offset := CopyOut(buffer, OFFSET_INDEX, OFFSET_LENGTH);
    assert buffer[..][MASTER_INDEX..MASTER_INDEX + MASTER_LENGTH] == buffer[MASTER_INDEX..MASTER_INDEX + MASTER_LENGTH];
    assert buffer[..][OFFSET_INDEX..OFFSET_INDEX + OFFSET_LENGTH] == buffer[OFFSET_INDEX..OFFSET_INDEX + OFFSET_LENGTH];
    if offset > PERIOD {
      return Halted(InvalidOffset);
    }
    return Ok(Some(Message(kind, master, offset, buffer[WORK_INDEX])));
  }
}
