/**
 Start-up initialisation of the enable registry from the store. The decoding
 loop runs a fixed sixteen times, each iteration decoding one record's first
 byte into the registry. Three readings of the loop are modelled: the fixed
 offset the source reads every time (`InitButtons`), a corrected loop that
 advances one record per iteration (`InitButtonsAdvancing`), and the source's
 switch on the low byte of the buffer pointer (`InitAsWritten`).
 */
module Initialiser {
  import opened Eeprom
  import opened ButtonIds
  import opened EnableRegistry

  /** Number of read-and-decode steps the loop performs (buttons.c line 121). */
  const ITERATIONS: nat := 16

  /** Distance between successive records in the corrected loop: one read's length. */
  const RECORD_STRIDE: nat := READ_LENGTH

  /** The value a record decodes to: the first byte of the read at `offset`. */
  function DecodeRecord(store: Store, offset: nat): (v: byte)
    ensures v == store(offset)
  {
    Read(store, offset, READ_LENGTH)[0]
  }

  /** The values the source's loop decodes: the same offset on every iteration. */
  function FixedOffsetRecords(store: Store): (vs: seq<byte>)
    ensures |vs| == ITERATIONS
    ensures forall k :: 0 <= k < ITERATIONS ==> vs[k] == store(OPTIONS_OFFSET)
  {
    seq(ITERATIONS, _ => DecodeRecord(store, OPTIONS_OFFSET))
  }

  /** Offset of the `k`-th record when the loop advances one record per iteration. */
  function RecordOffset(k: nat): nat
  {
    OPTIONS_OFFSET + k * RECORD_STRIDE
  }

  /** The values the corrected loop decodes: one successive record per iteration. */
  function AdvancingRecords(store: Store): (vs: seq<byte>)
    ensures |vs| == ITERATIONS
    ensures forall k :: 0 <= k < ITERATIONS ==> vs[k] == store(RecordOffset(k))
  {
    seq(ITERATIONS, k requires 0 <= k => DecodeRecord(store, RecordOffset(k)))
  }

  /**
   The source's fixed-offset loop with the intended first-byte decoding:
   sixteen reads, all at OPTIONS_OFFSET, so the registry disables exactly the
   button whose index is stored there, if any. The switch as the source
   writes it, on the buffer's address, is `InitAsWritten`.
   */
  method InitButtons(store: Store) returns (reg: Registry, offsets: seq<nat>)
    ensures |offsets| == ITERATIONS
    ensures forall k :: 0 <= k < |offsets| ==> offsets[k] == OPTIONS_OFFSET
    ensures reg == Configure(AllEnabled(), FixedOffsetRecords(store))
    ensures forall b :: Enabled(reg, b) <==> store(OPTIONS_OFFSET) != ByteOf(b)
  {
    reg := AllEnabled();
    offsets := [];
    var i := 0;
    while i < ITERATIONS
      invariant 0 <= i <= ITERATIONS
      invariant |offsets| == i
      invariant forall k :: 0 <= k < i ==> offsets[k] == OPTIONS_OFFSET
      invariant reg == Configure(AllEnabled(), FixedOffsetRecords(store)[..i])
    {
      var offset := OPTIONS_OFFSET;
      var v := DecodeRecord(store, offset);
      assert FixedOffsetRecords(store)[..i + 1] == FixedOffsetRecords(store)[..i] + [v];
      reg := ApplyByte(reg, v);
      offsets := offsets + [offset];
      i := i + 1;
    }
    assert FixedOffsetRecords(store)[..i] == FixedOffsetRecords(store);
    assert FixedOffsetRecords(store)[0] == store(OPTIONS_OFFSET);
  }

  /**
   The corrected loop: iteration `k` reads the record at `RecordOffset(k)`,
   so every button whose index appears in one of the sixteen records ends up
   disabled and every other button stays enabled.
   */
  method InitButtonsAdvancing(store: Store) returns (reg: Registry, offsets: seq<nat>)
    ensures |offsets| == ITERATIONS
    ensures forall k :: 0 <= k < |offsets| ==> offsets[k] == RecordOffset(k)
    ensures reg == Configure(AllEnabled(), AdvancingRecords(store))
    ensures forall b :: !Enabled(reg, b) <==>
      exists k :: 0 <= k < ITERATIONS && store(RecordOffset(k)) == ByteOf(b)
  {
    reg := AllEnabled();
    offsets := [];
    var i := 0;
    while i < ITERATIONS
      invariant 0 <= i <= ITERATIONS
      invariant |offsets| == i
      invariant forall k :: 0 <= k < i ==> offsets[k] == RecordOffset(k)
      invariant reg == Configure(AllEnabled(), AdvancingRecords(store)[..i])
    {
      var offset := RecordOffset(i);
      var v := DecodeRecord(store, offset);
      assert AdvancingRecords(store)[..i + 1] == AdvancingRecords(store)[..i] + [v];
      reg := ApplyByte(reg, v);
      offsets := offsets + [offset];
      i := i + 1;
    }
    assert AdvancingRecords(store)[..i] == AdvancingRecords(store);
  }

  /** Every iteration of the source's loop reads the same offset, so at most one button is ever disabled. */
  lemma FixedOffsetDisablesAtMostOne(store: Store, a: ButtonId, b: ButtonId)
    requires !Enabled(Configure(AllEnabled(), FixedOffsetRecords(store)), a)
    requires !Enabled(Configure(AllEnabled(), FixedOffsetRecords(store)), b)
    ensures a == b
  {
    var v := DecodeRecord(store, OPTIONS_OFFSET);
    assert FixedOffsetRecords(store) == seq(ITERATIONS, _ => v);
    RepeatedByteDisablesAtMostOne(v, ITERATIONS, a, b);
  }

  /** A store laid out in records asking to disable Steam and Y (indices 2 and 9). */
  function SteamAndYStore(): Store
  {
    o => if o == RecordOffset(0) then 2 else if o == RecordOffset(1) then 9 else 0xFF
  }

  /**
   With records 2 and 9 at the first two record offsets, the source's loop
   disables only the Steam button, while the corrected loop disables both.
   */
  lemma FixedOffsetCounterexample()
    ensures Enabled(Configure(AllEnabled(), FixedOffsetRecords(SteamAndYStore())), YButton)
    ensures !Enabled(Configure(AllEnabled(), FixedOffsetRecords(SteamAndYStore())), SteamButton)
    ensures !Enabled(Configure(AllEnabled(), AdvancingRecords(SteamAndYStore())), YButton)
  {
    var store := SteamAndYStore();
    assert RecordOffset(0) == OPTIONS_OFFSET;
    assert store(OPTIONS_OFFSET) == 2;
    var fixed := FixedOffsetRecords(store);
    assert forall k :: 0 <= k < |fixed| ==> fixed[k] == 2;
    assert fixed[0] == 2;
    assert AdvancingRecords(store)[1] == 9;
  }

  /**
   The store that makes the corrected loop disable exactly `disabled`: record
   `k` holds `k` when button `k` is to be disabled and the erased value 0xFF
   otherwise.
   */
  function SubsetStore(disabled: set<ButtonId>): Store
  {
    o =>
      if o >= OPTIONS_OFFSET && (o - OPTIONS_OFFSET) % RECORD_STRIDE == 0
         && (o - OPTIONS_OFFSET) / RECORD_STRIDE < BUTTON_COUNT
         && SwitchTarget(((o - OPTIONS_OFFSET) / RECORD_STRIDE) as byte).value in disabled
      then ((o - OPTIONS_OFFSET) / RECORD_STRIDE) as byte
      else 0xFF
  }

  /** Record `k` of `SubsetStore(disabled)` names button `k` exactly when that button is to be disabled. */
  lemma SubsetStoreRecord(disabled: set<ButtonId>, k: nat)
    requires k < ITERATIONS
    ensures var v := SubsetStore(disabled)(RecordOffset(k));
      v == (if SwitchTarget(k as byte).value in disabled then k as byte else 0xFF)
  {
  }

  /**
   With the corrected loop every subset of buttons can be configured as the
   disabled set, the capability the fixed-offset loop lacks.
   */
  lemma AnySubsetConfigurable(disabled: set<ButtonId>)
    ensures forall b ::
      !Enabled(Configure(AllEnabled(), AdvancingRecords(SubsetStore(disabled))), b) <==> b in disabled
  {
    var store := SubsetStore(disabled);
    var vs := AdvancingRecords(store);
    forall b ensures ByteOf(b) in vs <==> b in disabled {
      SwitchTargetByteOf(b);
      if b in disabled {
        SubsetStoreRecord(disabled, Index(b));
        assert vs[Index(b)] == ByteOf(b);
      }
      if ByteOf(b) in vs {
        var k :| 0 <= k < |vs| && vs[k] == ByteOf(b);
        SubsetStoreRecord(disabled, k);
      }
    }
  }

  /** The low byte of the buffer's address, which the source's switch inspects. */
  function PointerLowByte(ptr: nat): byte
  {
    (ptr % 256) as byte
  }

  /**
   The loop exactly as the source's switch reads it: every iteration decodes
   the low byte of the buffer pointer, whatever the store holds, so the
   disabled button is decided by where the allocator put the buffer.
   */
  function InitAsWritten(ptr: nat): (r: Registry)
    ensures forall b :: Enabled(r, b) <==> ptr % 256 != Index(b)
  {
    Configure(AllEnabled(), seq(ITERATIONS, _ => PointerLowByte(ptr)))
  }

  /** A store configured to disable Steam only (index 2 at OPTIONS_OFFSET). */
  function SteamOnlyStore(): Store
  {
    o => if o == OPTIONS_OFFSET then 2 else 0xFF
  }

  /**
   With the buffer at 0x10000408 and Steam configured as disabled, the
   pointer-byte switch disables the right trackpad instead and leaves Steam
   enabled; decoding the byte read disables Steam.
   */
  lemma PointerCastCounterexample()
    ensures Enabled(InitAsWritten(0x1000_0408), SteamButton)
    ensures !Enabled(InitAsWritten(0x1000_0408), RightTrackpad)
    ensures !Enabled(Configure(AllEnabled(), FixedOffsetRecords(SteamOnlyStore())), SteamButton)
  {
  }

  /**
   With a buffer address that is a multiple of 8, the as-written switch can
   only ever disable the joystick click (address low byte 0) or the right
   trackpad (low byte 8), whatever the store holds.
   */
  lemma AlignedBufferDisables(ptr: nat, b: ButtonId)
    requires ptr % 8 == 0
    requires !Enabled(InitAsWritten(ptr), b)
    ensures b == AnalogJoyClick || b == RightTrackpad
  {
  }
}
