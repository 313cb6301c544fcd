/**
 The button enable registry: one flag per button, all set by default, and
 the decoder that clears the flag a configuration byte names.
 */
module EnableRegistry {
  import opened Wrappers
  import opened Eeprom
  import opened ButtonIds

  /** Sixteen enable flags, slot `Index(b)` holding the flag of button `b`. */
  type Registry = r: seq<bool> | |r| == BUTTON_COUNT witness seq(16, _ => true)

  /** Whether button `b` is enabled in `r`. */
  function Enabled(r: Registry, b: ButtonId): bool
  {
    r[Index(b)]
  }

  /** The configuration byte that disables `b`: its index. */
  function ByteOf(b: ButtonId): byte
  {
    Index(b) as byte
  }

  /** The registry before any configuration: every button enabled (buttons.c lines 61-76). */
  function AllEnabled(): (r: Registry)
    ensures forall b :: Enabled(r, b)
  {
    seq(BUTTON_COUNT, _ => true)
  }

  /** The button whose flag the decoder's switch clears for value `v`, if any. */
  function SwitchTarget(v: byte): (r: Option<ButtonId>)
    ensures r.Some? <==> (v as int) < BUTTON_COUNT
    ensures r.Some? ==> ByteOf(r.value) == v
  {
    match v
    case 0 => Some(AnalogJoyClick)
    case 1 => Some(LeftGrip)
    case 2 => Some(SteamButton)
    case 3 => Some(LeftTrackpad)
    case 4 => Some(LeftTrigger)
    case 5 => Some(LeftBumper)
    case 6 => Some(FrontLeft)
    case 7 => Some(FrontRight)
    case 8 => Some(RightTrackpad)
    case 9 => Some(YButton)
    case 10 => Some(RightTrigger)
    case 11 => Some(RightBumper)
    case 12 => Some(RightGrip)
    case 13 => Some(BButton)
    case 14 => Some(XButton)
    case 15 => Some(AButton)
    case _ => None
  }

  /** The switch inverts `ByteOf`: each button's byte selects that button. */
  lemma SwitchTargetByteOf(b: ButtonId)
    ensures SwitchTarget(ByteOf(b)) == Some(b)
  {
  }

  /** Distinct buttons are disabled by distinct bytes. */
  lemma ByteOfInjective(a: ButtonId, b: ButtonId)
    ensures ByteOf(a) == ByteOf(b) ==> a == b
  {
  }

  /** Two registries that agree on every button are the same registry. */
  lemma Extensionality(r: Registry, s: Registry)
    requires forall b :: Enabled(r, b) == Enabled(s, b)
    ensures r == s
  {
    forall i | 0 <= i < BUTTON_COUNT
      ensures r[i] == s[i]
    {
      var b := SwitchTarget(i as byte).value;
      assert Enabled(r, b) == Enabled(s, b);
    }
  }

  /**
   One pass of the decoder's switch: a value naming a button clears that
   button's flag, any other value matches no case and changes nothing.
   */
  function ApplyByte(r: Registry, v: byte): (r': Registry)
    ensures forall b :: Enabled(r', b) == (Enabled(r, b) && ByteOf(b) != v)
    ensures BUTTON_COUNT <= v as int ==> r' == r
  {
    match SwitchTarget(v)
    case None => r
    case Some(b) =>
      forall c | c != b ensures ByteOf(c) != v { ByteOfInjective(b, c); }
      r[Index(b) := false]
  }

  /** The registry after decoding the values `vs` in order, starting from `r`. */
  function Configure(r: Registry, vs: seq<byte>): (c: Registry)
    ensures forall b :: Enabled(c, b) == (Enabled(r, b) && ByteOf(b) !in vs)
    decreases |vs|
  {
    if |vs| == 0 then r
    else
      var prefix := vs[..|vs| - 1];
      assert vs == prefix + [vs[|vs| - 1]];
      ApplyByte(Configure(r, prefix), vs[|vs| - 1])
  }

  /** Decoding the same value twice leaves the registry as decoding it once. */
  lemma ApplyByteIdempotent(r: Registry, v: byte)
    ensures ApplyByte(ApplyByte(r, v), v) == ApplyByte(r, v)
  {
    Extensionality(ApplyByte(ApplyByte(r, v), v), ApplyByte(r, v));
  }

  /** Decoding never sets a flag: a button enabled afterwards was enabled before. */
  lemma ConfigureOnlyClears(r: Registry, vs: seq<byte>, b: ButtonId)
    ensures Enabled(Configure(r, vs), b) ==> Enabled(r, b)
  {
  }

  /** Enabled-ness is non-increasing along the iterations of the decoding loop. */
  lemma ConfigurePrefixMonotone(r: Registry, vs: seq<byte>, i: nat, j: nat, b: ButtonId)
    requires i <= j <= |vs|
    ensures Enabled(Configure(r, vs[..j]), b) ==> Enabled(Configure(r, vs[..i]), b)
  {
  }

  /** Rerunning the same decoding over its own result changes nothing. */
  lemma ConfigureIdempotent(r: Registry, vs: seq<byte>)
    ensures Configure(Configure(r, vs), vs) == Configure(r, vs)
  {
    Extensionality(Configure(Configure(r, vs), vs), Configure(r, vs));
  }

  /** Only which values occur matters, not their order or how often they repeat. */
  lemma ConfigureDependsOnlyOnValues(r: Registry, vs: seq<byte>, ws: seq<byte>)
    requires forall v :: v in vs <==> v in ws
    ensures Configure(r, vs) == Configure(r, ws)
  {
    Extensionality(Configure(r, vs), Configure(r, ws));
  }

  /** Decoding one value over and over has the effect of decoding it once. */
  lemma RepeatedByte(r: Registry, v: byte, n: nat)
    requires 0 < n
    ensures Configure(r, seq(n, _ => v)) == ApplyByte(r, v)
  {
    assert seq(n, _ => v)[0] == v;
    Extensionality(Configure(r, seq(n, _ => v)), ApplyByte(r, v));
  }

  /** If every iteration decodes the same value, at most one button ends up disabled. */
  lemma RepeatedByteDisablesAtMostOne(v: byte, n: nat, a: ButtonId, b: ButtonId)
    requires !Enabled(Configure(AllEnabled(), seq(n, _ => v)), a)
    requires !Enabled(Configure(AllEnabled(), seq(n, _ => v)), b)
    ensures a == b
  {
    var vs := seq(n, _ => v);
    assert ByteOf(a) in vs && ByteOf(b) in vs;
    assert ByteOf(a) == v by {
      var k :| 0 <= k < n && vs[k] == ByteOf(a);
    }
    assert ByteOf(b) == v by {
      var k :| 0 <= k < n && vs[k] == ByteOf(b);
    }
    ByteOfInjective(a, b);
  }
}
