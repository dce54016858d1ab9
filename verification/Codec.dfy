/** The two byte formats of the gossip store: broadcast actions and the
    self-delimiting entries of a push/pull snapshot. */
module Codec {
  import opened Records

  type byte = x: int | 0 <= x < 256
  type Bytes = seq<byte>

  const TWO_63: int := 0x8000_0000_0000_0000
  const TWO_64: int := 0x1_0000_0000_0000_0000

  /** Signed 64-bit times travel as unsigned 64-bit integers. */
  predicate IsInt64(t: int) { -TWO_63 <= t < TWO_63 }

  function ToUnsigned(t: int): nat
    requires IsInt64(t)
  {
    if t < 0 then t + TWO_64 else t
  }

  function ToSigned(u: nat): int
    requires u < TWO_64
  {
    if u < TWO_63 then u else u - TWO_64
  }

  // ---- integers -----------------------------------------------------------

  function Pow256(k: nat): nat {
    if k == 0 then 1 else 256 * Pow256(k - 1)
  }

  /** The `k` low bytes of `v`, least significant first. */
  function Little(v: nat, k: nat): (b: Bytes)
    ensures |b| == k
  {
    if k == 0 then [] else [v % 256] + Little(v / 256, k - 1)
  }

  function FromLittle(b: Bytes): nat
    decreases |b|
  {
    if b == [] then 0 else b[0] + 256 * FromLittle(b[1..])
  }

  /** The `k` low bytes of `v`, most significant first. */
  function Big(v: nat, k: nat): (b: Bytes)
    ensures |b| == k
  {
    if k == 0 then [] else Big(v / 256, k - 1) + [v % 256]
  }

  function FromBig(b: Bytes): nat
    decreases |b|
  {
    if b == [] then 0 else b[|b| - 1] + 256 * FromBig(b[..|b| - 1])
  }

  lemma {:induction false} LittleRoundTrip(v: nat, k: nat)
    requires v < Pow256(k)
    ensures FromLittle(Little(v, k)) == v
  {
    if k > 0 {
      assert v / 256 < Pow256(k - 1);
      LittleRoundTrip(v / 256, k - 1);
      assert Little(v, k)[1..] == Little(v / 256, k - 1);
    }
  }

  lemma {:induction false} LittleOnto(b: Bytes)
    ensures FromLittle(b) < Pow256(|b|) && Little(FromLittle(b), |b|) == b
    decreases |b|
  {
    if b != [] {
      LittleOnto(b[1..]);
      var r := FromLittle(b[1..]);
      assert (b[0] + 256 * r) / 256 == r && (b[0] + 256 * r) % 256 == b[0];
      assert b == [b[0]] + b[1..];
    }
  }

  lemma {:induction false} BigRoundTrip(v: nat, k: nat)
    requires v < Pow256(k)
    ensures FromBig(Big(v, k)) == v
  {
    if k > 0 {
      assert v / 256 < Pow256(k - 1);
      BigRoundTrip(v / 256, k - 1);
      assert Big(v, k)[..k - 1] == Big(v / 256, k - 1);
    }
  }

  lemma {:induction false} BigOnto(b: Bytes)
    ensures FromBig(b) < Pow256(|b|) && Big(FromBig(b), |b|) == b
    decreases |b|
  {
    if b != [] {
      var n := |b| - 1;
      BigOnto(b[..n]);
      var r := FromBig(b[..n]);
      assert (b[n] + 256 * r) / 256 == r && (b[n] + 256 * r) % 256 == b[n];
      assert b == b[..n] + [b[n]];
    }
  }

  lemma Pow8()
    ensures Pow256(8) == TWO_64
  {
  }

  // ---- NUL-terminated keys ------------------------------------------------

  predicate NulFree(s: Bytes) { 0 !in s }

  /** Everything before the first NUL, or all of it when there is none. */
  function UpToNul(b: Bytes): (k: Bytes)
    ensures |k| <= |b| && k == b[..|k|] && NulFree(k)
    ensures |k| < |b| ==> b[|k|] == 0
    decreases |b|
  {
    if b == [] || b[0] == 0 then [] else [b[0]] + UpToNul(b[1..])
  }

  /** The terminated key is found whatever follows it. */
  lemma {:induction false} UpToNulOf(key: Bytes, tail: Bytes)
    requires NulFree(key)
    ensures UpToNul(key + [0] + tail) == key
    decreases |key|
  {
    if key != [] {
      assert (key + [0] + tail)[1..] == key[1..] + [0] + tail;
      assert key[0] in key;
      UpToNulOf(key[1..], tail);
    }
  }

  // ---- actions ------------------------------------------------------------

  /** The type byte is kept as it is: 1 sets, 2 deletes, others are unknown. */
  datatype Action = Action(typ: byte, time: int, key: Bytes, value: Bytes)

  const ACTION_SET: byte := 1
  const ACTION_DELETE: byte := 2

  /** Go's zero time, in milliseconds since 1970. */
  const ZERO_TIME: int := -62135596800000
  const NO_ACTION := Action(0, ZERO_TIME, [], [])

  predicate Sendable(a: Action) {
    IsInt64(a.time) && NulFree(a.key)
  }

  function ActionBytes(a: Action): Bytes
    requires Sendable(a)
  {
    [a.typ] + Little(ToUnsigned(a.time), 8) + a.key + [0] + a.value
  }

  /** Decoding; an error stands for a slice bound that panics. An empty buffer
      leaves the receiver as it was. */
  function ActionParse(b: Bytes): Result<Action> {
    if b == [] then Ok(NO_ACTION)
    else if |b| < 9 then Err("panic")
    else
      var key := UpToNul(b[9..]);
      if 10 + |key| > |b| then Err("panic")
      else
        LittleOnto(b[1..9]); Pow8();
        Ok(Action(b[0], ToSigned(FromLittle(b[1..9])), key, b[10 + |key|..]))
  }

  /** Decode undoes encode, for all NUL-free keys, values and signed times. */
  lemma ActionRoundTrip(a: Action)
    requires Sendable(a)
    ensures ActionParse(ActionBytes(a)) == Ok(a)
  {
    var t := Little(ToUnsigned(a.time), 8);
    var b := ActionBytes(a);
    Pow8();
    LittleRoundTrip(ToUnsigned(a.time), 8);
    assert b[1..9] == t;
    assert b[9..] == a.key + [0] + a.value;
    UpToNulOf(a.key, a.value);
    assert b[10 + |a.key|..] == a.value;
  }

  /** Encode undoes decode: every buffer that decodes is the encoding of what it
      decodes to, so no two messages read the same. */
  lemma ActionOnto(b: Bytes)
    requires b != [] && ActionParse(b).Ok?
    ensures Sendable(ActionParse(b).value) && ActionBytes(ActionParse(b).value) == b
  {
    hide Pow256, Little, FromLittle, UpToNul;
    var key := UpToNul(b[9..]);
    Pow8();
    LittleOnto(b[1..9]);
    assert b[9..][|key|] == 0;
    assert b == [b[0]] + b[1..9] + b[9..];
    assert b[9..] == key + [0] + b[10 + |key|..];
  }

  // ---- entries ------------------------------------------------------------

  datatype Item = Item(key: Bytes, time: int, value: Bytes)

  predicate Storable(e: Item) {
    IsInt64(e.time) && NulFree(e.key) && |e.value| < TWO_63
  }

  function ItemBytes(e: Item): Bytes
    requires Storable(e)
  {
    e.key + [0] + Big(ToUnsigned(e.time), 8) + Big(|e.value|, 8) + e.value
  }

  datatype Parsed = Parsed(item: Item, used: nat)

  /** Decoding one entry from the front of a non-empty buffer; the buffer has no
      spare capacity behind its length. */
  function ItemParse(b: Bytes): (r: Result<Parsed>)
    requires b != []
    ensures r.Ok? ==> 17 <= r.value.used <= |b|
  {
    var k := |UpToNul(b)|;
    if k + 17 > |b| then Err("panic")
    else
      var len := FromBig(b[k + 9..k + 17]);
      var o := k + 17;
      if len > |b| - o then Err("panic")
      else
        BigOnto(b[k + 1..k + 9]); Pow8();
        Ok(Parsed(Item(UpToNul(b), ToSigned(FromBig(b[k + 1..k + 9])), b[o..o + len]), o + len))
  }

  /** Decode on an encoding followed by any tail returns the entry and its exact
      length, which is at least 17. */
  lemma ItemRoundTrip(e: Item, tail: Bytes)
    requires Storable(e)
    ensures |ItemBytes(e)| >= 17
    ensures ItemParse(ItemBytes(e) + tail) == Ok(Parsed(e, |ItemBytes(e)|))
  {
    hide Big, FromBig, Pow256, UpToNul;
    var t := Big(ToUnsigned(e.time), 8);
    var l := Big(|e.value|, 8);
    Pow8();
    BigRoundTrip(ToUnsigned(e.time), 8);
    BigRoundTrip(|e.value|, 8);
    assert e.key + [0] + t + l + e.value + tail == e.key + [0] + (t + l + e.value + tail);
    UpToNulOf(e.key, t + l + e.value + tail);
    Slices(e.key, t, l, e.value, tail);
  }

  /** Where the four fields of an entry lie. */
  lemma Slices(key: Bytes, t: Bytes, l: Bytes, value: Bytes, tail: Bytes)
    requires |t| == |l| == 8
    ensures var b := key + [0] + t + l + value + tail;
            var k := |key|;
            && b[k + 1..k + 9] == t && b[k + 9..k + 17] == l
            && |b| == k + 17 + |value| + |tail| && b[k + 17..k + 17 + |value|] == value
  {
  }

  /** Encode undoes decode on the part of the buffer that was used. */
  lemma ItemOnto(b: Bytes)
    requires b != [] && ItemParse(b).Ok? && |b| < TWO_63
    ensures Storable(ItemParse(b).value.item)
    ensures ItemBytes(ItemParse(b).value.item) == b[..ItemParse(b).value.used]
  {
    hide Big, FromBig, Pow256;
    var key := UpToNul(b);
    var k := |key|;
    Pow8();
    BigOnto(b[k + 1..k + 9]);
    BigOnto(b[k + 9..k + 17]);
    var n := ItemParse(b).value.used;
    assert b[..n] == b[..k] + [b[k]] + b[k + 1..k + 9] + b[k + 9..k + 17] + b[k + 17..n];
  }

  /** A snapshot: the entries one after the other. */
  function SnapshotBytes(es: seq<Item>): Bytes
    requires forall k :: 0 <= k < |es| ==> Storable(es[k])
    decreases |es|
  {
    if es == [] then [] else ItemBytes(es[0]) + SnapshotBytes(es[1..])
  }

  /** The entries read before the end of the buffer or the first panic. */
  datatype Read = Read(items: seq<Item>, ok: bool)

  function SnapshotParse(b: Bytes): Read
    decreases |b|
  {
    if b == [] then Read([], true)
    else
      match ItemParse(b)
      case Err(_) => Read([], false)
      case Ok(p) =>
        var rest := SnapshotParse(b[p.used..]);
        Read([p.item] + rest.items, rest.ok)
  }

  /** The merge loop recovers every concatenated entry. */
  lemma {:induction false} SnapshotRoundTrip(es: seq<Item>)
    requires forall k :: 0 <= k < |es| ==> Storable(es[k])
    ensures SnapshotParse(SnapshotBytes(es)) == Read(es, true)
    decreases |es|
  {
    hide ItemBytes, ItemParse, Storable;
    if es != [] {
      var first := ItemBytes(es[0]);
      var rest := SnapshotBytes(es[1..]);
      ItemRoundTrip(es[0], rest);
      SnapshotRoundTrip(es[1..]);
      assert (first + rest)[|first|..] == rest;
      assert es == [es[0]] + es[1..];
    }
  }

  lemma {:induction false} SnapshotAppend(es: seq<Item>, e: Item)
    requires forall k :: 0 <= k < |es| ==> Storable(es[k])
    requires Storable(e)
    ensures SnapshotBytes(es + [e]) == SnapshotBytes(es) + ItemBytes(e)
    decreases |es|
  {
    hide ItemBytes, Storable;
    if es == [] {
      assert [e][1..] == [];
    } else {
      SnapshotAppend(es[1..], e);
      assert (es + [e])[1..] == es[1..] + [e];
    }
  }

  // ---- the bytes by position ----------------------------------------------

  /** The 64-bit number with these bytes, least significant first. */
  function Word(b0: int, b1: int, b2: int, b3: int, b4: int, b5: int, b6: int, b7: int): int {
    b0 + 0x100 * b1 + 0x1_0000 * b2 + 0x100_0000 * b3 + 0x1_0000_0000 * b4
    + 0x100_0000_0000 * b5 + 0x1_0000_0000_0000 * b6 + 0x100_0000_0000_0000 * b7
  }

  lemma LittleSum(b: Bytes)
    requires |b| == 8
    ensures FromLittle(b) == Word(b[0], b[1], b[2], b[3], b[4], b[5], b[6], b[7])
  {
    LittleFour(b);
    LittleFour(b[4..]);
    assert FromLittle(b[4..][4..]) == 0;
  }

  lemma LittleFour(b: Bytes)
    requires |b| >= 4
    ensures FromLittle(b) == Word(b[0], b[1], b[2], b[3], FromLittle(b[4..]), 0, 0, 0)
  {
    assert b[1..][1..] == b[2..] && b[2..][1..] == b[3..] && b[3..][1..] == b[4..];
    assert FromLittle(b[1..]) == b[1] + 256 * FromLittle(b[2..]);
    assert FromLittle(b[2..]) == b[2] + 256 * FromLittle(b[3..]);
    assert FromLittle(b[3..]) == b[3] + 256 * FromLittle(b[4..]);
  }

  lemma BigSum(b: Bytes)
    requires |b| == 8
    ensures FromBig(b) == Word(b[7], b[6], b[5], b[4], b[3], b[2], b[1], b[0])
  {
    BigFour(b);
    BigFour(b[..4]);
    assert FromBig(b[..4][..0]) == 0;
  }

  lemma BigFour(b: Bytes)
    requires |b| >= 4
    ensures var n := |b|;
            FromBig(b) == Word(b[n - 1], b[n - 2], b[n - 3], b[n - 4], FromBig(b[..n - 4]), 0, 0, 0)
  {
    var n := |b|;
    assert b[..n - 1][..n - 2] == b[..n - 2] && b[..n - 2][..n - 3] == b[..n - 3] && b[..n - 3][..n - 4] == b[..n - 4];
    assert FromBig(b[..n - 1]) == b[n - 2] + 256 * FromBig(b[..n - 2]);
    assert FromBig(b[..n - 2]) == b[n - 3] + 256 * FromBig(b[..n - 3]);
    assert FromBig(b[..n - 3]) == b[n - 4] + 256 * FromBig(b[..n - 4]);
  }

  /** The bytes of a set message: a 1, the time in two's complement with its least
      significant byte first, the key, a NUL, the value. */
  lemma SetMessageBytes(time: int, key: Bytes, value: Bytes)
    requires IsInt64(time) && NulFree(key)
    ensures var b := ActionBytes(Action(ACTION_SET, time, key, value));
            && |b| == 10 + |key| + |value| && b[0] == 1
            && Word(b[1], b[2], b[3], b[4], b[5], b[6], b[7], b[8]) ==
               (if time < 0 then 0x1_0000_0000_0000_0000 + time else time)
            && b[9..9 + |key|] == key && b[9 + |key|] == 0 && b[10 + |key|..] == value
  {
    var t := Little(ToUnsigned(time), 8);
    Pow8();
    LittleRoundTrip(ToUnsigned(time), 8);
    LittleSum(t);
    var b := ActionBytes(Action(ACTION_SET, time, key, value));
    hide Little, FromLittle, Pow256;
    assert b == [1] + t + key + [0] + value;
    assert b[1..9] == t;
    assert forall j :: 0 <= j < 8 ==> t[j] == b[1 + j];
  }

  /** The bytes of a snapshot entry: the key, a NUL, then the time in two's
      complement and the length of the value, both with their most significant
      byte first, and the value. */
  lemma EntryBytes(e: Item)
    requires Storable(e)
    ensures var b, k := ItemBytes(e), |e.key|;
            && |b| == k + 17 + |e.value| && b[..k] == e.key && b[k] == 0
            && Word(b[k + 8], b[k + 7], b[k + 6], b[k + 5], b[k + 4], b[k + 3], b[k + 2], b[k + 1]) ==
               (if e.time < 0 then 0x1_0000_0000_0000_0000 + e.time else e.time)
            && Word(b[k + 16], b[k + 15], b[k + 14], b[k + 13], b[k + 12], b[k + 11], b[k + 10], b[k + 9]) == |e.value|
            && b[k + 17..] == e.value
  {
    var t, l, k := Big(ToUnsigned(e.time), 8), Big(|e.value|, 8), |e.key|;
    Pow8();
    BigRoundTrip(ToUnsigned(e.time), 8);
    BigRoundTrip(|e.value|, 8);
    BigSum(t);
    BigSum(l);
    var b := ItemBytes(e);
    hide Big, FromBig, Pow256;
    assert b == e.key + [0] + t + l + e.value;
    hide ItemBytes, ToUnsigned;
    assert forall j :: 0 <= j < 8 ==> t[j] == b[k + 1 + j];
    assert forall j :: 0 <= j < 8 ==> l[j] == b[k + 9 + j];
    assert b[k + 17..] == e.value;
  }

  // ---- the encoders and decoders ------------------------------------------

  /** A broadcast message being written or read in place. */
  class ActionBuffer {
    var a: Action

    constructor (a: Action)
      ensures this.a == a
    {
      this.a := a;
    }

    /** Fails when the key holds a NUL, as the key conversion does. */
    method Encode() returns (buff: Result<Bytes>)
      requires IsInt64(a.time)
      ensures buff.Ok? <==> NulFree(a.key)
      ensures buff.Ok? ==> buff.value == ActionBytes(a) && ActionParse(buff.value) == Ok(a)
    {
      if 0 in a.key {
        return Err("panic");
      }
      var out: Bytes := [a.typ];
      out := out + Little(ToUnsigned(a.time), 8);
      out := out + a.key + [0];
      out := out + a.value;
      ActionRoundTrip(a);
      return Ok(out);
    }

    method Decode(buf: Bytes) returns (ok: bool)
      modifies this
      ensures buf == [] ==> ok && a == old(a)
      ensures buf != [] ==> (ok <==> ActionParse(buf).Ok?)
      ensures buf != [] && ok ==> Ok(a) == ActionParse(buf)
    {
      if |buf| < 1 {
        return true;
      }
      a := a.(typ := buf[0]);
      if |buf| < 9 {
        return false;
      }
      LittleOnto(buf[1..9]);
      Pow8();
      a := a.(time := ToSigned(FromLittle(buf[1..9])));
      a := a.(key := UpToNul(buf[9..]));
      if 9 + 1 + |a.key| > |buf| {
        return false;
      }
      a := a.(value := buf[9 + 1 + |a.key|..]);
      return true;
    }
  }

  /** A snapshot entry being written or read in place. */
  class EntryBuffer {
    var e: Item

    constructor ()
      ensures e == Item([], ZERO_TIME, [])
    {
      e := Item([], ZERO_TIME, []);
    }

    method Encode() returns (buff: Result<Bytes>)
      requires IsInt64(e.time) && |e.value| < TWO_63
      ensures buff.Ok? <==> NulFree(e.key)
      ensures buff.Ok? ==> buff.value == ItemBytes(e) && ItemParse(buff.value) == Ok(Parsed(e, |buff.value|))
    {
      if 0 in e.key {
        return Err("panic");
      }
      var out: Bytes := e.key + [0];
      out := out + Big(ToUnsigned(e.time), 8);
      out := out + Big(|e.value|, 8);
      out := out + e.value;
      ItemRoundTrip(e, []);
      assert out + [] == out;
      return Ok(out);
    }

    /** Returns the number of bytes used, or an error where a slice bound panics. */
    method Decode(buf: Bytes) returns (n: Result<nat>)
      modifies this
      ensures buf == [] ==> n == Ok(0) && e == old(e)
      ensures buf != [] ==> (n.Ok? <==> ItemParse(buf).Ok?)
      ensures buf != [] && n.Ok? ==> ItemParse(buf) == Ok(Parsed(e, n.value))
    {
      if |buf| < 1 {
        return Ok(0);
      }
      e := e.(key := UpToNul(buf));
      var k := |e.key|;
      if 1 + k + 8 > |buf| {
        return Err("panic");
      }
      BigOnto(buf[1 + k..1 + k + 8]);
      Pow8();
      e := e.(time := ToSigned(FromBig(buf[1 + k..1 + k + 8])));
      if 1 + 8 + k + 8 > |buf| {
        return Err("panic");
      }
      var l := FromBig(buf[1 + 8 + k..1 + 8 + k + 8]);
      var o := 1 + 8 + 8 + k;
      if l > |buf| - o {
        return Err("panic");
      }
      e := e.(value := buf[o..o + l]);
      return Ok(o + l);
    }
  }
}
