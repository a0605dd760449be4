/** Finding the author of a block from its Aura pre-runtime digest. */
module AuraAuthor {
  import opened Wrappers

  type Byte = b: nat | b < 256
  type Account = nat

  const AURA_ENGINE_ID := "aura"

  datatype Digest = Digest(engine: string, data: seq<Byte>)

  /** SCALE decoding of a u64 slot: eight little-endian bytes; what follows them is ignored. */
  function DecodeSlot(data: seq<Byte>): Option<nat> {
    if |data| < 8 then None else Some(LittleEndian(data[..8]))
  }

  function LittleEndian(bytes: seq<Byte>): nat {
    if bytes == [] then 0 else bytes[0] + 256 * LittleEndian(bytes[1..])
  }

  function EncodeLittleEndian(slot: nat, width: nat): (bytes: seq<Byte>)
    ensures |bytes| == width
  {
    if width == 0 then [] else [slot % 256] + EncodeLittleEndian(slot / 256, width - 1)
  }

  function Pow256(width: nat): nat {
    if width == 0 then 1 else 256 * Pow256(width - 1)
  }

  lemma {:induction false} SlotRoundTrip(slot: nat, width: nat)
    requires slot < Pow256(width)
    ensures LittleEndian(EncodeLittleEndian(slot, width)) == slot
  {
    if width != 0 {
      SlotRoundTrip(slot / 256, width - 1);
      var bytes := EncodeLittleEndian(slot, width);
      assert bytes[1..] == EncodeLittleEndian(slot / 256, width - 1);
    }
  }

  /** The authority whose turn it is in `slot`. */
  function TurnOf(slot: nat, authorities: seq<Account>): Option<Account> {
    if authorities == [] then None else Some(authorities[slot % |authorities|])
  }

  function AuthorFrom(data: seq<Byte>, authorities: seq<Account>): Option<Account> {
    match DecodeSlot(data)
    case None => None
    case Some(slot) => TurnOf(slot, authorities)
  }

  /**
   Only the first Aura digest counts: what stands before or after it, and any later
   Aura digest, makes no difference, even when the first does not decode.
   */
  method FindAuthor(digests: seq<Digest>, authorities: seq<Account>) returns (author: Option<Account>)
    ensures (forall i :: 0 <= i < |digests| ==> digests[i].engine != AURA_ENGINE_ID) ==> author == None
    ensures forall i :: 0 <= i < |digests| && digests[i].engine == AURA_ENGINE_ID &&
                        (forall j :: 0 <= j < i ==> digests[j].engine != AURA_ENGINE_ID)
                        ==> author == AuthorFrom(digests[i].data, authorities)
  {
    for i := 0 to |digests|
      invariant forall j :: 0 <= j < i ==> digests[j].engine != AURA_ENGINE_ID
    {
      if digests[i].engine == AURA_ENGINE_ID {
        var slot := DecodeSlot(digests[i].data);
        if slot.None? {
          return None;
        }
        if |authorities| == 0 {
          return None;
        }
        return Some(authorities[slot.value % |authorities|]);
      }
    }
    return None;
  }

  /** A header that carries an encoded slot names the authority of that slot. */
  lemma EncodedSlotNamesItsAuthor(slot: nat, rest: seq<Byte>, authorities: seq<Account>)
    requires slot < 0x1_0000_0000_0000_0000
    ensures AuthorFrom(EncodeLittleEndian(slot, 8) + rest, authorities) == TurnOf(slot, authorities)
  {
    assert Pow256(8) == 0x1_0000_0000_0000_0000 by {
      assert Pow256(4) == 0x1_0000_0000;
    }
    SlotRoundTrip(slot, 8);
    assert (EncodeLittleEndian(slot, 8) + rest)[..8] == EncodeLittleEndian(slot, 8);
  }

  /** The authors of a window of as many consecutive slots as there are authorities. */
  function Window(start: nat, authorities: seq<Account>): seq<Option<Account>> {
    seq(|authorities|, k requires 0 <= k < |authorities| => TurnOf(start + k, authorities))
  }

  function Each(accounts: seq<Account>): seq<Option<Account>> {
    seq(|accounts|, k requires 0 <= k < |accounts| => Some(accounts[k]))
  }

  /** Such a window is a rotation of the authority list, so each of them has exactly one turn in it. */
  lemma WindowIsRotation(start: nat, authorities: seq<Account>)
    requires authorities != []
    ensures var r := start % |authorities|;
            Window(start, authorities) == Each(authorities[r..] + authorities[..r])
    ensures multiset(Window(start, authorities)) == multiset(Each(authorities))
  {
    var n, r := |authorities|, start % |authorities|;
    forall k | 0 <= k < n
      ensures Window(start, authorities)[k] == Each(authorities[r..] + authorities[..r])[k]
    {
      Shift(start, k, n);
    }
    assert Each(authorities) == Each(authorities[..r]) + Each(authorities[r..]);
    assert Each(authorities[r..] + authorities[..r]) == Each(authorities[r..]) + Each(authorities[..r]);
  }

  lemma Shift(a: nat, b: nat, n: nat)
    requires b < n
    ensures (a + b) % n == if a % n + b < n then a % n + b else a % n + b - n
  {
    var q := a / n;
    var r := if a % n + b < n then a % n + b else a % n + b - n;
    var p := if a % n + b < n then q else q + 1;
    assert a + b == p * n + r;
    RemainderIsUnique(a + b, p, r, n);
  }

  lemma RemainderIsUnique(x: nat, p: nat, r: nat, n: nat)
    requires r < n && x == p * n + r
    ensures x % n == r
  {
    var d := x / n - p;
    assert d * n == r - x % n;
    AtLeastOneStep(d, n);
  }

  lemma AtLeastOneStep(d: int, n: nat)
    ensures d >= 1 ==> d * n >= n
    ensures d <= -1 ==> d * n + n <= 0
  {
  }
}
