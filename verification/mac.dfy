/** Repeatable MAC addresses, packed from the guest and the interface number
    (proxmox/config_qemu.go). Go shifts and masks a 64-bit `int`. */
module Mac {
  datatype Address = Address(b0: bv64, b1: bv64, b2: bv64, b3: bv64, b4: bv64, b5: bv64)

  function Pairing(vmID: bv64, nicID: bv64): bv64 { (vmID << 5) | nicID }

  function Repeatable(vmID: bv64, nicID: bv64): Address {
    BytesOf(Pairing(vmID, nicID))
  }

  /** The byte slice `CreateQemuNetworksParams` fills. */
  method FillMac(vmID: bv64, nicID: bv64) returns (macaddr: array<bv64>)
    ensures fresh(macaddr) && macaddr.Length == 6
    ensures var a := Repeatable(vmID, nicID); macaddr[..] == [a.b0, a.b1, a.b2, a.b3, a.b4, a.b5]
  {
    macaddr := new bv64[6];
    var pairing := (vmID << 5) | nicID;
    macaddr[0] := 0x00;
    macaddr[1] := 0x18;
    macaddr[2] := 0x59;
    macaddr[3] := (pairing >> 16) & 0xff;
    macaddr[4] := (pairing >> 8) & 0xff;
    macaddr[5] := pairing & 0xff;
  }

  /** The 24 bits the last three bytes hold. */
  function Packed(a: Address): bv64 { (a.b3 << 16) | (a.b4 << 8) | a.b5 }

  function VmOf(a: Address): bv64 { Packed(a) >> 5 }

  function NicOf(a: Address): bv64 { Packed(a) & 0x1f }

  lemma SmallPairing(vmID: bv64, nicID: bv64)
    requires vmID < 0x80000 && nicID < 0x20
    ensures var p := Pairing(vmID, nicID) & 0xffffff; p >> 5 == vmID && p & 0x1f == nicID
  {
  }

  /** Below 2^19 guests and 32 interfaces, both numbers can be recovered from the address. */
  lemma Recoverable(vmID: bv64, nicID: bv64)
    requires vmID < 0x80000 && nicID < 0x20
    ensures VmOf(Repeatable(vmID, nicID)) == vmID && NicOf(Repeatable(vmID, nicID)) == nicID
  {
    var p := Pairing(vmID, nicID);
    PackedBytes(p);
    SmallPairing(vmID, nicID);
  }

  /** Distinct pairs in that range get distinct addresses. */
  lemma Injective(vmID: bv64, nicID: bv64, vmID': bv64, nicID': bv64)
    requires vmID < 0x80000 && nicID < 0x20 && vmID' < 0x80000 && nicID' < 0x20
    requires Repeatable(vmID, nicID) == Repeatable(vmID', nicID')
    ensures vmID == vmID' && nicID == nicID'
  {
    Recoverable(vmID, nicID);
    Recoverable(vmID', nicID');
  }

  function BytesOf(p: bv64): Address {
    Address(0x00, 0x18, 0x59, (p >> 16) & 0xff, (p >> 8) & 0xff, p & 0xff)
  }

  lemma BytesOfLowBits(p: bv64)
    ensures BytesOf(p) == BytesOf(p & 0xffffff)
  {
  }

  lemma PackedBytes(p: bv64)
    ensures Packed(BytesOf(p)) == p & 0xffffff
  {
  }

  lemma SameBytes(p: bv64, q: bv64)
    requires p & 0xffffff == q & 0xffffff
    ensures BytesOf(p) == BytesOf(q)
  {
    BytesOfLowBits(p);
    BytesOfLowBits(q);
  }

  lemma SameLowBits(p: bv64, q: bv64)
    requires BytesOf(p) == BytesOf(q)
    ensures p & 0xffffff == q & 0xffffff
  {
    var a := BytesOf(p);
    PackedBytes(p);
    PackedBytes(q);
    assert Packed(a) == p & 0xffffff;
  }

  /** Without the range: two pairings get the same address exactly when their low 24 bits are equal. */
  lemma CollisionsExactly(p: bv64, q: bv64)
    ensures BytesOf(p) == BytesOf(q) <==> p & 0xffffff == q & 0xffffff
  {
    if p & 0xffffff == q & 0xffffff {
      SameBytes(p, q);
    } else if BytesOf(p) == BytesOf(q) {
      SameLowBits(p, q);
    }
  }

  /** Both bounds are sharp: the next guest number and the next interface number collide. */
  lemma BoundsAreSharp()
    ensures Repeatable(0x80000, 0) == Repeatable(0, 0)
    ensures Repeatable(0, 0x20) == Repeatable(1, 0)
  {
  }
}
