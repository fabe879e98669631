/**
 * Decoding of the 32-byte key vector that XQueryKeymap fills, shared by the three display
 * implementations (`query_keymap` in src/input/xorg.rs, src/xorg/mod.rs and src/xorg.rs carry the
 * same loop). Bit `bit` of byte `ix` is set when X11 keycode `ix * 8 + bit` is held, and an X11
 * keycode is the kernel scan code plus 8.
 */
module Keymap {
  import opened Types
  import opened Keycodes

  /** The key vector: one bit per X11 keycode 0 to 255. */
  type KeyVector = s: seq<bv8> | |s| == 32 witness seq(32, _ => 0)

  /** True when the vector reports X11 keycode `ix * 8 + bit` as held. */
  predicate IsHeld(keymap: KeyVector, ix: nat, bit: nat)
    requires ix < 32 && bit < 8
  {
    keymap[ix] & (1 << bit) != 0
  }

  /**
   * Byte 0 covers X11 keycodes 0 to 7, which stand for no kernel code: for a bit there the
   * `x11_key - 8` of the decode loop would underflow its `u8`.
   */
  predicate NoReservedBits(keymap: KeyVector) {
    keymap[0] == 0
  }

  /** The kernel code of X11 keycode `ix * 8 + bit`. */
  function KernelCodeAt(ix: nat, bit: nat): u8
    requires 1 <= ix < 32 && bit < 8
  {
    ix * 8 + bit - 8
  }

  /** The keys the loop has collected once it has looked at every X11 keycode below `limit`. */
  ghost function DecodedBelow(keymap: KeyVector, limit: int): set<Keycode>
    requires NoReservedBits(keymap)
  {
    set ix: nat, bit: nat
      | ix < 32 && bit < 8 && ix * 8 + bit < limit && IsHeld(keymap, ix, bit)
      :: FromKernelCode(KernelCodeAt(ix, bit))
  }

  /** The set of held keys the vector reports. */
  ghost function HeldKeys(keymap: KeyVector): set<Keycode>
    requires NoReservedBits(keymap)
  {
    DecodedBelow(keymap, 256)
  }

  /** Looking at one more keycode adds its key when its bit is set, and nothing otherwise. */
  lemma DecodedBelowStep(keymap: KeyVector, ix: nat, bit: nat)
    requires NoReservedBits(keymap) && ix < 32 && bit < 8
    ensures DecodedBelow(keymap, ix * 8 + bit + 1)
         == DecodedBelow(keymap, ix * 8 + bit)
          + (if IsHeld(keymap, ix, bit) then {FromKernelCode(KernelCodeAt(ix, bit))} else {})
  {
    var before := DecodedBelow(keymap, ix * 8 + bit);
    var after := DecodedBelow(keymap, ix * 8 + bit + 1);
    var added: set<Keycode> := if IsHeld(keymap, ix, bit) then {FromKernelCode(KernelCodeAt(ix, bit))} else {};
    forall k | k in after
      ensures k in before + added
    {
      var i: nat, b: nat :| i < 32 && b < 8 && i * 8 + b < ix * 8 + bit + 1 && IsHeld(keymap, i, b)
        && FromKernelCode(KernelCodeAt(i, b)) == k;
      if i * 8 + b == ix * 8 + bit {
        assert i == ix && b == bit;
      }
    }
  }

  /**
   * A key is reported exactly when some set bit's keycode translates to it: the decode is
   * `from_kernel_code(ix * 8 + bit - 8)` over the set bits, collected into a set.
   */
  lemma HeldKeysMembers(keymap: KeyVector, key: Keycode)
    requires NoReservedBits(keymap)
    ensures key in HeldKeys(keymap)
        <==> exists ix: nat, bit: nat :: ix < 32 && bit < 8 && IsHeld(keymap, ix, bit)
                                         && FromKernelCode(KernelCodeAt(ix, bit)) == key
  {
    if key in HeldKeys(keymap) {
      var ix: nat, bit: nat :| ix < 32 && bit < 8 && ix * 8 + bit < 256 && IsHeld(keymap, ix, bit)
        && FromKernelCode(KernelCodeAt(ix, bit)) == key;
    }
  }

  /** A vector with no bit set reports no key. */
  lemma NothingHeld()
    ensures HeldKeys(seq(32, _ => 0)) == {}
  {
  }

  /**
   * Left and right Control (kernel codes 29 and 97, X11 keycodes 37 and 105) held together are
   * reported as the single key Control.
   */
  lemma BothControlsCollapse(keymap: KeyVector)
    requires forall ix :: 0 <= ix < 32 ==> keymap[ix] == (if ix == 4 then 0x20 else if ix == 13 then 0x02 else 0)
    ensures HeldKeys(keymap) == {Control}
  {
    assert IsHeld(keymap, 4, 5) && FromKernelCode(KernelCodeAt(4, 5)) == Control;
    forall k | k in HeldKeys(keymap)
      ensures k == Control
    {
      var ix: nat, bit: nat :| ix < 32 && bit < 8 && IsHeld(keymap, ix, bit)
        && FromKernelCode(KernelCodeAt(ix, bit)) == k;
      assert ix == 4 || ix == 13;
      assert (ix, bit) == (4, 5) || (ix, bit) == (13, 1);
    }
  }

  /**
   * The decode loop: for every byte and every bit in it, a set bit's X11 keycode `ix * 8 + bit`
   * (which fits in a `u8`) is turned into a kernel code by subtracting 8, translated, and added to
   * the set.
   */
  method Decode(keymap: KeyVector) returns (keys: set<Keycode>)
    requires NoReservedBits(keymap)
    ensures keys == HeldKeys(keymap)
  {
    keys := {};
    for ix := 0 to 32
      invariant keys == DecodedBelow(keymap, ix * 8)
    {
      var byte := keymap[ix];
      for bit := 0 to 8
        invariant keys == DecodedBelow(keymap, ix * 8 + bit)
      {
        var bitmask: bv8 := 1 << bit;
        if byte & bitmask != 0 {
          var x11Key: u8 := ix * 8 + bit;
          var kernelKey: u8 := x11Key - 8;
          keys := keys + {FromKernelCode(kernelKey)};
        }
        DecodedBelowStep(keymap, ix, bit);
      }
    }
  }
}
