/** Sets of modifiers as machine words (src/core/kext/KeyCode.cpp:106-176, KeyCode.hpp:69-119).

    A word is the set of the positions of its one bits.  The left and right modifiers of a pair share a bit, so taking
    a modifier out of a word is more than clearing its bits.  The words that stand for sets of modifiers behave
    exactly like those sets.
 */
module FlagBits {
  import opened Modifiers

  const SHIFT_L: ModifierFlag := 2
  const SHIFT_R: ModifierFlag := 3
  const CONTROL_L: ModifierFlag := 4
  const CONTROL_R: ModifierFlag := 5
  const OPTION_L: ModifierFlag := 6
  const OPTION_R: ModifierFlag := 7
  const COMMAND_L: ModifierFlag := 8
  const COMMAND_R: ModifierFlag := 9
  const NUMPAD: ModifierFlag := 10
  const FN: ModifierFlag := 11

  type Word = set<nat>

  /** The bits of a modifier; the first one of a pair is its own, the second one that of its group. */
  function RawBits(m: ModifierFlag): Word {
    if m == CAPSLOCK then {16}
    else if m == SHIFT_L then {1, 17}
    else if m == SHIFT_R then {2, 17}
    else if m == CONTROL_L then {0, 18}
    else if m == CONTROL_R then {13, 18}
    else if m == OPTION_L then {5, 19}
    else if m == OPTION_R then {6, 19}
    else if m == COMMAND_L then {3, 20}
    else if m == COMMAND_R then {4, 20}
    else if m == NUMPAD then {21}
    else if m == FN then {23}
    else {}
  }

  /** The modifiers that have bits; all others are virtual. */
  predicate Real(m: ModifierFlag) { CAPSLOCK <= m <= FN }

  predicate IsOn(flags: Word, m: ModifierFlag) {
    m == ZERO || (RawBits(m) != {} && RawBits(m) <= flags)
  }

  ghost function OnSet(flags: Word): set<ModifierFlag> {
    set m: ModifierFlag | CAPSLOCK <= m <= FN && IsOn(flags, m)
  }

  /** The word of a set: all bits of its members. */
  ghost function Bits(s: set<ModifierFlag>): Word {
    set m, b | m in s && b in RawBits(m) :: b
  }

  /** A bit that no other modifier has. */
  function OwnBit(m: ModifierFlag): nat
    requires Real(m)
  {
    if m == CAPSLOCK then 16 else if m == SHIFT_L then 1 else if m == SHIFT_R then 2 else if m == CONTROL_L then 0
    else if m == CONTROL_R then 13 else if m == OPTION_L then 5 else if m == OPTION_R then 6
    else if m == COMMAND_L then 3 else if m == COMMAND_R then 4 else if m == NUMPAD then 21 else 23
  }

  lemma OwnBitApart(m: ModifierFlag, f: ModifierFlag)
    requires Real(m)
    ensures OwnBit(m) in RawBits(f) <==> f == m
  {
  }

  /** A modifier is on in the word of a set exactly when it is a member. */
  lemma BitsOn(s: set<ModifierFlag>, m: ModifierFlag)
    requires Real(m)
    ensures IsOn(Bits(s), m) <==> m in s
  {
    OwnBitApart(m, m);
    if IsOn(Bits(s), m) {
      assert OwnBit(m) in Bits(s);
      var f :| f in s && OwnBit(m) in RawBits(f);
      OwnBitApart(m, f);
    }
  }

  lemma BitsAdd(s: set<ModifierFlag>, m: ModifierFlag)
    ensures Bits(s) + RawBits(m) == Bits(s + {m})
  {
  }

  /** Words and sets of real modifiers correspond one to one. */
  lemma OnSetBits(s: set<ModifierFlag>)
    requires forall m :: m in s ==> Real(m)
    ensures OnSet(Bits(s)) == s
  {
    forall m: ModifierFlag | Real(m) ensures m in OnSet(Bits(s)) <==> m in s {
      BitsOn(s, m);
    }
  }

  // ---------------------------------------------------------------------------------------------
  // Flags::remove

  /** The modifiers registered with a key code: all real ones except NUMPAD, and virtual ones. */
  ghost predicate PairsOk(pairs: seq<ModifierFlag>) {
    (forall m :: Real(m) && m != NUMPAD ==> m in pairs) && NUMPAD !in pairs && ZERO !in pairs
  }

  /** Clear the bits of `m`, then set those of the first `n` registered modifiers that were on. */
  ghost function Removed(pairs: seq<ModifierFlag>, n: nat, flags: Word, m: ModifierFlag): Word
    requires n <= |pairs|
  {
    if n == 0 then flags - RawBits(m)
    else
      Removed(pairs, n - 1, flags, m) +
      if pairs[n - 1] != m && IsOn(flags, pairs[n - 1]) then RawBits(pairs[n - 1]) else {}
  }

  method Remove(pairs: seq<ModifierFlag>, flags: Word, m: ModifierFlag) returns (r: Word)
    ensures r == Removed(pairs, |pairs|, flags, m)
  {
    r := flags - RawBits(m);
    for i := 0 to |pairs|
      invariant r == Removed(pairs, i, flags, m)
    {
      if pairs[i] != m && IsOn(flags, pairs[i]) {
        r := r + RawBits(pairs[i]);
      }
    }
  }

  lemma BitsMember(s: set<ModifierFlag>, m: ModifierFlag, f: ModifierFlag)
    requires f != ZERO && f != m
    ensures IsOn(Bits(s), f) <==> Real(f) && f in s
    ensures Real(f) && f in s ==> RawBits(f) <= Bits(s - {m})
  {
    if Real(f) {
      BitsOn(s, f);
      assert f in s ==> f in s - {m};
    }
  }

  lemma BitsCleared(s: set<ModifierFlag>, m: ModifierFlag)
    ensures Bits(s) - RawBits(m) <= Bits(s - {m})
  {
  }

  lemma {:induction false} RemovedUpper(pairs: seq<ModifierFlag>, n: nat, s: set<ModifierFlag>, m: ModifierFlag)
    requires n <= |pairs| && ZERO !in pairs
    ensures Removed(pairs, n, Bits(s), m) <= Bits(s - {m})
  {
    if n == 0 {
      BitsCleared(s, m);
    } else {
      RemovedUpper(pairs, n - 1, s, m);
      RestoredWithin(s, m, pairs[n - 1]);
      var part := if pairs[n - 1] != m && IsOn(Bits(s), pairs[n - 1]) then RawBits(pairs[n - 1]) else {};
      UnionWithin(Removed(pairs, n - 1, Bits(s), m), part, Bits(s - {m}));
    }
  }

  lemma UnionWithin(a: Word, b: Word, t: Word)
    requires a <= t && b <= t
    ensures a + b <= t
  {
  }

  lemma RestoredWithin(s: set<ModifierFlag>, m: ModifierFlag, f: ModifierFlag)
    requires f != ZERO
    ensures f != m && IsOn(Bits(s), f) ==> RawBits(f) <= Bits(s - {m})
  {
    if f != m {
      BitsMember(s, m, f);
    }
  }

  lemma {:induction false} RemovedLower(pairs: seq<ModifierFlag>, n: nat, flags: Word, m: ModifierFlag, i: nat)
    requires i <= n <= |pairs|
    ensures flags - RawBits(m) <= Removed(pairs, n, flags, m)
    ensures i < n && pairs[i] != m && IsOn(flags, pairs[i]) ==> RawBits(pairs[i]) <= Removed(pairs, n, flags, m)
  {
    if n > 0 {
      RemovedLower(pairs, n - 1, flags, m, if i < n then i else n - 1);
    }
  }

  /** Removing a modifier from the word of a set gives the word of the set without it. */
  lemma RemoveCorrect(pairs: seq<ModifierFlag>, s: set<ModifierFlag>, m: ModifierFlag)
    requires PairsOk(pairs) && Real(m) && forall f :: f in s ==> Real(f)
    ensures Removed(pairs, |pairs|, Bits(s), m) == Bits(s - {m})
  {
    RemovedUpper(pairs, |pairs|, s, m);
    RemovedLower(pairs, |pairs|, Bits(s), m, |pairs|);
    var r := Removed(pairs, |pairs|, Bits(s), m);
    forall b | b in Bits(s - {m}) ensures b in r {
      var f :| f in s - {m} && b in RawBits(f);
      if f == NUMPAD {
        OwnBitApart(NUMPAD, m);
        assert b in Bits(s);
      } else {
        var i :| 0 <= i < |pairs| && pairs[i] == f;
        BitsMember(s, m, f);
        RemovedLower(pairs, |pairs|, Bits(s), m, i);
      }
    }
  }
}
