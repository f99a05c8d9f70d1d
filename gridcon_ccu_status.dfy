/**
 * The CCU status decoder (GridconPCS.getCurrentState): thirteen state flags,
 * read from the bits 0..12 of the CCU state word, are examined in a fixed
 * order and the first one that reads true names the state.
 */
module CcuStatus {
  import opened Wrappers
  import opened GridconTypes

  /** Bit i of the CCU state word carries the flag of Priority[i]; getCurrentState tests them in this order. */
  const Priority: seq<CCUState> := [
    Idle, Precharge, StopPrecharge, Ready, Pause, Run, Error, VoltageRampingUp,
    Overload, ShortCircuitDetected, DeratingPower, DeratingHarmonics, SiaActive]

  const FlagCount: nat := 13

  /** The values of the thirteen CCU_STATE_* channels, indexed like Priority. */
  type Flags = f: seq<Option<bool>> | |f| == FlagCount witness seq(13, i => None)

  /** A flag as getCurrentState reads it: an absent value counts as false. */
  predicate IsSet(flag: Option<bool>) {
    flag.GetOr(false)
  }

  /** getCurrentState: the priority if-chain of the source. */
  function CurrentState(f: Flags): (s: CCUState)
    ensures s == Undefined || s in Priority
    ensures s == Idle <==> IsSet(f[0])
  {
    if IsSet(f[0]) then Idle
    else if IsSet(f[1]) then Precharge
    else if IsSet(f[2]) then StopPrecharge
    else if IsSet(f[3]) then Ready
    else if IsSet(f[4]) then Pause
    else if IsSet(f[5]) then Run
    else if IsSet(f[6]) then Error
    else if IsSet(f[7]) then VoltageRampingUp
    else if IsSet(f[8]) then Overload
    else if IsSet(f[9]) then ShortCircuitDetected
    else if IsSet(f[10]) then DeratingPower
    else if IsSet(f[11]) then DeratingHarmonics
    else if IsSet(f[12]) then SiaActive
    else Undefined
  }

  /** Reference definition: the index of the first set flag at or after i. */
  function FirstSet(f: Flags, i: nat): Option<nat>
    requires i <= FlagCount
    decreases FlagCount - i
  {
    if i == FlagCount then None
    else if IsSet(f[i]) then Some(i)
    else FirstSet(f, i + 1)
  }

  /** FirstSet finds exactly the least set index at or after i. */
  lemma {:induction false} FirstSetIsLeast(f: Flags, i: nat)
    requires i <= FlagCount
    ensures FirstSet(f, i).Some? ==>
      var k := FirstSet(f, i).value;
      i <= k < FlagCount && IsSet(f[k]) && forall j :: i <= j < k ==> !IsSet(f[j])
    ensures FirstSet(f, i).None? <==> forall j :: i <= j < FlagCount ==> !IsSet(f[j])
    decreases FlagCount - i
  {
    if i < FlagCount && !IsSet(f[i]) {
      FirstSetIsLeast(f, i + 1);
    }
  }

  /** The if-chain agrees with the reference scan: the state of the first set flag, or Undefined. */
  lemma {:induction false} CurrentStateIsFirstSet(f: Flags)
    ensures CurrentState(f) == match FirstSet(f, 0) case Some(k) => Priority[k] case None => Undefined
  {
  }

  /** The decoded state is Priority[k] exactly when flag k is set and no flag before it is. */
  lemma StateOfFirstSetFlag(f: Flags, k: nat)
    requires k < FlagCount
    ensures CurrentState(f) == Priority[k] <==> IsSet(f[k]) && forall j :: 0 <= j < k ==> !IsSet(f[j])
  {
    CurrentStateIsFirstSet(f);
    FirstSetIsLeast(f, 0);
    if FirstSet(f, 0).Some? {
      var m := FirstSet(f, 0).value;
      assert Priority[m] == Priority[k] ==> m == k;
    }
  }

  /** No set flag (absent flags included) gives Undefined, and Undefined means no flag is set. */
  lemma UndefinedIffNoFlag(f: Flags)
    ensures CurrentState(f) == Undefined <==> forall j :: 0 <= j < FlagCount ==> !IsSet(f[j])
  {
    CurrentStateIsFirstSet(f);
    FirstSetIsLeast(f, 0);
  }

  /** Flags of lower priority than the winning one never change the result. */
  lemma LowerPriorityFlagsIgnored(f: Flags, g: Flags, k: nat)
    requires k < FlagCount && CurrentState(f) == Priority[k]
    requires forall j :: 0 <= j <= k ==> g[j] == f[j]
    ensures CurrentState(g) == Priority[k]
  {
    StateOfFirstSetFlag(f, k);
    StateOfFirstSetFlag(g, k);
  }

  /** Bit i of a 16-bit register word. */
  predicate Bit(w: bv16, i: nat)
    requires i < 16
  {
    (w >> i) & 1 == 1
  }

  /** The flags read from the CCU state word at register 32528 (bit i is Priority[i]). */
  function FlagsOfWord(w: bv16): Flags {
    seq(13, i requires 0 <= i < 13 => Some(Bit(w, i)))
  }

  /** A state word with exactly bit k set decodes to the state of bit k. */
  lemma SingleBitWord(k: nat)
    requires k < FlagCount
    ensures CurrentState(FlagsOfWord(1 << k)) == Priority[k]
  {
    var f := FlagsOfWord(1 << k);
    forall j | 0 <= j < FlagCount
      ensures IsSet(f[j]) <==> j == k
    {
      assert f[j] == Some(Bit(1 << k, j));
    }
    StateOfFirstSetFlag(f, k);
  }
}
