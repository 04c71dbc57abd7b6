/** The weather-mode state machine behind the weather toggle button. */
module Modes {

  datatype Mode = Rain | Snow | Both

  /** The mode a page starts in. */
  const Initial: Mode := Both

  /** The mode the toggle switches to: both, then rain, then snow, then both again. */
  function Next(m: Mode): (n: Mode)
    ensures n != m
  {
    if m == Both then Rain else if m == Rain then Snow else Both
  }

  /** The cycle has length exactly three: one or two clicks never restore the mode, three always do. */
  lemma CycleOfThree(m: Mode)
    ensures Next(m) != m && Next(Next(m)) != m
    ensures Next(Next(Next(m))) == m
  {
  }

  /** The mode after `n` clicks of the toggle. */
  function Toggled(m: Mode, n: nat): Mode
  {
    if n == 0 then m else Next(Toggled(m, n - 1))
  }

  /** From the initial mode the clicks go to rain, then snow, then back to both. */
  lemma CycleOrder()
    ensures Toggled(Initial, 1) == Rain && Toggled(Initial, 2) == Snow && Toggled(Initial, 3) == Initial
  {
  }

  /** Only the click count modulo three matters: three clicks restore the mode. */
  lemma {:induction false} ToggledModThree(m: Mode, n: nat)
    ensures Toggled(m, n) == Toggled(m, n % 3)
  {
    if n >= 3 {
      ToggledModThree(m, n - 3);
      assert Toggled(m, n) == Next(Toggled(m, n - 1));
      assert Toggled(m, n - 1) == Next(Toggled(m, n - 2));
      assert Toggled(m, n - 2) == Next(Toggled(m, n - 3));
      CycleOfThree(Toggled(m, n - 3));
      assert (n - 3) % 3 == n % 3;
    }
  }

  /** Every mode is reached from every mode within two clicks. */
  lemma EveryModeReached(m: Mode, target: Mode)
    ensures exists k :: 0 <= k < 3 && Toggled(m, k) == target
  {
    if target == m {
      assert Toggled(m, 0) == target;
    } else if target == Next(m) {
      assert Toggled(m, 1) == target;
    } else {
      assert Toggled(m, 2) == target;
    }
  }

  /** The toggle button's caption for a mode. */
  function Label(m: Mode): string
  {
    if m == Both then "\U{1F327}\U{FE0F}\U{2744}\U{FE0F}"
    else if m == Rain then "\U{1F327}\U{FE0F}"
    else "\U{2744}\U{FE0F}"
  }

  /** Different modes show different captions. */
  lemma LabelsDistinct(m1: Mode, m2: Mode)
    ensures Label(m1) == Label(m2) ==> m1 == m2
  {
  }
}
