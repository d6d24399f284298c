/** `classify_donor_type`: the broad category of a donor's evolutionary state
    label, decided by substring tests on the lower-cased label. */
module DonorType {
  import opened Common

  datatype DonorType =
    | ShellHBurning
    | ShellHeBurning
    | ShellBurningOther
    | CoreHBurning
    | CoreHeBurning
    | CoreBurningOther
    | Other
    | Unknown

  /** The label the script writes into its `Donor_Type` column. */
  function Label(t: DonorType): string
  {
    match t
    case ShellHBurning => "Shell H Burning"
    case ShellHeBurning => "Shell He Burning"
    case ShellBurningOther => "Shell Burning (Other)"
    case CoreHBurning => "Core H Burning"
    case CoreHeBurning => "Core He Burning"
    case CoreBurningOther => "Core Burning (Other)"
    case Other => "Other"
    case Unknown => "Unknown"
  }

  /** `classify_donor_type(donor_state)`; `None` is a NaN / None state. */
  function Classify(donorState: Option<string>): (t: DonorType)
    ensures donorState.None? <==> t == Unknown
  {
    match donorState
    case None => Unknown
    case Some(s) =>
      var state := Lower(s);
      if Contains(state, "shell") then
        if Contains(state, "h") then ShellHBurning
        else if Contains(state, "he") then ShellHeBurning
        else ShellBurningOther
      else if Contains(state, "core") then
        if Contains(state, "h") then CoreHBurning
        else if Contains(state, "he") then CoreHeBurning
        else CoreBurningOther
      else Other
  }

  /** Every state mentioning "shell" (in any case) is a shell-H-burning donor:
      "shell" itself contains "h". */
  lemma ShellIsAlwaysShellH(s: string)
    requires Contains(Lower(s), "shell")
    ensures Classify(Some(s)) == ShellHBurning
  {
    assert "shell"[1..2] == "h";
    ContainsPiece(Lower(s), "shell", 1, 2);
  }

  /** The "he" tests come after an "h" test that already succeeds on every
      string containing "he", so three of the eight labels are never returned. */
  lemma DeadLabels(state: Option<string>)
    ensures Classify(state) != ShellHeBurning
    ensures Classify(state) != ShellBurningOther
    ensures Classify(state) != CoreHeBurning
  {
    if state.Some? {
      var s := Lower(state.value);
      if Contains(s, "shell") {
        ShellIsAlwaysShellH(state.value);
      } else if Contains(s, "he") {
        assert "he"[0..1] == "h";
        ContainsPiece(s, "he", 0, 1);
      }
    }
  }

  /** A core state (one without "shell") is a core-H-burning donor exactly when
      it contains "h", and otherwise a core donor of the "other" kind. */
  lemma CoreSplitsOnH(s: string)
    requires !Contains(Lower(s), "shell") && Contains(Lower(s), "core")
    ensures Classify(Some(s)) == CoreHBurning <==> Contains(Lower(s), "h")
    ensures !Contains(Lower(s), "h") ==> Classify(Some(s)) == CoreBurningOther
  {
    if !Contains(Lower(s), "h") && Contains(Lower(s), "he") {
      assert "he"[0..1] == "h";
      ContainsPiece(Lower(s), "he", 0, 1);
    }
  }

  /** The label is "Other" exactly for a present state mentioning neither
      "shell" nor "core". */
  lemma OtherIffNeither(s: string)
    ensures Classify(Some(s)) == Other <==> !Contains(Lower(s), "shell") && !Contains(Lower(s), "core")
  {
  }
}
