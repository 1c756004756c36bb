/** How the two views meet at the gate: the code on a student's pass is the
    code the security officer types. */
module GateScenario {
  import opened JsRuntime
  import HostelTypes
  import SecurityView
  import StudentView

  /** The code on the student's seeded approved pass is one the terminal accepts,
      whether typed into the slots or by hand. */
  lemma SeedPassOpensGate(user: HostelTypes.User, now: int)
    ensures StudentView.GatePanel(StudentView.SeedLeaves(user, now)) == Some("742910")
    ensures SecurityView.VerifyOutcome("742910") == SecurityView.Success
    ensures SecurityView.DigitsOf("742910") == "742910"
  {
  }
}
