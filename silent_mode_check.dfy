/**
 * `SilentModeCheck.ExecuteCheckAsync`: the command check that, while silent
 * mode is on, turns away members below trial moderator. A `None` result lets
 * the command run; `Some(reason)` refuses it.
 */
module CommandChecks {

  import opened Wrappers

  const SilentModeReason := "Silent mode is enabled and user is not a moderator"

  /**
   * `member` is `None` when the context has no member, otherwise the level
   * `GetPermLevelAsync` gives that member; `trialModerator` is the position of
   * `ServerPermLevel.TrialModerator` in the same order.
   */
  function SilentModeCheck(member: Option<int>, silentMode: bool, trialModerator: int): (r: Option<string>)
    ensures member.None? ==> r.None?
    ensures !silentMode ==> r.None?
    ensures r.Some? <==> member.Some? && silentMode && member.value < trialModerator
    ensures r.Some? ==> r.value == SilentModeReason
  {
    if member.None? then None
    else if silentMode && member.value < trialModerator then Some(SilentModeReason)
    else None
  }

  /** A member who passes still passes at any higher level. */
  lemma SilentModeCheckMonotone(level: int, higher: int, silentMode: bool, trialModerator: int)
    requires level <= higher
    requires SilentModeCheck(Some(level), silentMode, trialModerator).None?
    ensures SilentModeCheck(Some(higher), silentMode, trialModerator).None?
  {
  }
}
