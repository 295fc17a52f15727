/** The trust-tier gate that every request, job attempt and credential mint passes. */
module Policy {

  datatype Decision = Allow | RequiresApproval | Deny

  const READ_ONLY: int := 1
  const HUMAN_IN_THE_LOOP: int := 2
  const AUTONOMOUS: int := 3

  predicate ValidTier(tier: int) { READ_ONLY <= tier <= AUTONOMOUS }

  function Check(tier: int, mutating: bool): (d: Decision)
    ensures d.RequiresApproval? <==> tier == HUMAN_IN_THE_LOOP
    ensures d.Allow? <==> tier == AUTONOMOUS || (tier == READ_ONLY && !mutating)
    ensures !ValidTier(tier) ==> d.Deny?
  {
    if !ValidTier(tier) then Deny
    else if tier == READ_ONLY then if mutating then Deny else Allow
    else if tier == HUMAN_IN_THE_LOOP then RequiresApproval
    else Allow
  }
}
