/** The memory-status label of updateMemoryStatus, without its colours. */
module Memory {

  /** The status shown; each constructor is named after the text the
      status element displays. */
  datatype MemoryStatus = Empty | Optimized | Moderate | High

  /** How heavy a status is; the labels are ordered by message count. */
  function Severity(st: MemoryStatus): (k: nat)
    ensures k < 4
  {
    match st
    case Empty => 0
    case Optimized => 1
    case Moderate => 2
    case High => 3
  }

  /** The status of a log holding `count` messages. */
  function StatusOf(count: nat): (st: MemoryStatus)
    ensures st == Empty <==> count == 0
    ensures st == Optimized <==> 0 < count < 20
    ensures st == Moderate <==> 20 <= count < 50
    ensures st == High <==> 50 <= count
  {
    if count == 0 then Empty
    else if count < 20 then Optimized
    else if count < 50 then Moderate
    else High
  }

  /** More messages never give a lighter status. */
  lemma StatusMonotone(m: nat, n: nat)
    requires m <= n
    ensures Severity(StatusOf(m)) <= Severity(StatusOf(n))
  {
  }

  /** Any cap of at least 50 leaves the status unchanged: a log and its
      last `cap` messages always get the same label. */
  lemma StatusIgnoresCap(count: nat, cap: nat)
    requires cap >= 50
    ensures StatusOf(count) == StatusOf(if count <= cap then count else cap)
  {
  }
}
