/** How a call to the file system, a host or the database ends. */
module Faults {

  /** It works, or it raises, or the process dies, before or after its effect. */
  datatype Fate = Works | FailsBefore | FailsAfter | DiesBefore | DiesAfter

  predicate Effective(f: Fate) { f.Works? || f.FailsAfter? || f.DiesAfter? }

  predicate Fails(f: Fate) { f.FailsBefore? || f.FailsAfter? }

  predicate Dies(f: Fate) { f.DiesBefore? || f.DiesAfter? }

  /** A call refused without an effect, which may still be the process's last. */
  function Refusal(f: Fate): Fate { if Dies(f) then DiesBefore else FailsBefore }

  /** How the next call ends: well, where nothing disturbs. */
  method Fated(smooth: bool) returns (fate: Fate)
    ensures smooth ==> fate == Works
  {
    fate := *;
    if smooth {
      fate := Works;
    }
  }
}
