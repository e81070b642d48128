/** What becomes of the file operations of a process. Each write is atomic. */
module Fates {

  datatype Fate = Done | Failed | Crashed

  function AllDone(n: nat): Fate {
    Done
  }

  ghost predicate Smooth(fate: nat -> Fate) {
    forall n :: fate(n) == Done
  }
}
