/** What the modules about progress share: the state in which a run ends. */
module Runs {
  function Last<S>(run: seq<S>): S
    requires |run| > 0
  {
    run[|run| - 1]
  }
}
