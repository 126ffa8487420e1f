// What is known about how much of each model's history the log still holds.
module HistoryCoverage {

  datatype Mode = Full | Off | Retained

  datatype Coverage = Coverage(mode: Mode, complete: bool, hasGap: bool, removed: nat)

  type Coverages = map<string, Coverage>

  // A projection may be rebuilt from the log. Missing coverage is accepted: it is a legacy installation.
  predicate MayRebuild(coverage: Coverages, model: string) {
    model in coverage ==> coverage[model].mode == Full && coverage[model].complete
  }

  predicate Complete(coverage: Coverages, model: string) {
    model in coverage ==> coverage[model].complete
  }

  function Removed(coverage: Coverages, model: string): nat {
    if model in coverage then coverage[model].removed else 0
  }

  // A configured mode takes effect; what the history lacks it goes on lacking.
  function WithMode(coverage: Coverages, model: string, mode: Mode): Coverages {
    coverage[model := if model in coverage then coverage[model].(mode := mode) else Coverage(mode, true, false, 0)]
  }

  // A write left no event behind.
  function Skipped(coverage: Coverages, model: string): Coverages {
    coverage[model := if model in coverage then coverage[model].(complete := false, hasGap := true) else Coverage(Off, false, true, 0)]
  }

  // Old events were deleted.
  function Shortened(coverage: Coverages, model: string, count: nat): Coverages {
    coverage[model := if model in coverage then coverage[model].(complete := false, hasGap := true, removed := coverage[model].removed + count)
                      else Coverage(Retained, false, true, count)]
  }

  predicate Incomplete(coverage: Coverages, model: string) { model in coverage && !coverage[model].complete }

  // Once a model's history is marked incomplete nothing - restart, write or retention - clears the mark.
  lemma IncompleteStays(coverage: Coverages, model: string, other: string, mode: Mode, count: nat)
    requires Incomplete(coverage, model)
    ensures Incomplete(WithMode(coverage, other, mode), model) && Incomplete(Skipped(coverage, other), model) &&
            Incomplete(Shortened(coverage, other, count), model) && !MayRebuild(coverage, model)
  {
  }

  // A gap is noted exactly where the history is no longer whole.
  ghost predicate GapsAreNoted(coverage: Coverages) {
    forall m <- coverage :: coverage[m].hasGap <==> !coverage[m].complete
  }

  lemma GapsStayNoted(coverage: Coverages, model: string, mode: Mode, count: nat)
    requires GapsAreNoted(coverage)
    ensures GapsAreNoted(WithMode(coverage, model, mode)) && GapsAreNoted(Skipped(coverage, model)) &&
            GapsAreNoted(Shortened(coverage, model, count))
  {
  }
}
