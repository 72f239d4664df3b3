/** The descriptor sets handed to select. */
module FdSets {

  /** nfds is one more than the largest descriptor in either set. */
  predicate Tight(nfds: nat, rfds: set<int>, wfds: set<int>)
  {
    nfds - 1 in rfds + wfds && forall fd :: fd in rfds + wfds ==> fd < nfds
  }
}
