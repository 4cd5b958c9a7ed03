/** Runs of a step relation, as lists of states. */
module Runs {

  ghost predicate IsPath<W(!new)>(step: (W, W) -> bool, ws: seq<W>) {
    ws != [] && forall k :: 0 <= k < |ws| - 1 ==> step(ws[k], ws[k + 1])
  }

  lemma PathSnoc<W(!new)>(step: (W, W) -> bool, ws: seq<W>, w: W)
    requires IsPath(step, ws) && step(ws[|ws| - 1], w)
    ensures IsPath(step, ws + [w])
  {
    var all := ws + [w];
    forall k | 0 <= k < |all| - 1 ensures step(all[k], all[k + 1]) {
      if k < |ws| - 1 {
        assert step(ws[k], ws[k + 1]);
      }
    }
  }

  /** What every step keeps holds in every state of a run that starts with it. */
  lemma {:induction false} PathKeeps<W(!new)>(step: (W, W) -> bool, inv: W -> bool, ws: seq<W>, k: nat)
    requires IsPath(step, ws) && k < |ws| && inv(ws[0])
    requires forall w, w' :: inv(w) && step(w, w') ==> inv(w')
    ensures inv(ws[k])
  {
    if k > 0 {
      PathKeeps(step, inv, ws, k - 1);
    }
  }
}
