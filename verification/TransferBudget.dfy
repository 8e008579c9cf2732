/** One call of observe on the shared budget, with the raises of other calls between its load
    and its compare-and-swap given by a schedule. */
module BudgetObjects {
  import opened Common
  import M = BudgetModel

  /** The observed value after a series of raises. */
  function Raised(observed: int, raises: seq<int>): (r: int)
    ensures r >= observed
    ensures forall i :: 0 <= i < |raises| ==> r >= raises[i]
    ensures r == observed || r in raises
  {
    if raises == [] then observed
    else
      var r := Raised(observed, raises[..|raises| - 1]);
      assert raises == raises[..|raises| - 1] + [raises[|raises| - 1]];
      Max(r, raises[|raises| - 1])
  }

  class TransferBudget {
    const maxBytes: int
    var observed: int
    var tripped: bool
    var cancels: nat

    constructor (maxBytes: int)
      ensures this.maxBytes == maxBytes && observed == 0 && !tripped && cancels == 0
    {
      this.maxBytes := maxBytes;
      observed, tripped, cancels := 0, false, 0;
    }

    method CompareAndSwap(current: int, next: int) returns (swapped: bool)
      modifies this`observed
      ensures swapped == (old(observed) == current)
      ensures observed == if swapped then next else old(observed)
    {
      if observed != current { return false; }
      observed := next;
      return true;
    }

    /** The loop ends for every schedule: a failed swap brings the loaded value closer to the
        report. `rounds` is how many of the scheduled raises happened meanwhile; `tripping`
        tells whether another call set the kind before this one looked at it. */
    method Observe(downloaded: int, others: seq<int>, tripping: bool) returns (ghost rounds: nat)
      modifies this
      ensures rounds <= |others|
      ensures observed == if downloaded <= 0 then old(observed)
                          else Max(downloaded, Raised(old(observed), others[..rounds]))
      ensures tripped == (old(tripped) || (downloaded > 0 && (tripping || M.Exceeds(maxBytes, downloaded))))
      ensures cancels == old(cancels) + if tripped && !old(tripped) then 1 else 0
    {
      rounds := 0;
      if downloaded <= 0 { return; }
      var i := 0;
      assert others[..0] == [];
      while true
        invariant 0 <= i <= |others| && i == rounds
        invariant observed == Raised(old(observed), others[..i])
        invariant tripped == old(tripped) && cancels == old(cancels)
        decreases downloaded - observed, |others| - i
      {
        var current := observed;
        if downloaded <= current { break; }
        if i < |others| {
          RaisedOnce(old(observed), others, i);
          observed := Max(observed, others[i]);
          i := i + 1;
          rounds := i;
        }
        var swapped := CompareAndSwap(current, downloaded);
        if swapped { break; }
      }
      if tripping { var _ := TripOnce(); }
      if maxBytes > 0 && downloaded > maxBytes { var _ := TripOnce(); }
    }

    /** Compare-and-swap on the kind; the call that sets it cancels the transfer. */
    method TripOnce() returns (first: bool)
      modifies this`tripped, this`cancels
      ensures tripped && first == !old(tripped) && cancels == old(cancels) + if first then 1 else 0
    {
      first := !tripped;
      if first {
        tripped := true;
        cancels := cancels + 1;
      }
    }
  }

  lemma RaisedOnce(observed: int, raises: seq<int>, i: nat)
    requires i < |raises|
    ensures Raised(observed, raises[..i + 1]) == Max(Raised(observed, raises[..i]), raises[i])
  {
    assert raises[..i + 1][..i] == raises[..i];
  }
}
