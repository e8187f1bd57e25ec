/**
 * The collaboration network of an artist: the first eight collaborations,
 * the total number of releases over all of them, and each collaboration's
 * share of that total as a whole percentage.
 */
module CollaborationNetwork {
  import opened Wrappers
  import opened Seqs
  import opened Models

  /** The number of collaborators shown. */
  const TopCount := 8

  function ReleaseCounts(collaborations: seq<Collaboration>): (r: seq<int>)
    ensures |r| == |collaborations|
    ensures forall i :: 0 <= i < |r| ==> r[i] == collaborations[i].releaseCount
  {
    seq(|collaborations|, i requires 0 <= i < |collaborations| => collaborations[i].releaseCount)
  }

  /** `Math.round(count / total * 100)`, halves rounded up, and 0 for a zero total. */
  function Percentage(count: int, total: int): (p: int)
    ensures total == 0 ==> p == 0
    ensures total > 0 ==> (2 * p - 1) * total <= 200 * count < (2 * p + 1) * total
    ensures total < 0 ==> (2 * p - 1) * -total <= -200 * count < (2 * p + 1) * -total
  {
    if total == 0 then 0
    else if total > 0 then (200 * count + total) / (2 * total)
    else (-200 * count - total) / (-2 * total)
  }

  /** Comparing two multiples of the same positive number compares the factors. */
  lemma MulCancel(a: int, b: int, t: int)
    requires t > 0
    ensures a * t <= b * t ==> a <= b
    ensures a * t < b * t ==> a < b
  {
    assert (a - b) * t == a * t - b * t;
  }

  /** A share of a positive total, between none and all of it, is a percentage from 0 to 100. */
  lemma PercentageBounds(count: int, total: int)
    requires 0 <= count <= total && total > 0
    ensures 0 <= Percentage(count, total) <= 100
  {
    var p := Percentage(count, total);
    MulCancel(0, 2 * p + 1, total);
    MulCancel(2 * p - 1, 200, total);
  }

  /** The whole total is 100 percent and none of it is 0 percent. */
  lemma PercentageEnds(total: int)
    requires total > 0
    ensures Percentage(total, total) == 100
    ensures Percentage(0, total) == 0
  {
    var p := Percentage(total, total);
    MulCancel(2 * p - 1, 200, total);
    MulCancel(200, 2 * p + 1, total);
    var z := Percentage(0, total);
    MulCancel(2 * z - 1, 0, total);
    MulCancel(0, 2 * z + 1, total);
  }

  /** Exactly one integer is the nearest with halves rounded up: the percentage is determined. */
  lemma PercentageUnique(count: int, total: int, q: int)
    requires total > 0
    requires (2 * q - 1) * total <= 200 * count < (2 * q + 1) * total
    ensures q == Percentage(count, total)
  {
    var p := Percentage(count, total);
    MulCancel(2 * q - 1, 2 * p + 1, total);
    MulCancel(2 * p - 1, 2 * q + 1, total);
  }

  class Network {
    var collaborations: seq<Collaboration>
    var artistName: string
    var topCollaborators: seq<Collaboration>
    var totalCollaborations: int

    /** The derived fields agree with the collaborations they were computed from. */
    predicate Valid()
      reads this
    {
      && topCollaborators == Take(collaborations, TopCount)
      && totalCollaborations == Sum(ReleaseCounts(collaborations))
    }

    constructor ()
      ensures Valid()
      ensures collaborations == [] && artistName == "" && topCollaborators == [] && totalCollaborations == 0
    {
      collaborations := [];
      artistName := "";
      topCollaborators := [];
      totalCollaborations := 0;
    }

    /** `processCollaborations`. */
    method ProcessCollaborations()
      modifies this
      ensures Valid()
      ensures collaborations == old(collaborations) && artistName == old(artistName)
    {
      topCollaborators := Take(collaborations, TopCount);
      totalCollaborations := Sum(ReleaseCounts(collaborations));
    }

    /**
     * New inputs followed by `ngOnChanges`: the derived fields are recomputed
     * only when the collaborations are among the changed inputs.
     */
    method InputsChanged(newCollaborations: Option<seq<Collaboration>>, newArtistName: Option<string>)
      modifies this
      ensures collaborations == newCollaborations.GetOr(old(collaborations))
      ensures artistName == newArtistName.GetOr(old(artistName))
      ensures newCollaborations.Some? ==> Valid()
      ensures newCollaborations.None? ==>
        topCollaborators == old(topCollaborators) && totalCollaborations == old(totalCollaborations)
    {
      if newArtistName.Some? {
        artistName := newArtistName.value;
      }
      if newCollaborations.Some? {
        collaborations := newCollaborations.value;
        ProcessCollaborations();
      }
    }

    /** `getCollaborationPercentage`. */
    function CollaborationPercentage(c: Collaboration): int
      reads this
    {
      Percentage(c.releaseCount, totalCollaborations)
    }

    /** With no negative release count, every listed collaboration's share is from 0 to 100 percent. */
    lemma ShareInRange(i: nat)
      requires Valid()
      requires i < |collaborations|
      requires forall j :: 0 <= j < |collaborations| ==> collaborations[j].releaseCount >= 0
      ensures 0 <= CollaborationPercentage(collaborations[i]) <= 100
    {
      var counts := ReleaseCounts(collaborations);
      SumBound(counts, i);
      if totalCollaborations > 0 {
        PercentageBounds(collaborations[i].releaseCount, totalCollaborations);
      }
    }
  }
}
