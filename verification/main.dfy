/**
 * The main scene: it owns the reels and forwards the HUD's spin toggle to
 * each of them, starting all reels or stopping all reels together.
 */
module MainScene {
  import opened Sectors
  import Reels

  /**
   * What a reel goes through when the scene's toggle leaves the scene's flag
   * at `spinning`: a start when it is now set, a stop on the reel's pointed
   * sector when it is now clear.
   */
  function Broadcast(spinning: bool, r: Reels.ReelState, pointsTo: Sector): Reels.ReelState
  {
    if spinning then Reels.AfterTrySpin(r) else Reels.AfterStopSpinning(r, pointsTo)
  }

  /**
   * While a reel's own flag agrees with the scene's flag, the scene's toggle
   * does to the reel what the reel's own toggle does, except that the reel's
   * flag is left alone.
   */
  lemma BroadcastMatchesReelToggle(sceneSpinning: bool, r: Reels.ReelState, pointsTo: Sector)
    requires r.spinning == sceneSpinning
    ensures Broadcast(!sceneSpinning, r, pointsTo) ==
      Reels.AfterToggleSpin(r, pointsTo).(spinning := r.spinning)
  {
  }

  /** Two toggles in a row start every reel and then stop it on its pointed sector. */
  lemma ToggleTwiceSpinsThenLands(r: Reels.ReelState, pointsTo: Sector)
    ensures var landed := Broadcast(false, Broadcast(true, r, pointsTo), pointsTo);
      && landed.landedOn == r.landedOn + [pointsTo]
      && !landed.spinner.spinning
  {
  }

  /** One reel's share of the broadcast: start it, or stop it on its pointed sector. */
  method Forward(reel: Reels.Reel, spinning: bool, pointsTo: Sector)
    requires reel.Valid() && (!spinning ==> reel.spinner.OnLayout(pointsTo))
    modifies reel, reel.spinner
    ensures reel.Valid() && reel.Snapshot() == Broadcast(spinning, old(reel.Snapshot()), pointsTo)
  {
    if spinning {
      reel.TrySpin();
    } else {
      reel.StopSpinning(pointsTo);
    }
  }

  class MainNode {
    /** The scene's reel children, found once when the scene is ready. */
    const reels: seq<Reels.Reel>
    var spinning: bool

    /** Every reel and spinner the scene reaches. */
    ghost const Repr: set<object>

    /** The reels and their spinners are distinct objects, all in Repr; this reads only constants. */
    ghost predicate Wired()
    {
      && (forall i :: 0 <= i < |reels| ==> reels[i] in Repr && reels[i].spinner in Repr)
      && (forall i, j :: 0 <= i < |reels| && 0 <= j < |reels| && i != j ==>
            reels[i] != reels[j] && reels[i].spinner != reels[j].spinner)
    }

    ghost predicate Valid()
      reads this, Repr
    {
      Wired() && forall i :: 0 <= i < |reels| ==> reels[i].Valid()
    }

    constructor (reels: seq<Reels.Reel>)
      requires forall i, j :: 0 <= i < |reels| && 0 <= j < |reels| && i != j ==>
                 reels[i] != reels[j] && reels[i].spinner != reels[j].spinner
      requires forall i :: 0 <= i < |reels| ==> reels[i].Valid()
      ensures Valid() && this.reels == reels && !spinning
    {
      this.reels := reels;
      spinning := false;
      Repr := (set i | 0 <= i < |reels| :: reels[i] as object) + (set i | 0 <= i < |reels| :: reels[i].spinner as object);
    }

    /**
     * _on_HUD_ToggleSpin: flips the scene's flag, then starts every reel when
     * it is set and stops every reel when it is clear.  `pointsTo[i]` is the
     * sector reel i's pointer points to.
     */
    method ToggleSpin(pointsTo: seq<Sector>)
      requires Valid() && |pointsTo| == |reels|
      requires spinning ==> forall i :: 0 <= i < |reels| ==> reels[i].spinner.OnLayout(pointsTo[i])
      modifies this, Repr
      ensures Valid() && spinning == !old(spinning)
      ensures forall i :: 0 <= i < |reels| ==>
        reels[i].Snapshot() == Broadcast(spinning, old(reels[i].Snapshot()), pointsTo[i])
    {
      spinning := !spinning;
      for i := 0 to |reels|
        invariant Wired() && spinning == !old(spinning)
        invariant forall j :: 0 <= j < |reels| ==>
          && reels[j].Valid()
          && reels[j].Snapshot() == (if j < i then Broadcast(spinning, old(reels[j].Snapshot()), pointsTo[j])
                                     else old(reels[j].Snapshot()))
      {
        Forward(reels[i], spinning, pointsTo[i]);
      }
    }
  }
}
