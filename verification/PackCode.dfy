/**
 * The code of the selection authority and of one activation client: fields
 * updated in place, answering to the functions of the protocol.
 */
module PackCode {
  import opened Prelude

  import opened PackSelection
  import Fence = GenerationFence
  import Word = GenerationWord

  class PackSelectionAuthority {
    var closed: bool
    var poisoned: bool
    var document: Option<Document>
    var projection: seq<seq<PackId>>
    var liveStamps: set<Stamp>

    function Model(): Authority reads this {
      Authority(closed, poisoned, document, projection, liveStamps)
    }

    constructor ()
      ensures Model() == NewAuthority() && ProjectionOk(Model())
    {
      closed, poisoned, document, projection, liveStamps := false, false, None, EmptyProjection(), {};
    }

    method PublishDocument(d: Option<Document>) returns (r: Result<(), PublishError>)
      requires ProjectionOk(Model())
      modifies this
      ensures (Model(), r) == Publish(old(Model()), d)
      ensures ProjectionOk(Model()) && Revision(document) >= old(Revision(document))
    {
      if poisoned { return Err(PublishUnavailable); }
      if closed { return Err(Closed); }
      if Revision(d) < Revision(document) { return Err(RevisionRegression); }
      if Revision(d) == Revision(document) {
        return if d == document then Ok(()) else Err(RevisionConflict);
      }
      projection := Project(d.value.composition);
      document := d;
      return Ok(());
    }

    /** `mint_stamp`: at most eight draws, none of which may repeat a live stamp. */
    method MintStamp(draws: seq<Option<Stamp>>) returns (r: Option<Stamp>)
      ensures r == Mint(liveStamps, draws, MINT_ATTEMPTS)
      ensures r.Some? ==> r.value !in liveStamps && Some(r.value) in draws
    {
      var k := 0;
      while k < MINT_ATTEMPTS
        invariant 0 <= k <= MINT_ATTEMPTS && k <= |draws|
        invariant Mint(liveStamps, draws, MINT_ATTEMPTS) == Mint(liveStamps, draws[k..], MINT_ATTEMPTS - k)
      {
        if k == |draws| || draws[k].None? { return None; }
        if draws[k].value !in liveStamps { return draws[k]; }
        assert draws[k..][1..] == draws[k + 1..];
        k := k + 1;
      }
      return None;
    }

    /** Closing forgets every stamp. */
    method CloseForever()
      modifies this
      ensures Model() == Close(old(Model()))
    {
      closed := true;
      liveStamps := {};
    }
  }

  /** What happens to one `activate` call around the client: loads, retirement, publications. */
  datatype Surroundings = Surroundings(
    loads: seq<Option<ActivationError>>,   // the outcome of each Pack load
    fence: Fence.State,                    // the generation's fence once its commit mutex is taken
    later: Option<Document>, closes: bool) // what the director does while the Packs are loading

  class PackActivationClient {
    const authority: PackSelectionAuthority
    const family: Family
    var cache: Option<Selection>
    var active: Option<ActiveSet>

    constructor (authority: PackSelectionAuthority, family: Family)
      ensures this.authority == authority && this.family == family && cache == None && active == None
    {
      this.authority, this.family, cache, active := authority, family, None, None;
    }

    predicate Coherent() reads this {
      active.Some? ==> active.value.packs == active.value.target.packIds
    }

    method ConfiguredSelection(draws: seq<Option<Stamp>>) returns (r: Option<Selection>)
      requires ProjectionOk(authority.Model())
      modifies this`cache, authority
      ensures (authority.Model(), cache, r) == Issue(old(authority.Model()), family, old(cache), draws)
      ensures r.Some? ==> ProjectionOk(authority.Model()) && IsCurrent(authority.Model(), family, cache, r.value)
    {
      if authority.poisoned || authority.closed { return None; }
      if cache.Some? && cache.value.revision == Revision(authority.document)
        && cache.value.packIds == Current(authority.Model(), family)
      {
        return cache;
      }
      var stamp := authority.MintStamp(draws);
      if stamp.None? { return None; }
      authority.liveStamps := authority.liveStamps + {stamp.value};
      if cache.Some? { authority.liveStamps := authority.liveStamps - {cache.value.stamp}; }
      cache := Some(Selection(stamp.value, Revision(authority.document), Current(authority.Model(), family)));
      return cache;
    }

    /** Dropping the client gives its stamp back. */
    method Drop()
      modifies this`cache, authority
      ensures authority.Model() == ReleaseCache(old(authority.Model()), old(cache))
    {
      if cache.Some? { authority.liveStamps := authority.liveStamps - {cache.value.stamp}; }
    }

    /** `commit`: publishes the replacement, if there is one, or confirms the active set. */
    method CommitTarget(target: Selection, replacement: Option<seq<PackId>>, fence: Fence.State)
      returns (r: Result<Stamp, ActivationError>)
      requires |authority.projection| == |ALL_FAMILIES| && Coherent()
      requires match replacement
               case Some(packs) => packs == target.packIds
               case None => active.Some? && active.value.target == target
      modifies this`active
      ensures r.Err? ==> active == old(active)
      ensures r.Ok? ==> r.value == target.stamp && active == Some(ActiveSet(target, target.packIds))
      ensures r.Ok? <==>
        !fence.poisoned && IsOpen(fence) && CheckCommit(authority.Model(), family, cache, target).Ok?
      ensures fence.poisoned ==> r == Err(Unavailable)
      ensures !fence.poisoned && !IsOpen(fence) ==> r == Err(StaleGeneration)
      ensures !fence.poisoned && IsOpen(fence) && r.Err? ==>
                r.error == CheckCommit(authority.Model(), family, cache, target).error
    {
      if fence.poisoned { return Err(Unavailable); }
      if fence.epoch == Fence.CLOSED || Word.Phase(fence.word) != Word.CURRENT { return Err(StaleGeneration); }
      var check := CheckCommit(authority.Model(), family, cache, target);
      if check.Err? { return Err(check.error); }
      if replacement.Some? { active := Some(ActiveSet(target, replacement.value)); }
      return Ok(if active.Some? then active.value.target.stamp else target.stamp);
    }

    predicate IsOpen(fence: Fence.State) {
      fence.epoch != Fence.CLOSED && Word.Phase(fence.word) == Word.CURRENT
    }

    /** The stamp is that of the cached selection, which an open authority still stands by. */
    ghost predicate Selects(stamp: Stamp) reads this, authority
    {
      && !authority.closed && !authority.poisoned && cache.Some? && cache.value.stamp == stamp
      && ProjectionOk(authority.Model())
      && cache.value.revision == Revision(authority.document)
      && cache.value.packIds == Current(authority.Model(), family)
    }

    /** The selection is active already, so nothing is loaded. */
    ghost predicate Confirms() reads this {
      cache.Some? && active.Some? && active.value.target == cache.value
    }

    /** No load of this many Packs fails. */
    predicate Loadable(loads: seq<Option<ActivationError>>, packs: nat) {
      forall j :: 0 <= j < packs && j < |loads| ==> loads[j].None?
    }

    /** The load of Pack `k` is the first that fails. */
    predicate FailsAt(loads: seq<Option<ActivationError>>, packs: nat, k: nat) {
      k < packs && k < |loads| && loads[k].Some? && Loadable(loads, k)
    }

    /** Every Pack of the selection is loaded, one after the other, up to the first that fails. */
    method LoadPacks(packIds: seq<PackId>, loads: seq<Option<ActivationError>>)
      returns (r: Result<seq<PackId>, ActivationError>)
      ensures r.Ok? <==> Loadable(loads, |packIds|)
      ensures r.Ok? ==> r.value == packIds
      ensures forall k: nat :: FailsAt(loads, |packIds|, k) ==> r == Err(loads[k].value)
    {
      var packs: seq<PackId> := [];
      while |packs| < |packIds|
        invariant packs <= packIds && Loadable(loads, |packs|)
        decreases |packIds| - |packs|
      {
        var failure := if |packs| < |loads| then loads[|packs|] else None;
        if failure.Some? { return Err(failure.value); }
        packs := packs + [packIds[|packs|]];
      }
      return Ok(packs);
    }

    /** What the director does while the activation is under way. */
    method Meanwhile(around: Surroundings)
      requires ProjectionOk(authority.Model())
      modifies authority
      ensures ProjectionOk(authority.Model())
      ensures !old(authority.closed) && !old(authority.poisoned) ==>
        && authority.closed == around.closes && !authority.poisoned
        && (authority.document == old(authority.document) || authority.document == around.later)
        && Revision(authority.document) ==
           (if Revision(around.later) > old(Revision(authority.document)) then Revision(around.later)
            else old(Revision(authority.document)))
        && (Revision(around.later) <= old(Revision(authority.document)) ==>
              authority.projection == old(authority.projection))
    {
      var _ := authority.PublishDocument(around.later);
      if around.closes { authority.CloseForever(); }
    }

    /** The commit of a target that an open authority stood by before the director acted. */
    method CommitAfter(target: Selection, replacement: Option<seq<PackId>>, around: Surroundings)
      returns (r: Result<Stamp, ActivationError>)
      requires Selects(target.stamp) && cache == Some(target) && Coherent()
      requires match replacement
               case Some(packs) => packs == target.packIds
               case None => active.Some? && active.value.target == target
      modifies this`active, authority
      ensures Coherent() && (r.Err? ==> active == old(active))
      ensures r.Ok? ==> r.value == target.stamp && active == Some(ActiveSet(target, target.packIds))
      ensures r.Ok? <==>
        && !around.fence.poisoned && IsOpen(around.fence)
        && !around.closes && Revision(around.later) <= old(Revision(authority.document))
      ensures around.fence.poisoned ==> r == Err(Unavailable)
      ensures !around.fence.poisoned && !IsOpen(around.fence) ==> r == Err(StaleGeneration)
    {
      Meanwhile(around);
      r := CommitTarget(target, replacement, around.fence);
    }

    /** The Packs that the commit will publish, or nothing when they are active already. */
    method Prepare(target: Selection, loads: seq<Option<ActivationError>>)
      returns (r: Result<Option<seq<PackId>>, ActivationError>)
      requires cache == Some(target)
      ensures r.Ok? <==> Confirms() || Loadable(loads, |target.packIds|)
      ensures r.Ok? ==> r.value == if Confirms() then None else Some(target.packIds)
      ensures !Confirms() ==> forall k: nat :: FailsAt(loads, |target.packIds|, k) ==> r == Err(loads[k].value)
    {
      if active.Some? && active.value.target == target { return Ok(None); }
      var loaded := LoadPacks(target.packIds, loads);
      return if loaded.Ok? then Ok(Some(loaded.value)) else Err(loaded.error);
    }

    /**
     * `activate`: prepares every Pack of the stamped selection in order, unless it is active already, and then
     * publishes them together. The director may publish or close meanwhile. It succeeds exactly when the
     * selection still stands at both ends, every load succeeds, and the generation is open at the commit.
     */
    method Activate(stamp: Stamp, around: Surroundings) returns (r: Result<Stamp, ActivationError>)
      requires ProjectionOk(authority.Model()) && Coherent()
      modifies this`active, authority
      ensures Coherent() && (r.Err? ==> active == old(active))
      ensures r.Ok? ==> r.value == stamp && cache.Some? && active == Some(ActiveSet(cache.value, cache.value.packIds))
      ensures r.Ok? <==>
        && old(Selects(stamp)) && (old(Confirms()) || Loadable(around.loads, |cache.value.packIds|))
        && !around.fence.poisoned && IsOpen(around.fence)
        && !around.closes && Revision(around.later) <= old(Revision(authority.document))
      ensures !old(Selects(stamp)) ==>
        r == Err(if old(authority.closed) || old(authority.poisoned) then Unavailable else InvalidSelection)
      ensures old(Selects(stamp)) && !old(Confirms()) ==>
        forall k: nat :: FailsAt(around.loads, |cache.value.packIds|, k) ==> r == Err(around.loads[k].value)
      ensures old(Selects(stamp)) && (old(Confirms()) || Loadable(around.loads, |cache.value.packIds|)) ==>
        && (around.fence.poisoned ==> r == Err(Unavailable))
        && (!around.fence.poisoned && !IsOpen(around.fence) ==> r == Err(StaleGeneration))
    {
      var begun := BeginActivation(authority.Model(), family, cache, stamp);
      if begun.Err? { return Err(begun.error); }
      var prepared := Prepare(begun.value, around.loads);
      if prepared.Err? { return Err(prepared.error); }
      r := CommitAfter(begun.value, prepared.value, around);
    }
  }
}
