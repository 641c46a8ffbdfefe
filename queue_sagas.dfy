/**
 * The party queue's sagas (src/sagas/queue.ts): the loop that keeps the top track pinned,
 * and the handlers for REQUEST_SET_VOTE and REMOVE_TRACK.
 *
 * The state selectors are inputs: each UPDATE_TRACKS notification arrives as the snapshot the
 * loop reads, and each handler receives what it selects. The loop's forks of pinTrack are
 * recorded as the references it pinned; a handler's effects are logged, and its call into the
 * store is the Store method of the same name.
 */
module QueueSagas {
  import opened Wrappers
  import opened QueueStore
  import opened Actions

  /** Party settings; an `allow_anonymous_voters` that is not set reads as false. */
  datatype PartySettings = PartySettings(allowAnonymousVoters: bool)

  /** What the pinning loop selects from the state on one UPDATE_TRACKS notification. */
  datatype Snapshot = Snapshot(isOwner: bool, hasOtherPlaybackMaster: bool, currentTrack: Option<Track>)

  const VoteFailedPrefix := "Failed to toggle vote: "
  const RemoveFailedPrefix := "Failed to remove track: "

  // ---------------------------------------------------------------------------
  // pinTopTrack

  /** tracksEqual of the last pinned track (undefined before the first pin) and a track: same reference. */
  predicate TracksEqual(last: Option<Track>, t: Track) {
    last.Some? && last.value.reference == t.reference
  }

  /** The loop's guard: not owner, another playback master, no top track, or the same top track. */
  predicate SkipsPin(last: Option<Track>, s: Snapshot)
    ensures s.currentTrack.Some? && last.Some? && last.value.reference == s.currentTrack.value.reference ==> SkipsPin(last, s)
    ensures last.None? && s.isOwner && !s.hasOtherPlaybackMaster && s.currentTrack.Some? ==> !SkipsPin(last, s)
    ensures s.hasOtherPlaybackMaster || !s.isOwner ==> SkipsPin(last, s)
  {
    !s.isOwner || s.hasOtherPlaybackMaster || s.currentTrack.None? || TracksEqual(last, s.currentTrack.value)
  }

  /** The loop's local `topTrack`, and the references it forked pinTrack for, in order. */
  datatype PinnerState = PinnerState(topTrack: Option<Track>, pins: seq<TrackReference>)

  const InitialPinner := PinnerState(None, [])

  /** One notification. */
  function Step(st: PinnerState, s: Snapshot): (r: PinnerState)
    ensures r == st || (s.currentTrack.Some? && r.topTrack == s.currentTrack && r.pins == st.pins + [s.currentTrack.value.reference])
    ensures r != st ==> s.isOwner && !s.hasOtherPlaybackMaster
  {
    if SkipsPin(st.topTrack, s) then st
    else PinnerState(s.currentTrack, st.pins + [s.currentTrack.value.reference])
  }

  /** A sequence of notifications, in arrival order. */
  function Run(st: PinnerState, ns: seq<Snapshot>): (r: PinnerState)
    ensures |st.pins| <= |r.pins| <= |st.pins| + |ns|
    ensures r.pins[..|st.pins|] == st.pins
    decreases |ns|
  {
    if ns == [] then st else Step(Run(st, ns[..|ns| - 1]), ns[|ns| - 1])
  }

  /** A notification issues a pin exactly when the guard lets it through; it pins the new top track and remembers it. */
  lemma StepPinsIff(st: PinnerState, s: Snapshot)
    ensures |Step(st, s).pins| == |st.pins| + 1 <==>
      s.isOwner && !s.hasOtherPlaybackMaster && s.currentTrack.Some? && !TracksEqual(st.topTrack, s.currentTrack.value)
    ensures SkipsPin(st.topTrack, s) ==> Step(st, s) == st
    ensures !SkipsPin(st.topTrack, s) ==>
      Step(st, s).topTrack == s.currentTrack && Step(st, s).pins[|st.pins|] == s.currentTrack.value.reference
  {
  }

  /** Leadership exclusivity: while another playback master exists, no pin is issued and nothing changes. */
  lemma {:induction false} OtherMasterNeverPins(st: PinnerState, ns: seq<Snapshot>)
    requires forall i :: 0 <= i < |ns| ==> ns[i].hasOtherPlaybackMaster
    ensures Run(st, ns) == st
    decreases |ns|
  {
    if ns != [] {
      OtherMasterNeverPins(st, ns[..|ns| - 1]);
    }
  }

  /** Every pin a run issues comes from a notification where the client owned the party, had no contender, and saw that track on top. */
  lemma {:induction false} PinsComeFromOwnerWithoutContender(st: PinnerState, ns: seq<Snapshot>, k: nat)
    requires |st.pins| <= k < |Run(st, ns).pins|
    ensures exists i :: 0 <= i < |ns| && ns[i].isOwner && !ns[i].hasOtherPlaybackMaster
                        && ns[i].currentTrack.Some? && ns[i].currentTrack.value.reference == Run(st, ns).pins[k]
    decreases |ns|
  {
    var init := ns[..|ns| - 1];
    var before := Run(st, init);
    if k < |before.pins| {
      PinsComeFromOwnerWithoutContender(st, init, k);
      var i :| 0 <= i < |init| && init[i].isOwner && !init[i].hasOtherPlaybackMaster
               && init[i].currentTrack.Some? && init[i].currentTrack.value.reference == before.pins[k];
      assert ns[i] == init[i];
    } else {
      assert ns[|ns| - 1].currentTrack.value.reference == Run(st, ns).pins[k];
    }
  }

  /** No redundant pin: two notifications in a row with the same top track issue at most one pin. */
  lemma UnchangedTopPinsAtMostOnce(st: PinnerState, n1: Snapshot, n2: Snapshot)
    requires n1.currentTrack.Some? && n2.currentTrack.Some?
    requires n1.currentTrack.value.reference == n2.currentTrack.value.reference
    ensures |Run(st, [n1, n2]).pins| <= |st.pins| + 1
  {
    RunPair(st, n1, n2);
  }

  /** Unfolds a run of one and of two notifications. */
  lemma RunPair(st: PinnerState, n1: Snapshot, n2: Snapshot)
    ensures Run(st, [n1]) == Step(st, n1)
    ensures Run(st, [n1, n2]) == Step(Step(st, n1), n2)
  {
    assert [n1, n2][..1] == [n1];
    assert [n1][..0] == [];
  }

  /** The loop's state agrees with its log: `topTrack` is the last track pinned. */
  ghost predicate Coherent(st: PinnerState) {
    st.pins != [] ==> st.topTrack.Some? && st.topTrack.value.reference == st.pins[|st.pins| - 1]
  }

  /** Along a run from a coherent state, the state stays coherent and no pin repeats the one just before it. */
  lemma {:induction false} NoBackToBackRepin(st: PinnerState, ns: seq<Snapshot>)
    requires Coherent(st)
    ensures Coherent(Run(st, ns))
    ensures forall k :: |st.pins| <= k && 0 < k < |Run(st, ns).pins| ==> Run(st, ns).pins[k] != Run(st, ns).pins[k - 1]
    decreases |ns|
  {
    if ns != [] {
      var before := Run(st, ns[..|ns| - 1]);
      NoBackToBackRepin(st, ns[..|ns| - 1]);
    }
  }

  /** A top track skipped while the client was not owner is pinned once the client becomes owner. */
  lemma SkippedTrackPinnedOnOwnership(st: PinnerState, a: Track, otherMaster: bool)
    requires !TracksEqual(st.topTrack, a)
    ensures Run(st, [Snapshot(false, otherMaster, Some(a)), Snapshot(true, false, Some(a))]).pins == st.pins + [a.reference]
  {
    RunPair(st, Snapshot(false, otherMaster, Some(a)), Snapshot(true, false, Some(a)));
  }

  /** Only the last pinned track is remembered: the sequence A, B, A pins A again. */
  lemma ReturningTrackIsPinnedAgain(a: Track, b: Track)
    requires a.reference != b.reference
    ensures Run(InitialPinner, [Snapshot(true, false, Some(a)), Snapshot(true, false, Some(b)), Snapshot(true, false, Some(a))]).pins
         == [a.reference, b.reference, a.reference]
  {
    var ns := [Snapshot(true, false, Some(a)), Snapshot(true, false, Some(b)), Snapshot(true, false, Some(a))];
    assert ns[..2] == [ns[0], ns[1]];
    RunPair(InitialPinner, ns[0], ns[1]);
    var two := Step(Step(InitialPinner, ns[0]), ns[1]);
    assert two.pins == [a.reference, b.reference];
    assert two.topTrack == Some(b);
  }

  /** The pinning loop of one party view: its local `topTrack` and the pins it has forked. */
  class PinTopTrack {
    const partyId: Key
    var topTrack: Option<Track>
    var pins: seq<TrackReference>

    function State(): PinnerState
      reads this
    {
      PinnerState(topTrack, pins)
    }

    constructor (partyId: Key)
      ensures this.partyId == partyId && State() == InitialPinner
    {
      this.partyId := partyId;
      topTrack := None;
      pins := [];
    }

    /** One pass of the loop body, for one UPDATE_TRACKS notification. */
    method OnUpdateTracks(s: Snapshot)
      modifies this`topTrack, this`pins
      ensures State() == Step(old(State()), s)
    {
      if !s.isOwner || s.hasOtherPlaybackMaster || s.currentTrack.None? || TracksEqual(topTrack, s.currentTrack.value) {
        return;
      }
      topTrack := s.currentTrack;
      pins := pins + [s.currentTrack.value.reference];
    }

    /** The loop over a finite prefix of the notification stream. */
    method Consume(ns: seq<Snapshot>)
      modifies this`topTrack, this`pins
      ensures State() == Run(old(State()), ns)
    {
      var i := 0;
      while i < |ns|
        invariant 0 <= i <= |ns|
        invariant State() == Run(old(State()), ns[..i])
      {
        OnUpdateTracks(ns[i]);
        assert ns[..i + 1][..i] == ns[..i];
        i := i + 1;
      }
      assert ns[..|ns|] == ns;
    }
  }

  // ---------------------------------------------------------------------------
  // The REQUEST_SET_VOTE and REMOVE_TRACK handlers

  /** The vote gate: settings exist, anonymous voters are not allowed, and the user is anonymous. */
  predicate NeedsLogin(settings: Option<PartySettings>, user: User)
    ensures !user.isAnonymous ==> !NeedsLogin(settings, user)
    ensures settings.None? ==> !NeedsLogin(settings, user)
    ensures settings.Some? && settings.value.allowAnonymousVoters ==> !NeedsLogin(settings, user)
  {
    settings.Some? && !settings.value.allowAnonymousVoters && user.isAnonymous
  }

  /** The effects of the setVote handler, given whether the store write succeeded and its error text. */
  function SetVoteEffects(partyId: Key, settings: Option<PartySettings>, user: User, ref: TrackReference,
                          vote: bool, writeOk: bool, err: string): (es: seq<Effect>)
    ensures CallSetVote(partyId, ref, vote) in es <==> !NeedsLogin(settings, user)
    ensures Put(ShowToast(VoteFailedPrefix + err)) in es <==> !NeedsLogin(settings, user) && !writeOk
    ensures |es| <= 3
  {
    if NeedsLogin(settings, user) then [Put(ChangeDisplayLoginModal(true))]
    else [Put(SetVoteAction(ref, vote)), CallSetVote(partyId, ref, vote)]
         + (if writeOk then [] else [Put(ShowToast(VoteFailedPrefix + err))])
  }

  /** The anonymous-voter gate: it prompts a login and neither dispatches SET_VOTE nor writes. */
  lemma GatedVoteOnlyPromptsLogin(partyId: Key, settings: Option<PartySettings>, user: User, ref: TrackReference,
                                  vote: bool, writeOk: bool, err: string)
    requires settings.Some? && !settings.value.allowAnonymousVoters && user.isAnonymous
    ensures var es := SetVoteEffects(partyId, settings, user, ref, vote, writeOk, err);
      && es == [Put(ChangeDisplayLoginModal(true))]
      && forall e :: e in es ==> !e.CallSetVote? && !(e.Put? && e.action.SetVoteAction?)
  {
  }

  /** Without settings, with anonymous voting allowed, or for a signed-in user, SET_VOTE goes out before the store write. */
  lemma UngatedVoteIsOptimistic(partyId: Key, settings: Option<PartySettings>, user: User, ref: TrackReference,
                                vote: bool, writeOk: bool, err: string)
    requires settings.None? || settings.value.allowAnonymousVoters || !user.isAnonymous
    ensures var es := SetVoteEffects(partyId, settings, user, ref, vote, writeOk, err);
      && |es| >= 2 && es[0] == Put(SetVoteAction(ref, vote)) && es[1] == CallSetVote(partyId, ref, vote)
      && Put(ChangeDisplayLoginModal(true)) !in es
  {
  }

  /** A failed vote write gives exactly one toast, and the optimistic SET_VOTE is not reverted. */
  lemma VoteFailureToastsOnce(partyId: Key, settings: Option<PartySettings>, user: User, ref: TrackReference,
                              vote: bool, writeOk: bool, err: string)
    ensures var es := SetVoteEffects(partyId, settings, user, ref, vote, writeOk, err);
      && Toasts(es) == (if !NeedsLogin(settings, user) && !writeOk then 1 else 0)
      && (!NeedsLogin(settings, user) && !writeOk ==> es[|es| - 1] == Put(ShowToast(VoteFailedPrefix + err)))
      && Put(SetVoteAction(ref, !vote)) !in es
  {
    var es := SetVoteEffects(partyId, settings, user, ref, vote, writeOk, err);
    if !NeedsLogin(settings, user) {
      var tail: seq<Effect> := if writeOk then [] else [Put(ShowToast(VoteFailedPrefix + err))];
      ToastsAppend([Put(SetVoteAction(ref, vote)), CallSetVote(partyId, ref, vote)], tail);
      assert [Put(SetVoteAction(ref, vote)), CallSetVote(partyId, ref, vote)][1..][1..] == [];
      if !writeOk {
        assert tail[1..] == [];
      }
    } else {
      assert es[1..] == [];
    }
  }

  /** The effects of the removeTrack handler: the call, then a toast when the removal failed. */
  function RemoveTrackEffects(partyId: Key, track: Track, moveToHistory: bool, ok: bool, err: string): (es: seq<Effect>)
    ensures ok <==> |es| == 1
    ensures |es| >= 1 && es[0] == CallRemoveTrack(partyId, track, moveToHistory)
    ensures !ok ==> es[1] == Put(ShowToast(RemoveFailedPrefix + err))
  {
    [CallRemoveTrack(partyId, track, moveToHistory)] + (if ok then [] else [Put(ShowToast(RemoveFailedPrefix + err))])
  }

  /** A failed removal gives exactly one toast, prefixed "Failed to remove track: "; a successful one none. */
  lemma RemoveFailureToastsOnce(partyId: Key, track: Track, moveToHistory: bool, ok: bool, err: string)
    ensures var es := RemoveTrackEffects(partyId, track, moveToHistory, ok, err);
      && Toasts(es) == (if ok then 0 else 1)
      && (!ok ==> es[|es| - 1].action.text[..|RemoveFailedPrefix|] == RemoveFailedPrefix)
  {
    var es := RemoveTrackEffects(partyId, track, moveToHistory, ok, err);
    assert es[1..] == if ok then [] else [Put(ShowToast(RemoveFailedPrefix + err))];
    if !ok {
      assert es[1..][1..] == [];
    }
  }

  /** The REQUEST_SET_VOTE and REMOVE_TRACK handlers of one party, over the shared store. */
  class QueueHandlers {
    const partyId: Key
    const store: Store
    var effects: seq<Effect>

    constructor (partyId: Key, store: Store)
      ensures this.partyId == partyId && this.store == store && effects == []
    {
      this.partyId := partyId;
      this.store := store;
      effects := [];
    }

    /**
     * The setVote handler for REQUEST_SET_VOTE with payload (ref, vote). `user` is the signed-in
     * user, `trackId` the store key of `ref`; the two write outcomes and the error text stand
     * for what the store answers.
     */
    method HandleSetVote(settings: Option<PartySettings>, user: User, ref: TrackReference, trackId: Key, vote: bool,
                         byTrackOk: bool, byUserOk: bool, err: string)
      modifies this`effects, store`votes, store`votesByUser
      ensures effects == old(effects) + SetVoteEffects(partyId, settings, user, ref, vote, byTrackOk && byUserOk, err)
      ensures NeedsLogin(settings, user) ==> store.votes == old(store.votes) && store.votesByUser == old(store.votesByUser)
      ensures !NeedsLogin(settings, user) ==>
        && store.votes == (if byTrackOk then Put3(old(store.votes), partyId, trackId, user.uid, vote) else old(store.votes))
        && store.votesByUser == (if byUserOk then Put3(old(store.votesByUser), partyId, user.uid, trackId, vote)
                                 else old(store.votesByUser))
    {
      if settings.Some? && !settings.value.allowAnonymousVoters {
        if user.isAnonymous {
          effects := effects + [Put(ChangeDisplayLoginModal(true))];
          return;
        }
      }
      effects := effects + [Put(SetVoteAction(ref, vote))];
      effects := effects + [CallSetVote(partyId, ref, vote)];
      var ok := store.SetVote(partyId, trackId, user.uid, vote, byTrackOk, byUserOk);
      if !ok {
        effects := effects + [Put(ShowToast(VoteFailedPrefix + err))];
      }
    }

    /**
     * The removeTrack handler for REMOVE_TRACK with payload (ref, moveToHistory). `track` is
     * the track the state holds for `ref`, `trackId` its store key.
     */
    method HandleRemoveTrack(trackId: Key, track: Track, moveToHistory: bool, outcome: RemovalOutcome, err: string)
      modifies this`effects, store`tracks, store`votes, store`votesByUser, store`tracksPlayed
      ensures effects == old(effects)
                         + RemoveTrackEffects(partyId, track, moveToHistory, RemovalSucceeded(moveToHistory, outcome), err)
      ensures store.tracks == if outcome.queueOk then RemoveTrackEntry(old(store.tracks), partyId, trackId) else old(store.tracks)
      ensures store.votes == if outcome.votesOk then RemoveVoteSubtree(old(store.votes), partyId, trackId) else old(store.votes)
      ensures store.votesByUser == if outcome.votesByUserOk then RemoveFromUsers(old(store.votesByUser), partyId, trackId)
                                   else old(store.votesByUser)
      ensures store.tracksPlayed == if moveToHistory && outcome.historyOk
                                    then old(store.tracksPlayed)[partyId := History(old(store.tracksPlayed), partyId) + [track]]
                                    else old(store.tracksPlayed)
    {
      effects := effects + [CallRemoveTrack(partyId, track, moveToHistory)];
      var ok := store.RemoveTrack(partyId, trackId, track, moveToHistory, outcome);
      if !ok {
        effects := effects + [Put(ShowToast(RemoveFailedPrefix + err))];
      }
    }
  }
}
