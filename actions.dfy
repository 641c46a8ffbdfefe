/**
 * The redux actions this core dispatches, and the effects its sagas yield.
 *
 * The action creators of src/actions/queue.ts and src/actions/view-party.ts build plain
 * records; here each creator is the constructor of the same name. A saga's run is recorded
 * as the sequence of effects it yields, in order.
 */
module Actions {
  import opened Wrappers
  import opened QueueStore

  /** The signed-in Firebase user, as far as this core looks at it. */
  datatype User = User(uid: Key, isAnonymous: bool, providerId: string)

  /** An OAuth credential attached to a provider error. */
  datatype Credential = Credential(providerId: string)

  datatype Action =
    | RemoveTrackAction(ref: TrackReference, moveToHistory: bool)   // removeTrackAction, REMOVE_TRACK
    | RequestSetVoteAction(ref: TrackReference, vote: bool)         // requestSetVoteAction, REQUEST_SET_VOTE
    | SetVoteAction(ref: TrackReference, vote: bool)                // setVoteAction, SET_VOTE
    | ChangeDisplayLoginModal(display: bool)                       // changeDisplayLoginModal
    | ShowToast(text: string)                                      // showToast
    | ExchangeCodeFail(provider: string, message: string)          // exchangeCodeFail
    | NotifyAuthStatusKnown(provider: string, user: User)          // notifyAuthStatusKnown

  datatype Effect =
    | Put(action: Action)                                              // put(action)
    | CallSetVote(partyId: Key, ref: TrackReference, vote: bool)       // call(doSetVote, ...)
    | CallRemoveTrack(partyId: Key, track: Track, moveToHistory: bool) // call(doRemoveTrack, ...)
    | SignInWithCredential(credential: Option<Credential>)            // signInAndRetrieveDataWithCredential

  /** The number of toasts among the effects. */
  function Toasts(effects: seq<Effect>): (n: nat)
    ensures n <= |effects|
    ensures n == 0 <==> forall e :: e in effects ==> !(e.Put? && e.action.ShowToast?)
  {
    if effects == [] then 0
    else (if effects[0].Put? && effects[0].action.ShowToast? then 1 else 0) + Toasts(effects[1..])
  }

  /** Counting toasts distributes over concatenation. */
  lemma {:induction false} ToastsAppend(a: seq<Effect>, b: seq<Effect>)
    ensures Toasts(a + b) == Toasts(a) + Toasts(b)
    decreases |a|
  {
    if a != [] {
      assert (a + b)[0] == a[0];
      assert (a + b)[1..] == a[1..] + b;
      ToastsAppend(a[1..], b);
    } else {
      assert a + b == b;
    }
  }
}
