# Party queue core, modelled in Dafny

A shared party queue: guests vote on tracks, and the party owner's client keeps the top
track pinned to the head of the queue. All coordination runs in the clients, over a shared
Firebase store. This project models three parts of that client:

- **Store writes** (`src/actions/queue.ts`, module `QueueStore`). The store is four trees keyed
  by strings: `tracks/<party>/<track>`, `votes/<party>/<track>/<uid>`,
  `votes_by_user/<party>/<uid>/<track>` and `tracks_played/<party>`. Class `Store` holds them as
  map fields. Its methods `PinTrack`, `MarkTrackAsPlayed`, `SetVote` and `RemoveTrack` perform
  the source's writes. Each write takes an abstract outcome; a failed write changes nothing.
  Pure functions give the effect of each write on the tree it touches (`SetOrder`, `Put3`,
  `OmitTrack`, ...). Lemmas about them state the frame conditions, idempotence, and the
  dual-index invariant (`IndicesAgree`: the by-track and by-user vote indices hold the same
  vote for every party, track and user, or neither holds one).
- **Queue sagas** (`src/sagas/queue.ts`, module `QueueSagas`). `pinTopTrack` is a step
  function `Step` over the loop's state (the last pinned track and the pins issued), and `Run`
  folds it over a sequence of notifications. Class `PinTopTrack` runs the loop imperatively.
  Class `QueueHandlers` holds the REQUEST_SET_VOTE and REMOVE_TRACK handlers over a `Store`
  and an effect log.
- **Auth sagas** (`src/sagas/auth.ts`, module `AuthSagas`). The OAuth redirect and link error
  classification, the provider-id strip of `checkInitialLogin`, and one interval of the token
  refresh loop (`RefreshInterval`, a method with the source's counted retry loop).

Module `Actions` holds the redux actions and the saga effects. The action creators of
`src/actions/queue.ts`, and `changeDisplayLoginModal` of `src/actions/view-party.ts`, are
constructors of `Action`.
The logged saga effects are `put`, `call(setVote)`, `call(removeTrack)` and the credential
sign-in. The pinning loop's `fork(pinTrack)` calls are recorded as the list of references it
pinned (`PinnerState.pins`). Module `Wrappers` holds `Option`.

Two behaviours of the code worth knowing:

- `checkInitialLogin` applies `replace('.com', '')` to the provider id (src/sagas/auth.ts:17).
  This removes the first `.com` wherever it occurs, not only at the end (`StripProviderId`,
  `ReplaceFirst`).
- The refresh loop's `delay(5000 * i)` runs after every failed attempt, the fifth included
  (src/sagas/auth.ts:59-67). Five failures therefore end with a 20 s wait before the next
  55-minute wait (`AllFailuresBackOffLinearly`).

## Model

| member | source | states |
|---|---|---|
| `QueueStore.SetOrder` | src/actions/queue.ts:43-50 | pinTrack's write: the track's record exists afterwards with `order` set; `played_at` and all other fields are kept; every other track of every party is unchanged |
| `QueueStore.SetPlayedAt` | src/actions/queue.ts:28-35 | markTrackAsPlayed's write: only `played_at` of that track in that party changes, to the given timestamp |
| `QueueStore.PinnedOrderSortsFirst` | src/actions/queue.ts:49 | the pin order `Number.MIN_SAFE_INTEGER + 1` is -9007199254740990; it is above the floor and at most any other safe integer |
| `QueueStore.PinIdempotent` | src/actions/queue.ts:43-50 | pinning twice leaves the same store as pinning once |
| `QueueStore.PinAndMarkCommute` | src/actions/queue.ts:28-50 | pinning and marking as played touch different fields, so their order does not matter |
| `QueueStore.Store.PinTrack` | src/actions/queue.ts:43-50 | on success the tracks tree becomes `SetOrder(old, party, track, PinnedOrder)`; the votes and the history are not in its frame |
| `QueueStore.Store.MarkTrackAsPlayed` | src/actions/queue.ts:28-35 | on success the tracks tree becomes `SetPlayedAt(old, party, track, now)`; nothing else is in its frame |
| `QueueStore.Put3` | src/actions/queue.ts:108-119 | a child `set` at a three-key path: afterwards that entry holds the value and every other (party, track, user) entry is unchanged |
| `QueueStore.Put3Idempotent` | src/actions/queue.ts:105-121 | applying the same vote write twice equals applying it once |
| `QueueStore.SetVoteKeepsAgreement` | src/actions/queue.ts:108-119 | a setVote whose two writes both succeed preserves the dual-index invariant |
| `QueueStore.PartialSetVoteDivergesOnce` | src/actions/queue.ts:108-121 | if only one of the two writes lands, the indices disagree on that one vote at most |
| `QueueStore.RetryRestoresAgreement` | src/actions/queue.ts:108-121 | when the indices disagree at most on one vote, a successful setVote of that vote restores agreement everywhere |
| `QueueStore.VotesConverge` | src/actions/queue.ts:100-122 | any sequence of successful setVotes, in order, keeps the two indices in agreement |
| `QueueStore.LastVoteWins` | src/actions/queue.ts:108-119 | after a sequence of setVotes, both indices hold the last vote written for each (party, track, user) |
| `QueueStore.Store.SetVote` | src/actions/queue.ts:100-122 | each index gets the vote iff its write succeeds; the call succeeds iff both do, and then both indices hold `vote`; starting from agreeing indices, success keeps the invariant and any outcome leaves them disagreeing on at most this vote |
| `QueueStore.RemoveTrackEntry` | src/actions/queue.ts:59-63 | `tracks/<party>/<track>` is gone; every other entry is unchanged |
| `QueueStore.RemoveVoteSubtree` | src/actions/queue.ts:64-68 | no by-track vote remains for the track in that party; votes on other tracks and other parties are unchanged |
| `QueueStore.OmitTrack` | src/actions/queue.ts:72 | the updater keeps every user key, drops the track from every user's votes, and keeps every other vote as it was |
| `QueueStore.OmitTrackIdempotent` | src/actions/queue.ts:72 | applying the updater twice equals applying it once, so a retried transaction is harmless |
| `QueueStore.OmitTrackIdentity` | src/actions/queue.ts:72 | where no user has a vote on the track, the updater returns its input |
| `QueueStore.RemoveFromUsers` | src/actions/queue.ts:69-72 | the transaction on `votes_by_user/<party>`: no user keeps a vote on the track; user keys are kept; other tracks and other parties are unchanged; an absent subtree stays absent |
| `QueueStore.RemoveKeepsAgreement` | src/actions/queue.ts:57-72 | a removal whose vote parts both succeed preserves the dual-index invariant |
| `QueueStore.RemovedTrackHasNoVotes` | src/actions/queue.ts:64-72 | after removal no vote at all remains for the track in that party, in either index |
| `QueueStore.SettledVoteAgrees` | src/actions/queue.ts:100-122 | over setVote calls where each write lands iff it succeeds: a vote whose last call had both writes succeed (or that no call touched) agrees in both indices, whatever partial failures other votes met |
| `QueueStore.EventualSuccessConverges` | src/actions/queue.ts:100-122 | when every vote's failed calls are eventually retried with success, the two indices agree everywhere again |
| `QueueStore.RemovalSucceeded` | src/actions/queue.ts:83 | the removal succeeds only if the queue, votes and votes-by-user parts all succeed; with `moveToHistory` a failed history push fails it too; when every part succeeds it succeeds; without `moveToHistory` the history outcome does not matter |
| `QueueStore.HistoryAppend` | src/actions/queue.ts:74-81 | the history push grows the party's history by exactly one entry, the removed track, at the end; other parties' histories are unchanged |
| `QueueStore.Store.RemoveTrack` | src/actions/queue.ts:52-84 | each part applies iff it succeeds, the history part only with `moveToHistory`; the call succeeds iff every issued part does; nothing is rolled back; on success the track is gone and the invariant is kept |
| `QueueSagas.StepPinsIff` | src/sagas/queue.ts:32-43 | one notification pins iff the client is owner, there is no other playback master, there is a top track, and it differs from the last pinned one; a pin targets the new top track's reference and stores the track; a skipped step changes nothing |
| `QueueSagas.SkipsPin` | src/sagas/queue.ts:38 | the guard always skips a top track with the same reference as the last pinned one, and always skips when the client is not owner or another playback master exists; before the first pin, the owner without a contender never skips a present top track |
| `QueueSagas.Step` | src/sagas/queue.ts:32-43 | one notification either changes nothing, or appends the current top track's reference to the pins and remembers that track; it changes something only for an owner without another playback master |
| `QueueSagas.Run` | src/sagas/queue.ts:27-44 | a run only appends to the issued pins, at most one per notification |
| `QueueSagas.OtherMasterNeverPins` | src/sagas/queue.ts:33-40 | when every notification reports another playback master, the run issues no pin and the state does not change |
| `QueueSagas.PinsComeFromOwnerWithoutContender` | src/sagas/queue.ts:32-43 | every pin comes from a notification where the client owned the party, had no contender, and saw that track on top |
| `QueueSagas.UnchangedTopPinsAtMostOnce` | src/sagas/queue.ts:38-43 | two consecutive notifications whose top tracks have the same reference (whatever their `order`) issue at most one pin |
| `QueueSagas.NoBackToBackRepin` | src/sagas/queue.ts:38-43 | the stored top track is always the last one pinned, and no pin repeats the pin just before it |
| `QueueSagas.SkippedTrackPinnedOnOwnership` | src/sagas/queue.ts:38-42 | a top track skipped while the client was not owner is pinned once the client becomes owner |
| `QueueSagas.ReturningTrackIsPinnedAgain` | src/sagas/queue.ts:38-43 | only the last pin is remembered: the top tracks A, B, A pin A, B, A |
| `QueueSagas.PinTopTrack.OnUpdateTracks` | src/sagas/queue.ts:28-43 | one pass of the loop body moves the object's state exactly as `Step` does |
| `QueueSagas.PinTopTrack.Consume` | src/sagas/queue.ts:27-44 | the loop over a finite run of notifications moves the state exactly as `Run` does |
| `QueueSagas.NeedsLogin` | src/sagas/queue.ts:64-66 | the gate never fires for a signed-in user, when the party settings are missing, or when anonymous voters are allowed |
| `QueueSagas.SetVoteEffects` | src/sagas/queue.ts:62-79 | the store is called iff the gate does not fire; the failure toast appears iff the gate does not fire and the write fails; at most three effects |
| `QueueSagas.RemoveTrackEffects` | src/sagas/queue.ts:47-60 | the removal call comes first; a single effect iff the removal succeeds; otherwise the second effect is the "Failed to remove track: " toast |
| `QueueSagas.GatedVoteOnlyPromptsLogin` | src/sagas/queue.ts:64-70 | with settings present, anonymous voting disallowed and an anonymous user, the only effect is `changeDisplayLoginModal(true)`: no SET_VOTE and no store call |
| `QueueSagas.UngatedVoteIsOptimistic` | src/sagas/queue.ts:64-75 | without settings, with anonymous voting allowed, or for a signed-in user, SET_VOTE with the same ref and vote goes out before the store call, and no login prompt is shown |
| `QueueSagas.VoteFailureToastsOnce` | src/sagas/queue.ts:72-78 | a failed vote write gives exactly one toast, last, prefixed "Failed to toggle vote: "; a SET_VOTE for the opposite vote is never sent, so the optimistic one is not reverted |
| `QueueSagas.RemoveFailureToastsOnce` | src/sagas/queue.ts:47-59 | a failed removal gives exactly one toast, prefixed "Failed to remove track: "; a successful removal gives none |
| `QueueSagas.QueueHandlers.HandleSetVote` | src/sagas/queue.ts:62-79 | the effect log grows by `SetVoteEffects`; when the gate fires the store is untouched; otherwise the store is updated as `Store.SetVote` does |
| `QueueSagas.QueueHandlers.HandleRemoveTrack` | src/sagas/queue.ts:47-60 | the effect log grows by the call and, on failure, one toast; the store is updated as `Store.RemoveTrack` does |
| `AuthSagas.IndexOfFrom` | src/sagas/auth.ts:17 | returns the first position at or after `from` where the pattern occurs, or none when it occurs nowhere from there |
| `AuthSagas.ReplaceFirst` | src/sagas/auth.ts:17 | `String.replace` with a string pattern: only the first occurrence is replaced; without an occurrence the string is unchanged |
| `AuthSagas.StripProviderId` | src/sagas/auth.ts:17 | the provider id is unchanged, or exactly four characters shorter; without any `.com` it is unchanged |
| `AuthSagas.StripDotCom` | src/sagas/auth.ts:17 | a provider id `<name>.com` with no dot in the name strips to `<name>` |
| `AuthSagas.NoDotNoDotCom` | src/sagas/auth.ts:17 | a provider id without a dot is left as it is |
| `AuthSagas.StripExamples` | src/sagas/auth.ts:17 | 'google.com' becomes 'google', 'facebook.com' becomes 'facebook', 'password' stays |
| `AuthSagas.InitialLoginEffects` | src/sagas/auth.ts:12-19 | nothing iff the user is anonymous, otherwise one `notifyAuthStatusKnown` for that user, whose provider is no longer than the user's provider id |
| `AuthSagas.InitialLoginAnnouncesSignedInUsers` | src/sagas/auth.ts:12-19 | checkInitialLogin emits nothing iff the user is anonymous; a 'google.com' user is announced as 'google' |
| `AuthSagas.FailureProvider` | src/sagas/auth.ts:39 | the tag is never empty: it is the credential's provider id or 'firebase', and 'firebase' when there is no credential |
| `AuthSagas.RedirectFailureMessage` | src/sagas/auth.ts:31-36 | the message is never empty; for any code but web-storage-unsupported it is "Failed to perform OAuth ", the code, ": " and the error's message, in that order |
| `AuthSagas.OAuthRedirectEffects` | src/sagas/auth.ts:21-40 | no effect iff the redirect succeeded, otherwise one: a credential sign-in or an `exchangeCodeFail` |
| `AuthSagas.RedirectFailureReportedIff` | src/sagas/auth.ts:21-40 | `exchangeCodeFail` is emitted iff the redirect failed with a code other than credential-already-in-use; that code instead signs in with the error's credential; at most one effect |
| `AuthSagas.RedirectFailureProvider` | src/sagas/auth.ts:39 | a reported redirect failure is tagged with the credential's non-empty provider id, else 'firebase' |
| `AuthSagas.RedirectMessageClassifies` | src/sagas/auth.ts:31-36 | the unsupported-browser message is given iff the code is web-storage-unsupported; any other code gets "Failed to perform OAuth <code>: <message>" |
| `AuthSagas.StartupEffects` | src/sagas/auth.ts:92-93 | at most two effects; for an anonymous user only the redirect check's; after a successful redirect only checkInitialLogin's |
| `AuthSagas.CredentialConflictRecovers` | src/sagas/auth.ts:28-30 | at start-up a credential conflict first signs in with the credential, and no `exchangeCodeFail` is emitted, whatever checkInitialLogin then does |
| `AuthSagas.LinkFailureMessage` | src/sagas/auth.ts:81-83 | provider-already-linked gives the already-linked message; any other code gives "Failed to start OAuth with code <code>: <message>" |
| `AuthSagas.OAuthLoginEffects` | src/sagas/auth.ts:72-85 | at most one effect, always an `exchangeCodeFail`; none when linking started |
| `AuthSagas.LinkFailureReportedIff` | src/sagas/auth.ts:72-85 | 'spotify' does nothing; otherwise a failure is reported iff linking failed, always tagged with the requested provider |
| `AuthSagas.LinkMessageClassifies` | src/sagas/auth.ts:80-83 | provider-already-linked yields a message naming the requested provider; any other code yields "Failed to start OAuth with code <code>: <message>" |
| `AuthSagas.RetryTrace` | src/sagas/auth.ts:59-67 | the retries from attempt i take at most two steps per remaining attempt and start with attempt i's outcome; from the fifth attempt on there are none |
| `AuthSagas.IntervalTrace` | src/sagas/auth.ts:49-70 | an interval starts with the 55-minute wait, has at most eleven steps, and is that wait alone without a current user |
| `AuthSagas.FirstSuccess` | src/sagas/auth.ts:59-62 | the first attempt that succeeds, at or after the given one, or 5 when none does |
| `AuthSagas.RetryTraceShape` | src/sagas/auth.ts:58-67 | the retries alternate attempt and wait; failed attempt i is followed by a wait of 5000*i ms; they stop after the first success or after five attempts |
| `AuthSagas.AttemptsPerInterval` | src/sagas/auth.ts:58-67 | at most five attempts per interval; the first success is the last attempt, and every earlier attempt failed |
| `AuthSagas.AllFailuresBackOffLinearly` | src/sagas/auth.ts:59-67 | five failures give waits of 0, 5000, 10000, 15000 and 20000 ms |
| `AuthSagas.ThreeFailuresThenSuccess` | src/sagas/auth.ts:59-67 | three failures then a success give waits of 0, 5000 and 10000 ms, then the fourth attempt succeeds |
| `AuthSagas.RefreshInterval` | src/sagas/auth.ts:49-70 | one interval of the loop: the 55-minute wait, then nothing without a current user, else the counted retry loop with `break` on success, producing exactly the trace `IntervalTrace` describes |

## Left out

- Firebase SDK calls are replaced by the four map fields of `Store` and by abstract outcomes:
  one bool per write, the redirect result, the link result, the refresh outcomes. A failed
  write is modelled as changing nothing.
- Firebase drops a node once its last child is deleted; the model keeps empty inner maps. Every
  lookup (`GetTrack`, `Get3`) reads them the same as an absent node.
- `firebaseTrackIdSelector` is not part of this model. The operations take the track's store
  key as a separate argument, so `Store.RemoveTrack` does not tie the archived track to the key.
- `tracksEqual` is not part of this model. `TracksEqual` compares track references, since a
  pinned track comes back with a new `order`.
- `currentTrackSelector`, `isPartyOwnerSelector`, `hasOtherPlaybackMasterSelector` and
  `singleTrackSelector` are inputs (`Snapshot`, the `track` argument). The case where
  `singleTrackSelector` finds no track is not modelled.
- `requireAuth` and `getProvider` are not part of this model: the user is an input. A
  `requireAuth` failure at src/sagas/queue.ts:65 is outside the handler's `try` and is not modelled.
- Concurrency is left out: `Promise.all` becomes sequential writes with a combined outcome. A
  forked `pinTrack` is recorded as a pin request and not applied to the store. Interleavings
  with other clients are not modelled.
- The `while (true)` loops run one notification (`OnUpdateTracks`) or one interval
  (`RefreshInterval`) per call. `delay` becomes a `Wait` step carrying its duration.
- `ServerValue.TIMESTAMP` is the parameter `now`. Error objects stringified into toasts are the
  parameter `err`.
- A failing `signInAndRetrieveDataWithCredential` and the value of a successful redirect are
  not modelled. `console.warn` logging is left out.
- The search and input action creators of `src/actions/view-party.ts` are left out. Only
  `changeDisplayLoginModal` is used here.
- Track `order` values are integers; JavaScript's double precision is not modelled. The pin
  order is exactly representable.
