/**
 * The party queue's writes to the shared store (src/actions/queue.ts).
 *
 * The store is four trees addressed by string keys:
 *   tracks/<party>/<track>                the track record (order, played_at, other fields)
 *   votes/<party>/<track>/<uid>           a vote, indexed by track
 *   votes_by_user/<party>/<uid>/<track>   the same vote, indexed by user
 *   tracks_played/<party>                 the play history, in push order
 *
 * A `set` on a child path creates the nodes missing on the way; `set(null)` deletes the key.
 * Every write has an abstract outcome: a write that fails leaves its path as it was.
 */
module QueueStore {
  import opened Wrappers

  type Key = string

  /** `Number.MAX_SAFE_INTEGER`, 2^53 - 1. */
  const MaxSafeInteger: int := 9007199254740991
  /** `Number.MIN_SAFE_INTEGER`. */
  const MinSafeInteger: int := -MaxSafeInteger
  /** The order a pinned track gets: one above the floor, which stays unused. */
  const PinnedOrder: int := MinSafeInteger + 1

  datatype TrackReference = TrackReference(provider: string, id: string)

  /** A track as the client's state holds it; the history log stores these. */
  datatype Track = Track(reference: TrackReference, order: int, playedAt: Option<int>)

  /** A node under tracks/<party>: the two fields this core writes, and the rest uninterpreted. */
  datatype TrackRecord = TrackRecord(order: Option<int>, playedAt: Option<int>, otherFields: map<string, string>)

  /** The node a child write creates where there was none. */
  const EmptyRecord := TrackRecord(None, None, map[])

  type TrackTree = map<Key, map<Key, TrackRecord>>
  type UserVotes = map<Key, map<Key, bool>>
  type VoteTree = map<Key, UserVotes>

  /** One vote as both indices record it. */
  datatype VoteWrite = VoteWrite(party: Key, track: Key, uid: Key, vote: bool)

  /** Which of the parts of a track removal the store accepted. */
  datatype RemovalOutcome = RemovalOutcome(queueOk: bool, votesOk: bool, votesByUserOk: bool, historyOk: bool)

  /** removeTrack awaits all its parts: it succeeds when each part it issued succeeded. */
  predicate RemovalSucceeded(moveToHistory: bool, outcome: RemovalOutcome)
    ensures RemovalSucceeded(moveToHistory, outcome) ==> outcome.queueOk && outcome.votesOk && outcome.votesByUserOk
    ensures moveToHistory && !outcome.historyOk ==> !RemovalSucceeded(moveToHistory, outcome)
    ensures outcome.queueOk && outcome.votesOk && outcome.votesByUserOk && outcome.historyOk ==> RemovalSucceeded(moveToHistory, outcome)
    ensures !moveToHistory ==>
      (RemovalSucceeded(moveToHistory, outcome) <==> outcome.queueOk && outcome.votesOk && outcome.votesByUserOk)
  {
    outcome.queueOk && outcome.votesOk && outcome.votesByUserOk && (!moveToHistory || outcome.historyOk)
  }

  // ---------------------------------------------------------------------------
  // Reading the trees

  function GetTrack(tracks: TrackTree, p: Key, t: Key): Option<TrackRecord> {
    if p in tracks && t in tracks[p] then Some(tracks[p][t]) else None
  }

  /** The record a child write starts from: the stored one, or an empty node. */
  function RecordAt(tracks: TrackTree, p: Key, t: Key): TrackRecord {
    if p in tracks && t in tracks[p] then tracks[p][t] else EmptyRecord
  }

  function Get3(m: VoteTree, a: Key, b: Key, c: Key): Option<bool> {
    if a in m && b in m[a] && c in m[a][b] then Some(m[a][b][c]) else None
  }

  function History(played: map<Key, seq<Track>>, p: Key): seq<Track> {
    if p in played then played[p] else []
  }

  // ---------------------------------------------------------------------------
  // Track records: pinTrack and markTrackAsPlayed

  /** `tracks/<p>/<t>.set(rec)`: only that one entry changes. */
  function PutRecord(tracks: TrackTree, p: Key, t: Key, rec: TrackRecord): (r: TrackTree)
    ensures GetTrack(r, p, t) == Some(rec)
    ensures forall p', t' :: (p' != p || t' != t) ==> GetTrack(r, p', t') == GetTrack(tracks, p', t')
    ensures r.Keys == tracks.Keys + {p}
  {
    tracks[p := (if p in tracks then tracks[p] else map[])[t := rec]]
  }

  /** The write of pinTrack: tracks/<p>/<t>/order := o. */
  function SetOrder(tracks: TrackTree, p: Key, t: Key, o: int): (r: TrackTree)
    ensures GetTrack(r, p, t).Some?
    ensures r[p][t].order == Some(o)
    ensures r[p][t].playedAt == RecordAt(tracks, p, t).playedAt
    ensures r[p][t].otherFields == RecordAt(tracks, p, t).otherFields
    ensures forall p', t' :: (p' != p || t' != t) ==> GetTrack(r, p', t') == GetTrack(tracks, p', t')
  {
    PutRecord(tracks, p, t, RecordAt(tracks, p, t).(order := Some(o)))
  }

  /** The write of markTrackAsPlayed: tracks/<p>/<t>/played_at := now. */
  function SetPlayedAt(tracks: TrackTree, p: Key, t: Key, now: int): (r: TrackTree)
    ensures GetTrack(r, p, t).Some?
    ensures r[p][t].playedAt == Some(now)
    ensures r[p][t].order == RecordAt(tracks, p, t).order
    ensures r[p][t].otherFields == RecordAt(tracks, p, t).otherFields
    ensures forall p', t' :: (p' != p || t' != t) ==> GetTrack(r, p', t') == GetTrack(tracks, p', t')
  {
    PutRecord(tracks, p, t, RecordAt(tracks, p, t).(playedAt := Some(now)))
  }

  /** The pinned order sorts before every safe integer but the floor, which stays free. */
  lemma PinnedOrderSortsFirst(o: int)
    requires MinSafeInteger < o <= MaxSafeInteger
    ensures MinSafeInteger < PinnedOrder <= o
    ensures PinnedOrder == -9007199254740990
  {
  }

  /** Two stores that agree on every entry are the same store. */
  lemma {:induction false} TrackTreeExt(a: TrackTree, b: TrackTree)
    requires a.Keys == b.Keys
    requires forall p :: p in a ==> a[p].Keys == b[p].Keys
    requires forall p, t :: GetTrack(a, p, t) == GetTrack(b, p, t)
    ensures a == b
  {
    forall p | p in a ensures a[p] == b[p] {
      forall t | t in a[p] ensures a[p][t] == b[p][t] {
        assert GetTrack(a, p, t) == GetTrack(b, p, t);
      }
    }
  }

  /** Pinning twice leaves the same store as pinning once. */
  lemma {:induction false} PinIdempotent(tracks: TrackTree, p: Key, t: Key)
    ensures SetOrder(SetOrder(tracks, p, t, PinnedOrder), p, t, PinnedOrder) == SetOrder(tracks, p, t, PinnedOrder)
  {
    var once := SetOrder(tracks, p, t, PinnedOrder);
    var twice := SetOrder(once, p, t, PinnedOrder);
    assert RecordAt(once, p, t) == once[p][t];
    assert GetTrack(twice, p, t) == GetTrack(once, p, t);
    TrackTreeExt(twice, once);
  }

  /** Pinning and marking as played write different fields, so their order does not matter. */
  lemma {:induction false} PinAndMarkCommute(tracks: TrackTree, p: Key, t: Key, now: int)
    ensures SetPlayedAt(SetOrder(tracks, p, t, PinnedOrder), p, t, now)
         == SetOrder(SetPlayedAt(tracks, p, t, now), p, t, PinnedOrder)
  {
    var a := SetPlayedAt(SetOrder(tracks, p, t, PinnedOrder), p, t, now);
    var b := SetOrder(SetPlayedAt(tracks, p, t, now), p, t, PinnedOrder);
    assert a[p][t] == b[p][t];
    TrackTreeExt(a, b);
  }

  // ---------------------------------------------------------------------------
  // Votes: setVote

  /** `m/<a>/<b>/<c>.set(v)`: creates the missing nodes, changes nothing else. */
  function Put3(m: VoteTree, a: Key, b: Key, c: Key, v: bool): (r: VoteTree)
    ensures Get3(r, a, b, c) == Some(v)
    ensures forall a', b', c' :: (a' != a || b' != b || c' != c) ==> Get3(r, a', b', c') == Get3(m, a', b', c')
    ensures r.Keys == m.Keys + {a}
  {
    var inner := if a in m then m[a] else map[];
    m[a := inner[b := (if b in inner then inner[b] else map[])[c := v]]]
  }

  /** Two vote trees that agree on every entry, and have the same nodes, are the same tree. */
  lemma {:induction false} VoteTreeExt(x: VoteTree, y: VoteTree)
    requires x.Keys == y.Keys
    requires forall a :: a in x ==> x[a].Keys == y[a].Keys
    requires forall a, b :: a in x && b in x[a] ==> x[a][b].Keys == y[a][b].Keys
    requires forall a, b, c :: Get3(x, a, b, c) == Get3(y, a, b, c)
    ensures x == y
  {
    forall a | a in x ensures x[a] == y[a] {
      forall b | b in x[a] ensures x[a][b] == y[a][b] {
        forall c | c in x[a][b] ensures x[a][b][c] == y[a][b][c] {
          assert Get3(x, a, b, c) == Get3(y, a, b, c);
        }
      }
    }
  }

  /** Writing the same vote twice leaves the same tree as writing it once. */
  lemma {:induction false} Put3Idempotent(m: VoteTree, a: Key, b: Key, c: Key, v: bool)
    ensures Put3(Put3(m, a, b, c, v), a, b, c, v) == Put3(m, a, b, c, v)
  {
    var once := Put3(m, a, b, c, v);
    var twice := Put3(once, a, b, c, v);
    VoteTreeExt(twice, once);
  }

  /**
   * The dual-index invariant: for every (party, track, user) the by-track index and the
   * by-user index hold the same vote, or neither holds one.
   */
  ghost predicate IndicesAgree(votes: VoteTree, byUser: VoteTree) {
    forall p, t, u :: Get3(votes, p, t, u) == Get3(byUser, p, u, t)
  }

  /** The indices agree everywhere except, perhaps, on the one triple (p, t, u). */
  ghost predicate AgreeExcept(votes: VoteTree, byUser: VoteTree, p: Key, t: Key, u: Key) {
    forall p', t', u' :: (p' != p || t' != t || u' != u) ==> Get3(votes, p', t', u') == Get3(byUser, p', u', t')
  }

  /** A setVote both of whose writes succeed keeps the indices in agreement. */
  lemma SetVoteKeepsAgreement(votes: VoteTree, byUser: VoteTree, w: VoteWrite)
    requires IndicesAgree(votes, byUser)
    ensures IndicesAgree(Put3(votes, w.party, w.track, w.uid, w.vote), Put3(byUser, w.party, w.uid, w.track, w.vote))
  {
  }

  /** When only one of the two writes lands, the indices disagree on that one vote at most. */
  lemma PartialSetVoteDivergesOnce(votes: VoteTree, byUser: VoteTree, w: VoteWrite)
    requires IndicesAgree(votes, byUser)
    ensures AgreeExcept(Put3(votes, w.party, w.track, w.uid, w.vote), byUser, w.party, w.track, w.uid)
    ensures AgreeExcept(votes, Put3(byUser, w.party, w.uid, w.track, w.vote), w.party, w.track, w.uid)
  {
  }

  /** A later successful setVote of that vote (any value) restores agreement everywhere. */
  lemma RetryRestoresAgreement(votes: VoteTree, byUser: VoteTree, w: VoteWrite)
    requires AgreeExcept(votes, byUser, w.party, w.track, w.uid)
    ensures IndicesAgree(Put3(votes, w.party, w.track, w.uid, w.vote), Put3(byUser, w.party, w.uid, w.track, w.vote))
  {
  }

  /** The by-track index after a sequence of successful setVotes, in order. */
  function ApplyByTrack(votes: VoteTree, ws: seq<VoteWrite>): VoteTree
    decreases |ws|
  {
    if ws == [] then votes
    else var w := ws[|ws| - 1];
      Put3(ApplyByTrack(votes, ws[..|ws| - 1]), w.party, w.track, w.uid, w.vote)
  }

  /** The by-user index after the same sequence. */
  function ApplyByUser(byUser: VoteTree, ws: seq<VoteWrite>): VoteTree
    decreases |ws|
  {
    if ws == [] then byUser
    else var w := ws[|ws| - 1];
      Put3(ApplyByUser(byUser, ws[..|ws| - 1]), w.party, w.uid, w.track, w.vote)
  }

  /** Dual-index convergence: any sequence of successful setVotes keeps the indices in agreement. */
  lemma {:induction false} VotesConverge(votes: VoteTree, byUser: VoteTree, ws: seq<VoteWrite>)
    requires IndicesAgree(votes, byUser)
    ensures IndicesAgree(ApplyByTrack(votes, ws), ApplyByUser(byUser, ws))
    decreases |ws|
  {
    if ws != [] {
      VotesConverge(votes, byUser, ws[..|ws| - 1]);
      SetVoteKeepsAgreement(ApplyByTrack(votes, ws[..|ws| - 1]), ApplyByUser(byUser, ws[..|ws| - 1]), ws[|ws| - 1]);
    }
  }

  /** Last write wins: after the sequence, each index holds the last vote written for a triple. */
  lemma {:induction false} LastVoteWins(votes: VoteTree, byUser: VoteTree, ws: seq<VoteWrite>, k: nat)
    requires k < |ws|
    requires forall j :: k < j < |ws| ==> (ws[j].party, ws[j].track, ws[j].uid) != (ws[k].party, ws[k].track, ws[k].uid)
    ensures Get3(ApplyByTrack(votes, ws), ws[k].party, ws[k].track, ws[k].uid) == Some(ws[k].vote)
    ensures Get3(ApplyByUser(byUser, ws), ws[k].party, ws[k].uid, ws[k].track) == Some(ws[k].vote)
    decreases |ws|
  {
    if k < |ws| - 1 {
      LastVoteWins(votes, byUser, ws[..|ws| - 1], k);
    }
  }

  /** One setVote call, with the outcome of each of its two writes. */
  datatype VoteCall = VoteCall(write: VoteWrite, byTrackOk: bool, byUserOk: bool)

  predicate Targets(c: VoteCall, p: Key, t: Key, u: Key) {
    c.write.party == p && c.write.track == t && c.write.uid == u
  }

  /** The by-track index after a sequence of setVote calls, each write landing iff it succeeded. */
  function ApplyCallsByTrack(votes: VoteTree, cs: seq<VoteCall>): VoteTree
    decreases |cs|
  {
    if cs == [] then votes
    else
      var c, before := cs[|cs| - 1], ApplyCallsByTrack(votes, cs[..|cs| - 1]);
      if c.byTrackOk then Put3(before, c.write.party, c.write.track, c.write.uid, c.write.vote) else before
  }

  /** The by-user index after the same calls. */
  function ApplyCallsByUser(byUser: VoteTree, cs: seq<VoteCall>): VoteTree
    decreases |cs|
  {
    if cs == [] then byUser
    else
      var c, before := cs[|cs| - 1], ApplyCallsByUser(byUser, cs[..|cs| - 1]);
      if c.byUserOk then Put3(before, c.write.party, c.write.uid, c.write.track, c.write.vote) else before
  }

  /** The last call on (p, t, u) in the sequence, if any. */
  function LastCallOn(cs: seq<VoteCall>, p: Key, t: Key, u: Key): (r: Option<VoteCall>)
    ensures r.Some? ==> Targets(r.value, p, t, u) && r.value in cs
    ensures r.None? ==> forall j :: 0 <= j < |cs| ==> !Targets(cs[j], p, t, u)
    decreases |cs|
  {
    if cs == [] then None
    else if Targets(cs[|cs| - 1], p, t, u) then Some(cs[|cs| - 1])
    else LastCallOn(cs[..|cs| - 1], p, t, u)
  }

  /**
   * The vote (p, t, u) is settled when no call touched it, or its last call had both writes
   * succeed: every failed call on it was eventually retried with success.
   */
  predicate Settled(cs: seq<VoteCall>, p: Key, t: Key, u: Key) {
    var last := LastCallOn(cs, p, t, u);
    last.None? || (last.value.byTrackOk && last.value.byUserOk)
  }

  /**
   * Eventual convergence, one vote at a time: whatever partial failures the calls on other
   * votes met, a settled vote agrees in both indices.
   */
  lemma {:induction false} SettledVoteAgrees(votes: VoteTree, byUser: VoteTree, cs: seq<VoteCall>, p: Key, t: Key, u: Key)
    requires IndicesAgree(votes, byUser)
    requires Settled(cs, p, t, u)
    ensures Get3(ApplyCallsByTrack(votes, cs), p, t, u) == Get3(ApplyCallsByUser(byUser, cs), p, u, t)
    decreases |cs|
  {
    if cs == [] {
      assert Get3(votes, p, t, u) == Get3(byUser, p, u, t);
    } else if !Targets(cs[|cs| - 1], p, t, u) {
      SettledVoteAgrees(votes, byUser, cs[..|cs| - 1], p, t, u);
    }
  }

  /** When every vote is eventually settled, the indices agree everywhere again. */
  lemma EventualSuccessConverges(votes: VoteTree, byUser: VoteTree, cs: seq<VoteCall>)
    requires IndicesAgree(votes, byUser)
    requires forall p, t, u :: Settled(cs, p, t, u)
    ensures IndicesAgree(ApplyCallsByTrack(votes, cs), ApplyCallsByUser(byUser, cs))
  {
    forall p, t, u
      ensures Get3(ApplyCallsByTrack(votes, cs), p, t, u) == Get3(ApplyCallsByUser(byUser, cs), p, u, t)
    {
      SettledVoteAgrees(votes, byUser, cs, p, t, u);
    }
  }

  // ---------------------------------------------------------------------------
  // removeTrack

  /** `tracks/<p>/<t>.set(null)`. */
  function RemoveTrackEntry(tracks: TrackTree, p: Key, t: Key): (r: TrackTree)
    ensures GetTrack(r, p, t) == None
    ensures forall p', t' :: (p' != p || t' != t) ==> GetTrack(r, p', t') == GetTrack(tracks, p', t')
  {
    if p in tracks then tracks[p := tracks[p] - {t}] else tracks
  }

  /** `votes/<p>/<t>.set(null)`: the whole by-track subtree of that track goes. */
  function RemoveVoteSubtree(votes: VoteTree, p: Key, t: Key): (r: VoteTree)
    ensures forall u :: Get3(r, p, t, u) == None
    ensures forall p', t', u' :: (p' != p || t' != t) ==> Get3(r, p', t', u') == Get3(votes, p', t', u')
  {
    if p in votes then votes[p := votes[p] - {t}] else votes
  }

  /** The transaction's updater, `mapValues(votes, userVotes => omit(userVotes, trackId))`. */
  function OmitTrack(userVotes: UserVotes, t: Key): (r: UserVotes)
    ensures r.Keys == userVotes.Keys
    ensures forall u :: u in r ==> t !in r[u]
    ensures forall u, t' :: u in r && t' != t ==> (t' in r[u] <==> t' in userVotes[u])
    ensures forall u, t' :: u in r && t' in r[u] ==> r[u][t'] == userVotes[u][t']
  {
    map u | u in userVotes :: userVotes[u] - {t}
  }

  /** Applying the updater a second time changes nothing: a retried transaction is harmless. */
  lemma OmitTrackIdempotent(userVotes: UserVotes, t: Key)
    ensures OmitTrack(OmitTrack(userVotes, t), t) == OmitTrack(userVotes, t)
  {
    var once := OmitTrack(userVotes, t);
    forall u | u in once ensures once[u] - {t} == once[u] {
    }
  }

  /** Where no user has voted on the track, the updater is the identity. */
  lemma OmitTrackIdentity(userVotes: UserVotes, t: Key)
    requires forall u :: u in userVotes ==> t !in userVotes[u]
    ensures OmitTrack(userVotes, t) == userVotes
  {
    forall u | u in userVotes ensures userVotes[u] - {t} == userVotes[u] {
    }
  }

  /**
   * The transaction on votes_by_user/<p>: the updater runs on the current subtree; an absent
   * subtree (null) maps to an empty object, which the store keeps absent.
   */
  function RemoveFromUsers(byUser: VoteTree, p: Key, t: Key): (r: VoteTree)
    ensures forall u :: Get3(r, p, u, t) == None
    ensures forall p', u', t' :: (p' != p || t' != t) ==> Get3(r, p', u', t') == Get3(byUser, p', u', t')
    ensures p in byUser ==> p in r && r[p].Keys == byUser[p].Keys
    ensures forall p' :: p' != p && p' in byUser ==> p' in r && r[p'] == byUser[p']
  {
    if p in byUser then byUser[p := OmitTrack(byUser[p], t)] else byUser
  }

  /** A removal whose vote writes both succeed keeps the indices in agreement. */
  lemma RemoveKeepsAgreement(votes: VoteTree, byUser: VoteTree, p: Key, t: Key)
    requires IndicesAgree(votes, byUser)
    ensures IndicesAgree(RemoveVoteSubtree(votes, p, t), RemoveFromUsers(byUser, p, t))
  {
  }

  /** After a removal, no vote at all remains for the track in that party, in either index. */
  lemma RemovedTrackHasNoVotes(votes: VoteTree, byUser: VoteTree, p: Key, t: Key, u: Key)
    ensures Get3(RemoveVoteSubtree(votes, p, t), p, t, u) == None
    ensures Get3(RemoveFromUsers(byUser, p, t), p, u, t) == None
  {
  }

  // ---------------------------------------------------------------------------
  // The store object

  class Store {
    var tracks: TrackTree
    var votes: VoteTree
    var votesByUser: VoteTree
    var tracksPlayed: map<Key, seq<Track>>

    constructor (tracks: TrackTree, votes: VoteTree, votesByUser: VoteTree, tracksPlayed: map<Key, seq<Track>>)
      ensures this.tracks == tracks && this.votes == votes
      ensures this.votesByUser == votesByUser && this.tracksPlayed == tracksPlayed
    {
      this.tracks := tracks;
      this.votes := votes;
      this.votesByUser := votesByUser;
      this.tracksPlayed := tracksPlayed;
    }

    /** markTrackAsPlayed: sets played_at of the track to the server timestamp `now`. */
    method MarkTrackAsPlayed(partyId: Key, trackId: Key, now: int, ok: bool)
      modifies this`tracks
      ensures tracks == if ok then SetPlayedAt(old(tracks), partyId, trackId, now) else old(tracks)
    {
      if ok {
        var rec := RecordAt(tracks, partyId, trackId);
        tracks := PutRecord(tracks, partyId, trackId, rec.(playedAt := Some(now)));
      }
    }

    /** pinTrack: moves the track to the head of the queue by setting its order to the pinned order. */
    method PinTrack(partyId: Key, trackId: Key, ok: bool)
      modifies this`tracks
      ensures tracks == if ok then SetOrder(old(tracks), partyId, trackId, PinnedOrder) else old(tracks)
      ensures ok ==> tracks[partyId][trackId].order == Some(PinnedOrder)
    {
      if ok {
        var rec := RecordAt(tracks, partyId, trackId);
        tracks := PutRecord(tracks, partyId, trackId, rec.(order := Some(PinnedOrder)));
      }
    }

    /**
     * setVote: writes the vote under both indices; the two writes are awaited together and
     * the call succeeds only when both do. A failed write leaves its index unchanged.
     */
    method SetVote(partyId: Key, trackId: Key, uid: Key, vote: bool, byTrackOk: bool, byUserOk: bool)
      returns (success: bool)
      modifies this`votes, this`votesByUser
      ensures votes == if byTrackOk then Put3(old(votes), partyId, trackId, uid, vote) else old(votes)
      ensures votesByUser == if byUserOk then Put3(old(votesByUser), partyId, uid, trackId, vote) else old(votesByUser)
      ensures success == (byTrackOk && byUserOk)
      ensures success ==> Get3(votes, partyId, trackId, uid) == Some(vote) == Get3(votesByUser, partyId, uid, trackId)
      ensures success && old(IndicesAgree(votes, votesByUser)) ==> IndicesAgree(votes, votesByUser)
      ensures old(IndicesAgree(votes, votesByUser)) ==> AgreeExcept(votes, votesByUser, partyId, trackId, uid)
    {
      ghost var w := VoteWrite(partyId, trackId, uid, vote);
      ghost var v0, b0 := votes, votesByUser;
      if byTrackOk {
        votes := Put3(votes, partyId, trackId, uid, vote);
      }
      if byUserOk {
        votesByUser := Put3(votesByUser, partyId, uid, trackId, vote);
      }
      success := byTrackOk && byUserOk;
      if IndicesAgree(v0, b0) {
        SetVoteKeepsAgreement(v0, b0, w);
        PartialSetVoteDivergesOnce(v0, b0, w);
      }
    }

    /**
     * removeTrack: deletes the track from the queue and from the by-track votes, drops it from
     * every user's by-user votes, and, with moveToHistory, appends the track to the history.
     * The parts are awaited together; the call succeeds only when all of them do, and a part
     * that fails is not rolled back from the others.
     */
    method RemoveTrack(partyId: Key, trackId: Key, track: Track, moveToHistory: bool, outcome: RemovalOutcome)
      returns (success: bool)
      modifies this`tracks, this`votes, this`votesByUser, this`tracksPlayed
      ensures tracks == if outcome.queueOk then RemoveTrackEntry(old(tracks), partyId, trackId) else old(tracks)
      ensures votes == if outcome.votesOk then RemoveVoteSubtree(old(votes), partyId, trackId) else old(votes)
      ensures votesByUser == if outcome.votesByUserOk then RemoveFromUsers(old(votesByUser), partyId, trackId)
                             else old(votesByUser)
      ensures tracksPlayed == if moveToHistory && outcome.historyOk
                              then old(tracksPlayed)[partyId := History(old(tracksPlayed), partyId) + [track]]
                              else old(tracksPlayed)
      ensures success == RemovalSucceeded(moveToHistory, outcome)
      ensures success ==> GetTrack(tracks, partyId, trackId) == None
      ensures success && old(IndicesAgree(votes, votesByUser)) ==> IndicesAgree(votes, votesByUser)
    {
      ghost var v0, b0 := votes, votesByUser;
      if outcome.queueOk {
        tracks := RemoveTrackEntry(tracks, partyId, trackId);
      }
      if outcome.votesOk {
        votes := RemoveVoteSubtree(votes, partyId, trackId);
      }
      if outcome.votesByUserOk {
        votesByUser := RemoveFromUsers(votesByUser, partyId, trackId);
      }
      success := outcome.queueOk && outcome.votesOk && outcome.votesByUserOk;
      if moveToHistory {
        if outcome.historyOk {
          tracksPlayed := tracksPlayed[partyId := History(tracksPlayed, partyId) + [track]];
        }
        success := success && outcome.historyOk;
      }
      if success && IndicesAgree(v0, b0) {
        RemoveKeepsAgreement(v0, b0, partyId, trackId);
      }
    }
  }

  /** With moveToHistory, a successful removal grows the history by exactly the removed track, at the end. */
  lemma HistoryAppend(played: map<Key, seq<Track>>, p: Key, track: Track, q: Key)
    ensures var after := played[p := History(played, p) + [track]];
      && |History(after, p)| == |History(played, p)| + 1
      && History(after, p)[|History(played, p)|] == track
      && History(after, p)[..|History(played, p)|] == History(played, p)
      && (q != p ==> History(after, q) == History(played, q))
  {
  }
}
