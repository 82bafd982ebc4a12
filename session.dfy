/** The game-session part of the client store: the state record and its
    mutations (setters, session-id normalisation, nomination reset, vote
    toggling and locking, and the vote-history log). */
module Session {
  import opened Optional
  import opened Text

  /** One element of the `votes` array: a number, a hole left by writing past
      the end of the array (read as `undefined`), or `NaN` (what toggling an
      `undefined` element produces). */
  datatype VoteSlot = Hole | Votes(n: int) | NaN

  /** `[nominator, nominee]`, as seat indexes. */
  datatype Seats = Seats(nominator: nat, nominee: nat)

  datatype Player = Player(name: string, isDead: bool, team: string)

  /** One vote-history entry (the timestamp is not modelled). */
  datatype VoteRecord = VoteRecord(nominator: string, nominee: string, kind: string, majority: nat, votes: seq<string>)

  /** The argument of the `nomination` mutation; None for a missing field. */
  datatype NominationPayload = NominationPayload(
    nomination: Option<Seats>,
    votes: Option<seq<VoteSlot>>,
    votingSpeed: Option<int>,
    lockedVote: Option<int>,
    isVoteInProgress: Option<bool>)

  // ---------------------------------------------------------------------------
  // Session ids

  const SessionIdLength: nat := 10

  predicate IsSessionChar(c: char) {
    '0' <= c <= '9' || 'a' <= c <= 'z'
  }

  predicate AllSessionChars(s: string) {
    forall k :: 0 <= k < |s| ==> IsSessionChar(s[k])
  }

  /** `replace(/[^0-9a-z]/g, "")`: the session characters of `s`, in order. */
  function KeepSessionChars(s: string): (r: string)
    ensures |r| <= |s|
    ensures AllSessionChars(r)
    ensures forall c :: c in r <==> c in s && IsSessionChar(c)
    ensures AllSessionChars(s) ==> r == s
  {
    if s == [] then []
    else (if IsSessionChar(s[0]) then [s[0]] else []) + KeepSessionChars(s[1..])
  }

  /** A single character survives the filter exactly when it is a session character. */
  lemma KeepSessionCharsOne(c: char)
    ensures KeepSessionChars([c]) == if IsSessionChar(c) then [c] else []
  {
    assert [c][1..] == [];
  }

  /** The filter works character by character: it keeps order and repeats. */
  lemma {:induction false} KeepSessionCharsAppend(a: string, b: string)
    ensures KeepSessionChars(a + b) == KeepSessionChars(a) + KeepSessionChars(b)
    decreases |a|
  {
    if a == [] {
      assert a + b == b;
    } else {
      assert (a + b)[0] == a[0];
      assert (a + b)[1..] == a[1..] + b;
      KeepSessionCharsAppend(a[1..], b);
    }
  }

  /** The `setSessionId` normalisation: lower-case, drop every character
      outside [0-9a-z], keep at most ten characters. */
  function NormalizeSessionId(raw: string): (id: string)
    ensures |id| <= SessionIdLength
    ensures AllSessionChars(id)
    ensures id <= KeepSessionChars(Lower(raw))
    ensures |id| == if |KeepSessionChars(Lower(raw))| < SessionIdLength
                    then |KeepSessionChars(Lower(raw))| else SessionIdLength
  {
    var kept := KeepSessionChars(Lower(raw));
    if |kept| <= SessionIdLength then kept else kept[..SessionIdLength]
  }

  /** Normalising a normalised id changes nothing. */
  lemma NormalizeSessionIdIdempotent(raw: string)
    ensures NormalizeSessionId(NormalizeSessionId(raw)) == NormalizeSessionId(raw)
  {
    var id := NormalizeSessionId(raw);
    assert Lower(id) == id;
  }

  // ---------------------------------------------------------------------------
  // Votes

  /** Reading `votes[i]`: past the end of the array it is `undefined`. */
  function SlotAt(votes: seq<VoteSlot>, i: nat): VoteSlot {
    if i < |votes| then votes[i] else Hole
  }

  /** `Math.abs(v - 1)`: 0 and 1 swap, `undefined` and `NaN` give `NaN`. */
  function Toggle(slot: VoteSlot): (r: VoteSlot)
    ensures slot == Votes(0) ==> r == Votes(1)
    ensures slot == Votes(1) ==> r == Votes(0)
    ensures !slot.Votes? ==> r == NaN
    ensures slot.Votes? ==> r.Votes? && r.n >= 0 && (r.n == slot.n - 1 || r.n == 1 - slot.n)
    ensures slot.Votes? && slot.n >= 1 ==> r == Votes(slot.n - 1)
  {
    match slot
    case Votes(n) => Votes(if n - 1 < 0 then 1 - n else n - 1)
    case _ => NaN
  }

  /** Toggling a 0/1 vote twice restores it. */
  lemma ToggleTwice(slot: VoteSlot)
    requires slot == Votes(0) || slot == Votes(1)
    ensures Toggle(Toggle(slot)) == slot
  {
  }

  /** `votes[index] = slot` on a JavaScript array: writing past the end grows
      the array and leaves holes in between. */
  function WithVote(votes: seq<VoteSlot>, index: nat, slot: VoteSlot): (r: seq<VoteSlot>)
    ensures |r| == if index < |votes| then |votes| else index + 1
    ensures r[index] == slot
    ensures forall k :: 0 <= k < |r| && k != index ==> r[k] == SlotAt(votes, k)
  {
    if index < |votes| then votes[index := slot]
    else votes + seq(index - |votes|, _ => Hole) + [slot]
  }

  /** The iterations of `for (j = 0; j < votes[i]; j++)`: a comparison with
      `undefined` or `NaN` is false. */
  function VoteCount(slot: VoteSlot): nat {
    if slot.Votes? && slot.n > 0 then slot.n else 0
  }

  function TotalVotes(players: seq<Player>, votes: seq<VoteSlot>): nat {
    if players == [] then 0
    else TotalVotes(players[..|players| - 1], votes) + VoteCount(SlotAt(votes, |players| - 1))
  }

  function Repeat(name: string, n: nat): (r: seq<string>)
    ensures |r| == n && forall k :: 0 <= k < n ==> r[k] == name
  {
    seq(n, _ => name)
  }

  /** The vote list of a history entry: seat by seat, the player's name as
      many times as the seat voted. */
  function Tally(players: seq<Player>, votes: seq<VoteSlot>): (r: seq<string>)
    ensures |r| == TotalVotes(players, votes)
  {
    if players == [] then []
    else Tally(players[..|players| - 1], votes) +
         Repeat(players[|players| - 1].name, VoteCount(SlotAt(votes, |players| - 1)))
  }

  /** Extending the seat range by one seat appends that seat's names. */
  lemma TallySnoc(players: seq<Player>, votes: seq<VoteSlot>, i: nat)
    requires i < |players|
    ensures Tally(players[..i + 1], votes) ==
            Tally(players[..i], votes) + Repeat(players[i].name, VoteCount(SlotAt(votes, i)))
  {
    assert players[..i + 1][..i] == players[..i];
  }

  /** The nested loops of `addHistory` that build the vote list. */
  method CollectVotes(players: seq<Player>, votes: seq<VoteSlot>) returns (names: seq<string>)
    ensures names == Tally(players, votes)
    ensures |names| == TotalVotes(players, votes)
  {
    names := [];
    for i := 0 to |players|
      invariant names == Tally(players[..i], votes)
    {
      var count := VoteCount(SlotAt(votes, i));
      var j := 0;
      while j < count
        invariant 0 <= j <= count
        invariant names == Tally(players[..i], votes) + Repeat(players[i].name, j)
      {
        names := names + [players[i].name];
        j := j + 1;
      }
      TallySnoc(players, votes, i);
    }
    assert players[..|players|] == players;
  }

  /** The number of players counted for the majority: the living ones, or all
      of them when the vote is an exile. */
  function Voters(players: seq<Player>, isExile: bool): (k: nat)
    ensures k <= |players|
    ensures k == |players| <==> isExile || forall i :: 0 <= i < |players| ==> !players[i].isDead
  {
    if players == [] then 0
    else
      var init := players[..|players| - 1];
      assert forall i :: 0 <= i < |init| ==> init[i] == players[i];
      Voters(init, isExile) + (if !players[|players| - 1].isDead || isExile then 1 else 0)
  }

  /** `Math.ceil(k / 2)`: the least m with 2m >= k. */
  function Majority(k: nat): (m: nat)
    ensures k <= 2 * m <= k + 1
  {
    (k + 1) / 2
  }

  const Traveller := "traveller"
  const Exile := "Exile"
  const Execution := "Execution"

  /** The history entry `addHistory` appends for a nomination whose seats exist. */
  function HistoryEntry(seats: Seats, players: seq<Player>, votes: seq<VoteSlot>): (e: VoteRecord)
    requires seats.nominator < |players| && seats.nominee < |players|
    ensures e.nominator == players[seats.nominator].name && e.nominee == players[seats.nominee].name
    ensures e.kind == Exile <==> players[seats.nominee].team == Traveller
    ensures e.kind == Exile || e.kind == Execution
    ensures var k := Voters(players, e.kind == Exile); k <= 2 * e.majority <= k + 1
    ensures e.votes == Tally(players, votes) && |e.votes| == TotalVotes(players, votes)
  {
    var isExile := players[seats.nominee].team == Traveller;
    VoteRecord(players[seats.nominator].name, players[seats.nominee].name,
               if isExile then Exile else Execution,
               Majority(Voters(players, isExile)),
               Tally(players, votes))
  }

  // ---------------------------------------------------------------------------
  // The store

  class SessionStore {
    var sessionId: string
    var isSpectator: bool
    var isReconnecting: bool
    var playerCount: int
    var ping: int
    var playerId: string
    var playerSecret: Option<string>  // absent from the initial state
    var claimedSeat: int
    var nomination: Option<Seats>
    var votes: seq<VoteSlot>
    var lockedVote: int
    var votingSpeed: int
    var allowSelfNaming: bool
    var isVoteInProgress: bool
    var voteHistory: seq<VoteRecord>
    var markedPlayer: int
    var isVoteHistoryAllowed: bool
    var isVoteWatchingAllowed: bool
    var isTwoVotesEnabled: bool
    var isRolesDistributed: bool

    /** The initial state. */
    constructor ()
      ensures sessionId == "" && !isSpectator && !isReconnecting && playerCount == 0 && ping == 0
      ensures playerId == "" && playerSecret == None && claimedSeat == -1 && nomination == None
      ensures votes == [] && lockedVote == 0 && votingSpeed == 1000 && !allowSelfNaming
      ensures !isVoteInProgress && voteHistory == [] && markedPlayer == -1
      ensures isVoteHistoryAllowed && isVoteWatchingAllowed && !isTwoVotesEnabled && !isRolesDistributed
    {
      sessionId, isSpectator, isReconnecting, playerCount, ping := "", false, false, 0, 0;
      playerId, playerSecret, claimedSeat, nomination := "", None, -1, None;
      votes, lockedVote, votingSpeed, allowSelfNaming := [], 0, 1000, false;
      isVoteInProgress, voteHistory, markedPlayer := false, [], -1;
      isVoteHistoryAllowed, isVoteWatchingAllowed, isTwoVotesEnabled, isRolesDistributed := true, true, false, false;
    }

    // The `set(key)` mutations: each writes its one field and nothing else.

    method SetPlayerId(v: string) modifies this`playerId ensures playerId == v { playerId := v; }
    method SetPlayerSecret(v: string) modifies this`playerSecret ensures playerSecret == Some(v) { playerSecret := Some(v); }
    method SetSpectator(v: bool) modifies this`isSpectator ensures isSpectator == v { isSpectator := v; }
    method SetReconnecting(v: bool) modifies this`isReconnecting ensures isReconnecting == v { isReconnecting := v; }
    method SetPlayerCount(v: int) modifies this`playerCount ensures playerCount == v { playerCount := v; }
    method SetPing(v: int) modifies this`ping ensures ping == v { ping := v; }
    method SetVotingSpeed(v: int) modifies this`votingSpeed ensures votingSpeed == v { votingSpeed := v; }
    method SetVoteInProgress(v: bool) modifies this`isVoteInProgress ensures isVoteInProgress == v { isVoteInProgress := v; }
    method SetMarkedPlayer(v: int) modifies this`markedPlayer ensures markedPlayer == v { markedPlayer := v; }
    method SetNomination(v: Option<Seats>) modifies this`nomination ensures nomination == v { nomination := v; }
    method SetAllowSelfNaming(v: bool) modifies this`allowSelfNaming ensures allowSelfNaming == v { allowSelfNaming := v; }
    method SetVoteHistoryAllowed(v: bool) modifies this`isVoteHistoryAllowed ensures isVoteHistoryAllowed == v { isVoteHistoryAllowed := v; }
    method SetVoteWatchingAllowed(v: bool) modifies this`isVoteWatchingAllowed ensures isVoteWatchingAllowed == v { isVoteWatchingAllowed := v; }
    method SetTwoVotesEnabled(v: bool) modifies this`isTwoVotesEnabled ensures isTwoVotesEnabled == v { isTwoVotesEnabled := v; }
    method ClaimSeat(v: int) modifies this`claimedSeat ensures claimedSeat == v { claimedSeat := v; }
    method DistributeRoles(v: bool) modifies this`isRolesDistributed ensures isRolesDistributed == v { isRolesDistributed := v; }

    method SetSessionId(raw: string)
      modifies this`sessionId
      ensures sessionId == NormalizeSessionId(raw)
    {
      sessionId := NormalizeSessionId(raw);
    }

    /** Start or end a nomination: missing or falsy fields fall back to their
        defaults, except the voting speed, which then keeps its value. */
    method Nomination(payload: NominationPayload)
      modifies this`nomination, this`votes, this`votingSpeed, this`lockedVote, this`isVoteInProgress
      ensures nomination == payload.nomination
      ensures votes == payload.votes.GetOr([])
      ensures votingSpeed == if payload.votingSpeed.GetOr(0) == 0 then old(votingSpeed) else payload.votingSpeed.value
      ensures lockedVote == payload.lockedVote.GetOr(0)
      ensures isVoteInProgress == payload.isVoteInProgress.GetOr(false)
    {
      nomination := payload.nomination;
      votes := payload.votes.GetOr([]);
      var speed := payload.votingSpeed.GetOr(0);
      votingSpeed := if speed != 0 then speed else votingSpeed;
      lockedVote := payload.lockedVote.GetOr(0);
      isVoteInProgress := payload.isVoteInProgress.GetOr(false);
    }

    /** `vote` and `voteSync`: outside a nomination nothing happens; otherwise
        the seat's vote is set, or toggled when no vote is given. */
    method HandleVote(index: nat, vote: Option<int>)
      modifies this`votes
      ensures nomination.None? ==> votes == old(votes)
      ensures nomination.Some? ==>
                votes == WithVote(old(votes), index,
                                  if vote.Some? then Votes(vote.value) else Toggle(SlotAt(old(votes), index)))
    {
      if nomination.None? {
        return;
      }
      var slot := if vote.Some? then Votes(vote.value) else Toggle(SlotAt(votes, index));
      votes := WithVote(votes, index, slot);
    }

    /** The vote is recorded only when history is visible to this client, a
        nomination is on and every seat has been locked. */
    predicate RecordsHistory(players: seq<Player>)
      reads this
    {
      !(!isVoteHistoryAllowed && isSpectator) && nomination.Some? && lockedVote > |players|
    }

    /** Append the finished vote to the history.  `threw` is set when a
        nominated seat does not exist (the source then throws before pushing). */
    method AddHistory(players: seq<Player>) returns (threw: bool)
      modifies this`voteHistory
      ensures !RecordsHistory(players) ==> !threw && voteHistory == old(voteHistory)
      ensures RecordsHistory(players) ==>
                (threw <==> nomination.value.nominator >= |players| || nomination.value.nominee >= |players|)
      ensures threw ==> voteHistory == old(voteHistory)
      ensures RecordsHistory(players) && !threw ==>
                voteHistory == old(voteHistory) + [HistoryEntry(nomination.value, players, votes)]
    {
      threw := false;
      if !isVoteHistoryAllowed && isSpectator {
        return;
      }
      if nomination.None? || lockedVote <= |players| {
        return;
      }
      var seats := nomination.value;
      if seats.nominee >= |players| {
        return true;
      }
      var isExile := players[seats.nominee].team == Traveller;
      var names := CollectVotes(players, votes);
      if seats.nominator >= |players| {
        return true;
      }
      var entry := VoteRecord(players[seats.nominator].name, players[seats.nominee].name,
                              if isExile then Exile else Execution,
                              Majority(Voters(players, isExile)), names);
      voteHistory := voteHistory + [entry];
    }

    method ClearVoteHistory()
      modifies this`voteHistory
      ensures voteHistory == []
    {
      voteHistory := [];
    }

    /** Lock the given number of seats, or one more seat when none is given. */
    method LockVote(lock: Option<int>)
      modifies this`lockedVote
      ensures lock.Some? ==> lockedVote == lock.value
      ensures lock.None? ==> lockedVote == old(lockedVote) + 1
    {
      lockedVote := if lock.Some? then lock.value else lockedVote + 1;
    }
  }
}
