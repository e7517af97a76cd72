/** A whole draft, end to end: from `startRound` with both lanes held, the player
    selects a plant and confirms, once per step. With ordinary choices (not the bonus
    item, and allowed by `canPick` at each pick step) the state machine follows the
    generated sequence step by step. Every choice lands in the list of the player and
    action the sequence names. After the twentieth confirmation the draft is
    positioning, with five bans and five picks for each player. */
module DraftWalk {
  import opened Common
  import opened BpRules
  import opened Validators
  import opened Draft

  /** The UI putting a plant in the selection slot (`currentRound.selectedPlant = id`). */
  function Select(m: MatchState, plantId: PlantId): MatchState {
    m.(currentRound := m.currentRound.(selectedPlant := Some(plantId)))
  }

  /** The state after selecting and confirming each of `choices` in turn. */
  function Walk(m: MatchState, choices: seq<PlantId>): MatchState
    decreases |choices|
  {
    if choices == [] then m
    else
      var n := |choices| - 1;
      Confirm(Select(Walk(m, choices[..n]), choices[n]))
  }

  /** An ordinary choice: a real id, not the bonus item, and one `canPick` allows when
      the current step is a pick. */
  predicate Admissible(m: MatchState, plantId: PlantId) {
    && plantId != "" && plantId != PUMPKIN
    && (m.currentRound.action == Some(Pick) && m.currentRound.currentPlayer.Some? ==>
          CanPick(plantId, m.currentRound.currentPlayer.value, View(m)).Allowed?)
  }

  /** Every choice is ordinary in the state it is made in. */
  predicate AllAdmissible(m: MatchState, choices: seq<PlantId>)
    decreases |choices|
  {
    choices == [] ||
    (AllAdmissible(m, choices[..|choices| - 1]) &&
     Admissible(Walk(m, choices[..|choices| - 1]), choices[|choices| - 1]))
  }

  /** The choices made at the steps of `flat` that belong to player `p` and action `a`,
      in order. */
  function Assigned(choices: seq<PlantId>, flat: seq<Step>, p: Player, a: Action): seq<PlantId>
    requires |choices| <= |flat|
    decreases |choices|
  {
    if choices == [] then []
    else
      var n := |choices| - 1;
      Assigned(choices[..n], flat, p, a) + (if flat[n].player == p && flat[n].action == a then [choices[n]] else [])
  }

  /** There are as many such choices as steps of that player and action among the
      first `|choices|` steps. */
  lemma {:induction false} AssignedCount(choices: seq<PlantId>, flat: seq<Step>, p: Player, a: Action)
    requires |choices| <= |flat|
    ensures |Assigned(choices, flat, p, a)| == CountSteps(flat[..|choices|], p, a)
  {
    if choices != [] {
      var n := |choices| - 1;
      AssignedCount(choices[..n], flat, p, a);
      assert flat[..|choices|][..n] == flat[..n];
    }
  }

  /** The choice appended to the list of the current step's player and action, and the
      selection cleared. */
  function Appended(m: MatchState, plantId: PlantId): MatchState
    requires CursorValid(m.currentRound) && GetTotalSteps(m.currentRound.bpSequence) > 0
  {
    var r := m.currentRound;
    var s := Flatten(r.bpSequence)[r.step];
    if s.action == Ban then WithBan(Select(m, plantId), s.player, plantId)
    else WithPick(Select(m, plantId), s.player, plantId)
  }

  /** The cursor's validity depends only on the sequence and the cursor fields. */
  lemma CursorValidFrame(r: Round, r': Round)
    requires r'.bpSequence == r.bpSequence && r'.step == r.step && r'.stage == r.stage
    requires r'.currentPlayer == r.currentPlayer && r'.action == r.action && r'.pickCount == r.pickCount
    requires CursorValid(r)
    ensures CursorValid(r')
  {
  }

  /** An ordinary confirmation at a valid cursor with no bonus window open appends the
      choice for the step's player and action and then advances once. */
  lemma ConfirmIsAdvance(m: MatchState, plantId: PlantId)
    requires CursorValid(m.currentRound) && GetTotalSteps(m.currentRound.bpSequence) > 0
    requires m.currentRound.extraPick.None?
    requires Admissible(m, plantId)
    ensures Confirm(Select(m, plantId)) == Advance(Appended(m, plantId))
    ensures CursorValid(Appended(m, plantId).currentRound)
  {
    var ms := Select(m, plantId);
    var r := m.currentRound;
    var s := Flatten(r.bpSequence)[r.step];
    assert ms.currentRound.currentPlayer == Some(s.player);
    assert ms.currentRound.action == Some(s.action);
    if s.action == Pick {
      assert View(ms) == View(m);
    }
    CursorValidFrame(r, Appended(m, plantId).currentRound);
  }

  /** One ordinary confirmation at a valid cursor with no bonus window open: the choice
      goes to the list of the step's player and action, the selection is cleared, and
      the cursor moves to the next step, or at the last step the draft goes to
      positioning. Apart from the cursor and the status, nothing else changes. */
  lemma ConfirmStep(m: MatchState, plantId: PlantId)
    requires CursorValid(m.currentRound) && GetTotalSteps(m.currentRound.bpSequence) > 0
    requires m.currentRound.extraPick.None?
    requires Admissible(m, plantId)
    ensures var m', r := Confirm(Select(m, plantId)), m.currentRound;
      var r', s := m'.currentRound, Flatten(r.bpSequence)[r.step];
      && r'.bans == (if s.action == Ban then r.bans.Set(s.player, r.bans.Get(s.player) + [plantId]) else r.bans)
      && r'.picks == (if s.action == Pick then r.picks.Set(s.player, r.picks.Get(s.player) + [plantId]) else r.picks)
      && r'.extraPick.None? && r'.selectedPlant.None? && r'.bpSequence == r.bpSequence
      && m'.globalBans == m.globalBans && m'.plantUsage == m.plantUsage
      && m'.player1 == m.player1 && m'.player2 == m.player2
      && m'.firstPlayer == m.firstPlayer && m'.roundWinner == m.roundWinner
      && r'.roundNumber == r.roundNumber && r'.positions == r.positions
      && r'.isRoundComplete == r.isRoundComplete
      && (r.step + 1 < GetTotalSteps(r.bpSequence) ==>
            r'.step == r.step + 1 && CursorValid(r') && m'.gameStatus == Banning)
      && (r.step + 1 >= GetTotalSteps(r.bpSequence) ==>
            r'.step == r.step && m'.gameStatus == Positioning)
  {
    var ma := Appended(m, plantId);
    ConfirmIsAdvance(m, plantId);
    AdvanceEffect(ma);
    AdvanceKeepsCursorValid(ma);
  }

  /** A round that has just started on a 20-step sequence: step 0 located, no bans,
      picks, selection or bonus window yet. */
  predicate RoundOpen(m0: MatchState) {
    var r := m0.currentRound;
    && GetTotalSteps(r.bpSequence) == 20 && CursorValid(r) && r.step == 0
    && r.bans == PerPlayer([], []) && r.picks == PerPlayer([], [])
    && r.selectedPlant.None? && r.extraPick.None? && m0.gameStatus == Banning
  }

  /** `startRound` with both lanes held opens such a round. */
  lemma StartRoundOpens(m: MatchState, n: nat)
    requires Road2Player(m).Some? && Road4Player(m).Some?
    ensures RoundOpen(StartRound(m, n))
  {
    StartRoundEffect(m, n);
  }

  /** What `k` ordinary confirmations from an open round leave: each player's bans and
      picks are the choices made at that player's ban and pick steps, no selection or
      bonus window is left, the match outside the round is untouched, and the cursor
      stands at step `k`, or, after the last step, the draft is positioning. */
  predicate Walked(m0: MatchState, w: MatchState, choices: seq<PlantId>)
    requires |choices| <= |Flatten(m0.currentRound.bpSequence)|
  {
    var flat, k := Flatten(m0.currentRound.bpSequence), |choices|;
    && w.currentRound.bpSequence == m0.currentRound.bpSequence
    && w.currentRound.bans == PerPlayer(Assigned(choices, flat, Player1, Ban), Assigned(choices, flat, Player2, Ban))
    && w.currentRound.picks == PerPlayer(Assigned(choices, flat, Player1, Pick), Assigned(choices, flat, Player2, Pick))
    && w.currentRound.extraPick.None? && w.currentRound.selectedPlant.None?
    && w.globalBans == m0.globalBans && w.plantUsage == m0.plantUsage
    && w.player1 == m0.player1 && w.player2 == m0.player2
    && (k < |flat| ==> w.currentRound.step == k && CursorValid(w.currentRound) && w.gameStatus == Banning)
    && (k == |flat| ==> w.currentRound.step == k - 1 && w.gameStatus == Positioning)
  }

  /** An open round is where a walk starts. */
  lemma WalkedStart(m0: MatchState)
    requires RoundOpen(m0)
    ensures |Flatten(m0.currentRound.bpSequence)| == 20
    ensures Walked(m0, m0, [])
  {
  }

  /** One more ordinary confirmation extends the description by one step. */
  lemma WalkedStep(m0: MatchState, w: MatchState, prev: seq<PlantId>, plantId: PlantId)
    requires |Flatten(m0.currentRound.bpSequence)| == 20 && |prev| < 20
    requires Walked(m0, w, prev)
    requires Admissible(w, plantId)
    ensures Walked(m0, Confirm(Select(w, plantId)), prev + [plantId])
  {
    var flat := Flatten(m0.currentRound.bpSequence);
    assert w.currentRound.step == |prev| && flat == Flatten(w.currentRound.bpSequence);
    ConfirmStep(w, plantId);
    var choices := prev + [plantId];
    assert choices[..|prev|] == prev;
    assert choices[|prev|] == plantId;
    var s := flat[|prev|];
    var r, r' := w.currentRound, Confirm(Select(w, plantId)).currentRound;
    var bans1, bans2 := Assigned(choices, flat, Player1, Ban), Assigned(choices, flat, Player2, Ban);
    var picks1, picks2 := Assigned(choices, flat, Player1, Pick), Assigned(choices, flat, Player2, Pick);
    if s.player == Player1 {
      assert bans1 == r.bans.player1 + (if s.action == Ban then [plantId] else []);
      assert picks1 == r.picks.player1 + (if s.action == Pick then [plantId] else []);
      assert bans2 == Assigned(prev, flat, Player2, Ban) + [];
      assert picks2 == Assigned(prev, flat, Player2, Pick) + [];
      assert r'.bans.player1 == bans1 && r'.bans.player2 == bans2;
      assert r'.picks.player1 == picks1 && r'.picks.player2 == picks2;
    } else {
      assert bans2 == r.bans.player2 + (if s.action == Ban then [plantId] else []);
      assert picks2 == r.picks.player2 + (if s.action == Pick then [plantId] else []);
      assert bans1 == Assigned(prev, flat, Player1, Ban) + [];
      assert picks1 == Assigned(prev, flat, Player1, Pick) + [];
      assert r'.bans.player1 == bans1 && r'.bans.player2 == bans2;
      assert r'.picks.player1 == picks1 && r'.picks.player2 == picks2;
    }
    assert r'.bans == PerPlayer(bans1, bans2);
    assert r'.picks == PerPlayer(picks1, picks2);
  }

  /** Every ordinary walk of at most 20 steps from an open round is described by
      `Walked`. */
  lemma {:induction false} WalkInvariant(m0: MatchState, choices: seq<PlantId>)
    requires RoundOpen(m0)
    requires |choices| <= 20
    requires AllAdmissible(m0, choices)
    ensures |Flatten(m0.currentRound.bpSequence)| == 20
    ensures Walked(m0, Walk(m0, choices), choices)
  {
    WalkedStart(m0);
    if choices != [] {
      var k := |choices| - 1;
      var prev := choices[..k];
      WalkInvariant(m0, prev);
      assert choices == prev + [choices[k]];
      WalkedStep(m0, Walk(m0, prev), prev, choices[k]);
    }
  }

  /** After `k` ordinary confirmations from the start of a round with both lanes held,
      each player holds as many bans and picks as that player has steps of each kind
      among the first `k` steps. */
  lemma WalkCounts(m: MatchState, n: nat, choices: seq<PlantId>, p: Player)
    requires Road2Player(m).Some? && Road4Player(m).Some?
    requires |choices| <= 20
    requires AllAdmissible(StartRound(m, n), choices)
    ensures var m0 := StartRound(m, n);
      var w, flat, k := Walk(m0, choices), Flatten(m0.currentRound.bpSequence), |choices|;
      && |flat| == 20
      && |w.currentRound.bans.Get(p)| == CountSteps(flat[..k], p, Ban)
      && |w.currentRound.picks.Get(p)| == CountSteps(flat[..k], p, Pick)
  {
    var m0 := StartRound(m, n);
    StartRoundOpens(m, n);
    WalkInvariant(m0, choices);
    var flat := Flatten(m0.currentRound.bpSequence);
    AssignedCount(choices, flat, p, Ban);
    AssignedCount(choices, flat, p, Pick);
  }

  /** Twenty ordinary confirmations from the start of a round with both lanes held
      complete the draft: it is positioning, and each player has made exactly five bans
      and five picks. */
  lemma DraftWalkComplete(m: MatchState, n: nat, choices: seq<PlantId>)
    requires Road2Player(m).Some? && Road4Player(m).Some?
    requires |choices| == 20
    requires AllAdmissible(StartRound(m, n), choices)
    ensures var w := Walk(StartRound(m, n), choices);
      && w.gameStatus == Positioning
      && |w.currentRound.bans.player1| == 5 && |w.currentRound.bans.player2| == 5
      && |w.currentRound.picks.player1| == 5 && |w.currentRound.picks.player2| == 5
  {
    var m0 := StartRound(m, n);
    var a, b := Road2Player(m).value, Road4Player(m).value;
    var flat := Flatten(m0.currentRound.bpSequence);
    assert flat == Flatten(GetBPSequence(Some(a), Some(b)));
    assert a != b;
    FivePerPlayer(a, b);
    StartRoundOpens(m, n);
    WalkInvariant(m0, choices);
    assert flat[..20] == flat;
    WalkCounts(m, n, choices, Player1);
    WalkCounts(m, n, choices, Player2);
  }
}
