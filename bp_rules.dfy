/** The ban/pick order of one round (src/utils/bpRules.js): four fixed templates
    written relative to the lanes (road 2 and road 4), turned into concrete steps once
    the players holding the lanes are known. */
module BpRules {
  import opened Common

  datatype Lane = Road2 | Road4
  datatype Action = Ban | Pick

  /** A template entry; `count` is absent in the ban templates. */
  datatype TemplateStep = TemplateStep(lane: Lane, action: Action, count: Option<nat>)

  /** A concrete step of the generated sequence. */
  datatype Step = Step(player: Player, action: Action, count: nat)

  type Stage = seq<Step>
  type BpSequence = seq<Stage>

  const STAGE_1_TEMPLATE: seq<TemplateStep> := [
    TemplateStep(Road2, Ban, None), TemplateStep(Road4, Ban, None),
    TemplateStep(Road2, Ban, None), TemplateStep(Road4, Ban, None)
  ]

  const STAGE_2_TEMPLATE: seq<TemplateStep> := [
    TemplateStep(Road2, Pick, Some(1)), TemplateStep(Road4, Pick, Some(1)),
    TemplateStep(Road4, Pick, Some(1)), TemplateStep(Road2, Pick, Some(1)),
    TemplateStep(Road2, Pick, Some(1)), TemplateStep(Road4, Pick, Some(1))
  ]

  const STAGE_3_TEMPLATE: seq<TemplateStep> := [
    TemplateStep(Road4, Ban, None), TemplateStep(Road2, Ban, None),
    TemplateStep(Road4, Ban, None), TemplateStep(Road2, Ban, None),
    TemplateStep(Road4, Ban, None), TemplateStep(Road2, Ban, None)
  ]

  const STAGE_4_TEMPLATE: seq<TemplateStep> := [
    TemplateStep(Road4, Pick, Some(1)), TemplateStep(Road2, Pick, Some(1)),
    TemplateStep(Road2, Pick, Some(1)), TemplateStep(Road4, Pick, Some(1))
  ]

  const TEMPLATES: seq<seq<TemplateStep>> :=
    [STAGE_1_TEMPLATE, STAGE_2_TEMPLATE, STAGE_3_TEMPLATE, STAGE_4_TEMPLATE]

  /** `step.count || 1`: a missing or zero count becomes 1. */
  function CountOrOne(c: Option<nat>): (n: nat)
    ensures n >= 1
    ensures c.None? || c == Some(0) ==> n == 1
    ensures c.Some? && c.value != 0 ==> n == c.value
  {
    match c
    case None => 1
    case Some(k) => if k == 0 then 1 else k
  }

  function ConvertStep(t: TemplateStep, road2Player: Player, road4Player: Player): Step {
    Step(if t.lane == Road2 then road2Player else road4Player, t.action, CountOrOne(t.count))
  }

  /** `convertTemplate`: the template mapped step by step. */
  function ConvertTemplate(t: seq<TemplateStep>, road2Player: Player, road4Player: Player): (r: Stage)
    ensures |r| == |t|
    ensures forall i :: 0 <= i < |t| ==> r[i] == ConvertStep(t[i], road2Player, road4Player)
  {
    if t == [] then []
    else [ConvertStep(t[0], road2Player, road4Player)] + ConvertTemplate(t[1..], road2Player, road4Player)
  }

  /** `getBPSequence`: with a lane holder missing, four empty stages. */
  function GetBPSequence(road2Player: Option<Player>, road4Player: Option<Player>): (r: BpSequence)
    ensures |r| == 4
    ensures road2Player.None? || road4Player.None? ==> r == [[], [], [], []]
  {
    if road2Player.None? || road4Player.None? then [[], [], [], []]
    else
      var a, b := road2Player.value, road4Player.value;
      [ConvertTemplate(STAGE_1_TEMPLATE, a, b), ConvertTemplate(STAGE_2_TEMPLATE, a, b),
       ConvertTemplate(STAGE_3_TEMPLATE, a, b), ConvertTemplate(STAGE_4_TEMPLATE, a, b)]
  }

  /** JavaScript's `bpSequence[i]`: undefined outside the array. */
  function StageAt(bp: BpSequence, i: int): Option<Stage> {
    if 0 <= i < |bp| then Some(bp[i]) else None
  }

  /** `getStageStepCount`: `stage?.length || 0`. */
  function GetStageStepCount(stage: Option<Stage>): (n: nat)
    ensures stage.None? ==> n == 0
    ensures stage.Some? ==> n == |stage.value|
  {
    match stage
    case None => 0
    case Some(s) => |s|
  }

  /** `getTotalSteps`: the left fold `reduce((total, stage) => total + stage.length, 0)`. */
  function GetTotalSteps(bp: BpSequence): nat {
    if bp == [] then 0 else GetTotalSteps(bp[..|bp| - 1]) + |bp[|bp| - 1]|
  }

  /** The total is zero exactly when every stage is empty. */
  lemma {:induction false} TotalStepsZero(bp: BpSequence)
    ensures GetTotalSteps(bp) == 0 <==> forall i :: 0 <= i < |bp| ==> bp[i] == []
  {
    if bp != [] {
      var n := |bp| - 1;
      TotalStepsZero(bp[..n]);
      assert forall i :: 0 <= i < n ==> bp[..n][i] == bp[i];
    }
  }

  /** The flattened sequence, the order in which the store walks the steps. */
  function Flatten(bp: BpSequence): (r: seq<Step>)
    ensures |r| == GetTotalSteps(bp)
  {
    if bp == [] then [] else Flatten(bp[..|bp| - 1]) + bp[|bp| - 1]
  }

  /** Number of steps of `s` acted by `p` with action `a`. */
  function CountSteps(s: seq<Step>, p: Player, a: Action): nat {
    if s == [] then 0
    else CountSteps(s[..|s| - 1], p, a) + (if s[|s| - 1].player == p && s[|s| - 1].action == a then 1 else 0)
  }

  // ---------------------------------------------------------------------------
  // Facts about flattening and prefix sums, used by the store's step cursor.

  lemma {:induction false} FlattenAppend(a: BpSequence, b: BpSequence)
    ensures Flatten(a + b) == Flatten(a) + Flatten(b)
    decreases |b|
  {
    if b == [] {
      assert a + b == a;
    } else {
      var b' := b[..|b| - 1];
      assert (a + b)[..|a + b| - 1] == a + b';
      FlattenAppend(a, b');
    }
  }

  lemma TotalStepsSnoc(bp: BpSequence, i: nat)
    requires i < |bp|
    ensures GetTotalSteps(bp[..i + 1]) == GetTotalSteps(bp[..i]) + |bp[i]|
  {
    assert bp[..i + 1][..i] == bp[..i];
  }

  lemma {:induction false} TotalStepsMonotone(bp: BpSequence, i: nat, j: nat)
    requires i <= j <= |bp|
    ensures GetTotalSteps(bp[..i]) <= GetTotalSteps(bp[..j])
    decreases j - i
  {
    if i < j {
      TotalStepsSnoc(bp, j - 1);
      TotalStepsMonotone(bp, i, j - 1);
    }
  }

  /** Step `k` of the flattened sequence lies in stage `i` (0-based). */
  predicate InStage(bp: BpSequence, k: int, i: int) {
    0 <= i < |bp| && GetTotalSteps(bp[..i]) <= k < GetTotalSteps(bp[..i + 1])
  }

  lemma InStageUnique(bp: BpSequence, k: int, i: int, j: int)
    requires InStage(bp, k, i) && InStage(bp, k, j)
    ensures i == j
  {
    if i < j {
      TotalStepsMonotone(bp, i + 1, j);
    } else if j < i {
      TotalStepsMonotone(bp, j + 1, i);
    }
  }

  /** The entry at position `k` of the flattening is entry `k - offset` of its stage. */
  lemma FlattenAt(bp: BpSequence, i: nat, j: nat)
    requires i < |bp| && j < |bp[i]|
    ensures GetTotalSteps(bp[..i]) + j < |Flatten(bp)|
    ensures Flatten(bp)[GetTotalSteps(bp[..i]) + j] == bp[i][j]
  {
    assert bp == bp[..i] + [bp[i]] + bp[i + 1..];
    FlattenAppend(bp[..i] + [bp[i]], bp[i + 1..]);
    FlattenAppend(bp[..i], [bp[i]]);
    assert Flatten([bp[i]]) == bp[i] by {
      assert [bp[i]][..0] == [];
    }
  }

  /** With a lane unheld the sequence has no step at all. */
  lemma NoLaneNoSteps(road2Player: Option<Player>, road4Player: Option<Player>)
    requires road2Player.None? || road4Player.None?
    ensures GetTotalSteps(GetBPSequence(road2Player, road4Player)) == 0
  {
    var e1: BpSequence := [[]];
    var e2: BpSequence := [[], []];
    var e3: BpSequence := [[], [], []];
    var e4: BpSequence := [[], [], [], []];
    assert e1[..0] == [];
    assert e2[..1] == e1;
    assert e3[..2] == e2;
    assert e4[..3] == e3;
  }

  function StageIndexFrom(bp: BpSequence, k: nat, i: nat): (s: nat)
    requires i < |bp| && GetTotalSteps(bp[..i]) <= k < GetTotalSteps(bp)
    ensures InStage(bp, k, s)
    decreases |bp| - i
  {
    assert bp[..|bp|] == bp;
    TotalStepsSnoc(bp, i);
    if k < GetTotalSteps(bp[..i + 1]) then i else StageIndexFrom(bp, k, i + 1)
  }

  /** The (unique) stage holding flattened step `k`. */
  function StageIndex(bp: BpSequence, k: nat): (s: nat)
    requires k < GetTotalSteps(bp)
    ensures InStage(bp, k, s)
  {
    assert bp[..0] == [];
    StageIndexFrom(bp, k, 0)
  }

  // ---------------------------------------------------------------------------
  // Properties of the generated sequence.

  /** Stage lengths 4, 6, 6, 4 and 20 steps in all, with both lane holders known. */
  lemma SequenceShape(a: Player, b: Player)
    ensures var r := GetBPSequence(Some(a), Some(b));
      |r[0]| == 4 && |r[1]| == 6 && |r[2]| == 6 && |r[3]| == 4 &&
      GetTotalSteps(r) == 20 && |Flatten(r)| == 20
  {
    var r := GetBPSequence(Some(a), Some(b));
    assert r[..4] == r;
    TotalStepsSnoc(r, 0);
    TotalStepsSnoc(r, 1);
    TotalStepsSnoc(r, 2);
    TotalStepsSnoc(r, 3);
    assert r[..0] == [];
  }

  /** `getStageStepCount` of each stage: 4, 6, 6, 4, and 0 for a stage that does not exist. */
  lemma StageStepCounts(a: Player, b: Player, i: int)
    ensures var n := GetStageStepCount(StageAt(GetBPSequence(Some(a), Some(b)), i));
      n == (if i == 0 || i == 3 then 4 else if i == 1 || i == 2 then 6 else 0)
  {
    SequenceShape(a, b);
  }

  /** Every step is acted by the road-2 player where the template says road 2 and by
      the road-4 player otherwise; the action and the order are the template's; every
      count is 1. */
  lemma StepsFollowTemplates(a: Player, b: Player, k: nat, i: nat)
    requires k < 4 && i < |TEMPLATES[k]|
    ensures var r := GetBPSequence(Some(a), Some(b));
      i < |r[k]| &&
      r[k][i].player == (if TEMPLATES[k][i].lane == Road2 then a else b) &&
      r[k][i].action == TEMPLATES[k][i].action &&
      r[k][i].count == 1
  {
    var r := GetBPSequence(Some(a), Some(b));
    var t := TEMPLATES[k];
    assert r[k] == ConvertTemplate(t, a, b);
    assert r[k][i] == ConvertStep(t[i], a, b);
    TemplateCounts(k, i);
  }

  /** Every template count is absent or 1. */
  lemma TemplateCounts(k: nat, i: nat)
    requires k < 4 && i < |TEMPLATES[k]|
    ensures TEMPLATES[k][i].count.None? || TEMPLATES[k][i].count == Some(1)
  {
    if k == 0 {
      assert TEMPLATES[k] == STAGE_1_TEMPLATE;
    } else if k == 1 {
      assert TEMPLATES[k] == STAGE_2_TEMPLATE;
    } else if k == 2 {
      assert TEMPLATES[k] == STAGE_3_TEMPLATE;
    } else {
      assert TEMPLATES[k] == STAGE_4_TEMPLATE;
    }
  }

  /** Every step's player is one of the two arguments; stages 1 and 3 only ban and
      stages 2 and 4 only pick. */
  lemma StageActions(a: Player, b: Player, k: nat, i: nat)
    requires k < 4
    ensures var r := GetBPSequence(Some(a), Some(b));
      i < |r[k]| ==>
        (r[k][i].player == a || r[k][i].player == b) &&
        r[k][i].action == (if k == 0 || k == 2 then Ban else Pick)
  {
    var r := GetBPSequence(Some(a), Some(b));
    if i < |r[k]| {
      assert |r[k]| == |TEMPLATES[k]|;
      StepsFollowTemplates(a, b, k, i);
    }
  }

  /** The first step is a road-2 ban; stages 3 and 4 open with the road-4 player. */
  lemma StageOpeners(a: Player, b: Player)
    ensures var r := GetBPSequence(Some(a), Some(b));
      r[0][0] == Step(a, Ban, 1) && r[2][0] == Step(b, Ban, 1) && r[3][0] == Step(b, Pick, 1) &&
      Flatten(r)[0] == Step(a, Ban, 1)
  {
    var r := GetBPSequence(Some(a), Some(b));
    SequenceShape(a, b);
    assert r[..0] == [];
    FlattenAt(r, 0, 0);
  }

  lemma {:induction false} CountStepsAppend(s: seq<Step>, t: seq<Step>, p: Player, a: Action)
    ensures CountSteps(s + t, p, a) == CountSteps(s, p, a) + CountSteps(t, p, a)
    decreases |t|
  {
    if t == [] {
      assert s + t == s;
    } else {
      assert (s + t)[..|s + t| - 1] == s + t[..|t| - 1];
      CountStepsAppend(s, t[..|t| - 1], p, a);
    }
  }

  lemma CountStepsFlatten(r: BpSequence, p: Player, a: Action)
    requires |r| == 4
    ensures CountSteps(Flatten(r), p, a) ==
      CountSteps(r[0], p, a) + CountSteps(r[1], p, a) + CountSteps(r[2], p, a) + CountSteps(r[3], p, a)
  {
    assert r == [r[0]] + [r[1]] + [r[2]] + [r[3]];
    FlattenAppend([r[0]] + [r[1]] + [r[2]], [r[3]]);
    FlattenAppend([r[0]] + [r[1]], [r[2]]);
    FlattenAppend([r[0]], [r[1]]);
    forall k | 0 <= k < 4 ensures Flatten([r[k]]) == r[k] {
      assert [r[k]][..0] == [];
    }
    CountStepsAppend(r[0] + r[1] + r[2], r[3], p, a);
    CountStepsAppend(r[0] + r[1], r[2], p, a);
    CountStepsAppend(r[0], r[1], p, a);
  }

  function Hit(x: Step, p: Player, a: Action): nat {
    if x.player == p && x.action == a then 1 else 0
  }

  lemma CountStepsLast(s: seq<Step>, p: Player, a: Action)
    requires s != []
    ensures CountSteps(s, p, a) == CountSteps(s[..|s| - 1], p, a) + Hit(s[|s| - 1], p, a)
  {
  }

  lemma CountSteps4(s: seq<Step>, p: Player, a: Action)
    requires |s| == 4
    ensures CountSteps(s, p, a) == Hit(s[0], p, a) + Hit(s[1], p, a) + Hit(s[2], p, a) + Hit(s[3], p, a)
  {
    CountStepsLast(s, p, a);
    assert s[..3][..2] == s[..2];
    CountStepsLast(s[..3], p, a);
    assert s[..2][..1] == s[..1];
    CountStepsLast(s[..2], p, a);
    assert s[..1][..0] == [];
    CountStepsLast(s[..1], p, a);
  }

  lemma CountSteps6(s: seq<Step>, p: Player, a: Action)
    requires |s| == 6
    ensures CountSteps(s, p, a) == CountSteps(s[..4], p, a) + Hit(s[4], p, a) + Hit(s[5], p, a)
  {
    CountStepsLast(s, p, a);
    assert s[..5][..4] == s[..4];
    CountStepsLast(s[..5], p, a);
  }

  lemma Stage1WrittenOut(a: Player, b: Player)
    ensures ConvertTemplate(STAGE_1_TEMPLATE, a, b) ==
      [Step(a, Ban, 1), Step(b, Ban, 1), Step(a, Ban, 1), Step(b, Ban, 1)]
  {
    var r := ConvertTemplate(STAGE_1_TEMPLATE, a, b);
    var w := [Step(a, Ban, 1), Step(b, Ban, 1), Step(a, Ban, 1), Step(b, Ban, 1)];
    forall i | 0 <= i < 4 ensures r[i] == w[i] {
      if i == 0 {} else if i == 1 {} else if i == 2 {} else {}
    }
  }

  lemma Stage2WrittenOut(a: Player, b: Player)
    ensures ConvertTemplate(STAGE_2_TEMPLATE, a, b) ==
      [Step(a, Pick, 1), Step(b, Pick, 1), Step(b, Pick, 1), Step(a, Pick, 1), Step(a, Pick, 1), Step(b, Pick, 1)]
  {
    var r := ConvertTemplate(STAGE_2_TEMPLATE, a, b);
    var w := [Step(a, Pick, 1), Step(b, Pick, 1), Step(b, Pick, 1), Step(a, Pick, 1), Step(a, Pick, 1), Step(b, Pick, 1)];
    forall i | 0 <= i < 6 ensures r[i] == w[i] {
      if i == 0 {} else if i == 1 {} else if i == 2 {} else if i == 3 {} else if i == 4 {} else {}
    }
  }

  lemma Stage3WrittenOut(a: Player, b: Player)
    ensures ConvertTemplate(STAGE_3_TEMPLATE, a, b) ==
      [Step(b, Ban, 1), Step(a, Ban, 1), Step(b, Ban, 1), Step(a, Ban, 1), Step(b, Ban, 1), Step(a, Ban, 1)]
  {
    var r := ConvertTemplate(STAGE_3_TEMPLATE, a, b);
    var w := [Step(b, Ban, 1), Step(a, Ban, 1), Step(b, Ban, 1), Step(a, Ban, 1), Step(b, Ban, 1), Step(a, Ban, 1)];
    forall i | 0 <= i < 6 ensures r[i] == w[i] {
      if i == 0 {} else if i == 1 {} else if i == 2 {} else if i == 3 {} else if i == 4 {} else {}
    }
  }

  lemma Stage4WrittenOut(a: Player, b: Player)
    ensures ConvertTemplate(STAGE_4_TEMPLATE, a, b) ==
      [Step(b, Pick, 1), Step(a, Pick, 1), Step(a, Pick, 1), Step(b, Pick, 1)]
  {
    var r := ConvertTemplate(STAGE_4_TEMPLATE, a, b);
    var w := [Step(b, Pick, 1), Step(a, Pick, 1), Step(a, Pick, 1), Step(b, Pick, 1)];
    forall i | 0 <= i < 4 ensures r[i] == w[i] {
      if i == 0 {} else if i == 1 {} else if i == 2 {} else {}
    }
  }

  /** The generated sequence written out, for two given lane holders. */
  lemma SequenceWrittenOut(a: Player, b: Player)
    ensures GetBPSequence(Some(a), Some(b)) == [
      [Step(a, Ban, 1), Step(b, Ban, 1), Step(a, Ban, 1), Step(b, Ban, 1)],
      [Step(a, Pick, 1), Step(b, Pick, 1), Step(b, Pick, 1), Step(a, Pick, 1), Step(a, Pick, 1), Step(b, Pick, 1)],
      [Step(b, Ban, 1), Step(a, Ban, 1), Step(b, Ban, 1), Step(a, Ban, 1), Step(b, Ban, 1), Step(a, Ban, 1)],
      [Step(b, Pick, 1), Step(a, Pick, 1), Step(a, Pick, 1), Step(b, Pick, 1)]
    ]
  {
    Stage1WrittenOut(a, b);
    Stage2WrittenOut(a, b);
    Stage3WrittenOut(a, b);
    Stage4WrittenOut(a, b);
  }

  lemma FiveFor(a: Player, b: Player, p: Player, act: Action)
    requires a != b && (p == a || p == b)
    ensures CountSteps(Flatten(GetBPSequence(Some(a), Some(b))), p, act) == 5
  {
    var r := GetBPSequence(Some(a), Some(b));
    SequenceWrittenOut(a, b);
    CountStepsFlatten(r, p, act);
    CountSteps4(r[0], p, act);
    CountSteps4(r[3], p, act);
    CountSteps6(r[1], p, act);
    CountSteps4(r[1][..4], p, act);
    CountSteps6(r[2], p, act);
    CountSteps4(r[2][..4], p, act);
  }

  /** With distinct lane holders, each player bans 5 times and picks 5 times per round. */
  lemma FivePerPlayer(a: Player, b: Player)
    requires a != b
    ensures var flat := Flatten(GetBPSequence(Some(a), Some(b)));
      CountSteps(flat, a, Ban) == 5 && CountSteps(flat, b, Ban) == 5 &&
      CountSteps(flat, a, Pick) == 5 && CountSteps(flat, b, Pick) == 5
  {
    FiveFor(a, b, a, Ban);
    FiveFor(a, b, b, Ban);
    FiveFor(a, b, a, Pick);
    FiveFor(a, b, b, Pick);
  }
}
