/**
 * The game session: an ordered list of dice, the level (`diceCount`, the
 * number of dice in play), the rolls made on this level and in the whole run,
 * the run's clock, and the best-score record. Rolling starts every die; each
 * frame's update advances every die and, once all have settled showing six,
 * moves to the next level with one more die.
 *
 * The clock is the parameter `now` (whole seconds); the random draws are the
 * parameters `targets`, `faces` and `speeds`.
 */
module Session {
  import opened Die
  import opened Layout
  import opened Scores

  predicate AreSpeeds(speeds: seq<int>) { forall i :: 0 <= i < |speeds| ==> IsSpeed(speeds[i]) }

  predicate AllWellformed(ss: seq<DieState>) { forall i :: 0 <= i < |ss| ==> Wellformed(ss[i]) }

  /** Some die is still rolling. */
  predicate AnyRolling(ss: seq<DieState>) { exists i :: 0 <= i < |ss| && ss[i].rolling }

  /** Every die shows the highest face. */
  predicate AllSixes(ss: seq<DieState>) { forall i :: 0 <= i < |ss| ==> ss[i].value == MaxFace }

  /** The level is won: every die has settled and shows six. */
  predicate LevelWon(ss: seq<DieState>) { !AnyRolling(ss) && AllSixes(ss) }

  /** The dice laid out for level `n`: all settled on 1, each at its place
      in the layout, each with its own drawn speed. */
  function NewDice(n: nat, speeds: seq<int>): (r: seq<DieState>)
    requires |speeds| == n && AreSpeeds(speeds)
    ensures |r| == n && AllWellformed(r)
    ensures !AnyRolling(r)
    ensures n > 0 ==> !AllSixes(r)
    ensures forall k :: 0 <= k < n ==>
              r[k].value == 1 && r[k].speed == speeds[k] &&
              r[k].x == PosX(n, k) && r[k].y == PosY(n, k)
  {
    var r := seq(n, k requires 0 <= k < n => Initial(PosX(n, k), PosY(n, k), speeds[k]));
    assert n > 0 ==> r[0].value != MaxFace;
    r
  }

  /** Every die after `roll` with its drawn target. */
  function RollAll(ss: seq<DieState>, targets: seq<int>): (r: seq<DieState>)
    requires AllWellformed(ss) && |targets| == |ss| && AreFaces(targets)
    ensures |r| == |ss| && AllWellformed(r)
    ensures forall i :: 0 <= i < |r| ==>
              r[i].rolling && r[i].target == targets[i] && r[i].frames == ss[i].speed
    ensures forall i :: 0 <= i < |r| ==>
              r[i].value == ss[i].value && r[i].speed == ss[i].speed &&
              r[i].x == ss[i].x && r[i].y == ss[i].y
    ensures |r| > 0 ==> AnyRolling(r)
  {
    var r := seq(|ss|, i requires 0 <= i < |ss| => Rolled(ss[i], targets[i]));
    assert |r| > 0 ==> r[0].rolling;
    r
  }

  /** Every die after one frame of `update`, with the faces drawn for display. */
  function StepAll(ss: seq<DieState>, faces: seq<int>): (r: seq<DieState>)
    requires AllWellformed(ss) && |faces| == |ss| && AreFaces(faces)
    ensures |r| == |ss| && AllWellformed(r)
    ensures forall i :: 0 <= i < |r| && !ss[i].rolling ==> r[i] == ss[i]
    ensures forall i :: 0 <= i < |r| && ss[i].rolling ==>
              if ss[i].frames > 0 then r[i].rolling && r[i].frames == ss[i].frames - 1
              else !r[i].rolling && r[i].value == ss[i].target
    ensures forall i :: 0 <= i < |r| && ss[i].rolling && ss[i].frames > 0 ==> r[i].value == faces[i]
    ensures forall i :: 0 <= i < |r| && ss[i].rolling && ss[i].frames == 0 ==> r[i].frames == 0
    ensures forall i :: 0 <= i < |r| ==>
              r[i].target == ss[i].target && r[i].speed == ss[i].speed &&
              r[i].x == ss[i].x && r[i].y == ss[i].y
    ensures !AnyRolling(ss) ==> r == ss
  {
    seq(|ss|, i requires 0 <= i < |ss| => Step(ss[i], faces[i]))
  }

  /** A round of faces for every die, frame after frame. */
  predicate AreRounds(rounds: seq<seq<int>>, n: nat)
  {
    forall t :: 0 <= t < |rounds| ==> |rounds[t]| == n && AreFaces(rounds[t])
  }

  /** The faces die `i` is given over the rounds. */
  function Column(rounds: seq<seq<int>>, i: nat): (c: seq<int>)
    requires forall t :: 0 <= t < |rounds| ==> i < |rounds[t]| && IsFace(rounds[t][i])
    ensures |c| == |rounds| && AreFaces(c)
  {
    seq(|rounds|, t requires 0 <= t < |rounds| => rounds[t][i])
  }

  /** The dice after one game update per round, without level changes. */
  function RunAll(ss: seq<DieState>, rounds: seq<seq<int>>): (r: seq<DieState>)
    requires AllWellformed(ss) && AreRounds(rounds, |ss|)
    ensures |r| == |ss| && AllWellformed(r)
    decreases |rounds|
  {
    if rounds == [] then ss else RunAll(StepAll(ss, rounds[0]), rounds[1..])
  }

  /** The dice of a session do not interact: die `i` after the rounds is die
      `i` run on its own faces. */
  lemma {:induction false} RunAllIsPerDie(ss: seq<DieState>, rounds: seq<seq<int>>, i: nat)
    requires AllWellformed(ss) && AreRounds(rounds, |ss|) && i < |ss|
    ensures RunAll(ss, rounds)[i] == Run(ss[i], Column(rounds, i))
    decreases |rounds|
  {
    if rounds != [] {
      var c := Column(rounds, i);
      assert c[0] == rounds[0][i];
      assert c[1..] == Column(rounds[1..], i);
      RunAllIsPerDie(StepAll(ss, rounds[0]), rounds[1..], i);
    }
  }

  /** Whatever the state, after `MaxSpeed + 1` updates no die is rolling any
      more, so the session's rolling flag clears. */
  lemma BoardSettles(ss: seq<DieState>, rounds: seq<seq<int>>)
    requires AllWellformed(ss) && AreRounds(rounds, |ss|) && |rounds| > MaxSpeed
    ensures !AnyRolling(RunAll(ss, rounds))
  {
    forall i | 0 <= i < |ss| ensures !RunAll(ss, rounds)[i].rolling {
      RunAllIsPerDie(ss, rounds, i);
      SettledWithinMaxSpeed(ss[i], Column(rounds, i));
    }
  }

  /** Frames change nothing on a board where no die is rolling. */
  lemma {:induction false} SettledBoardIsFixed(ss: seq<DieState>, rounds: seq<seq<int>>)
    requires AllWellformed(ss) && AreRounds(rounds, |ss|) && !AnyRolling(ss)
    ensures RunAll(ss, rounds) == ss
    decreases |rounds|
  {
    if rounds != [] {
      SettledBoardIsFixed(StepAll(ss, rounds[0]), rounds[1..]);
    }
  }

  /** The dice of a new level stay as they are, however many frames pass
      until the next roll, and they cannot win the level: at most one
      level-up happens per roll. */
  lemma {:induction false} NewLevelIsQuiet(n: nat, speeds: seq<int>, rounds: seq<seq<int>>)
    requires 0 < n && |speeds| == n && AreSpeeds(speeds) && AreRounds(rounds, n)
    ensures RunAll(NewDice(n, speeds), rounds) == NewDice(n, speeds)
    ensures !LevelWon(RunAll(NewDice(n, speeds), rounds))
  {
    SettledBoardIsFixed(NewDice(n, speeds), rounds);
  }

  /** Build up to five dice in one centred row. */
  method LayOutOneRow(n: nat, speeds: seq<int>) returns (ds: seq<Dice>)
    requires n <= DicePerRow && |speeds| == n && AreSpeeds(speeds)
    ensures |ds| == n
    ensures forall k :: 0 <= k < n ==> fresh(ds[k])
    ensures forall a, b :: 0 <= a < b < n ==> ds[a] != ds[b]
    ensures forall k :: 0 <= k < n ==> ds[k].State() == Initial(PosX(n, k), PosY(n, k), speeds[k])
  {
    ds := [];
    var totalWidth := n * DiceSize + (n - 1) * DiceMargin;
    var startX := (ScreenWidth - totalWidth) / 2;
    var i := 0;
    while i < n
      invariant 0 <= i <= n && |ds| == i
      invariant forall k :: 0 <= k < i ==> fresh(ds[k])
      invariant forall a, b :: 0 <= a < b < i ==> ds[a] != ds[b]
      invariant forall k :: 0 <= k < i ==> ds[k].State() == Initial(PosX(n, k), PosY(n, k), speeds[k])
    {
      var x := startX + i * (DiceSize + DiceMargin);
      var y := ScreenHeight / 2 - DiceSize / 2 - 50;
      SingleRow(n, i);
      var d := new Dice(x, y, speeds[i]);
      ds := ds + [d];
      i := i + 1;
    }
  }

  /** Build more than five dice in centred rows of five, the last row holding
      the remainder. */
  method LayOutRows(n: nat, speeds: seq<int>) returns (ds: seq<Dice>)
    requires DicePerRow < n && |speeds| == n && AreSpeeds(speeds)
    ensures |ds| == n
    ensures forall k :: 0 <= k < n ==> fresh(ds[k])
    ensures forall a, b :: 0 <= a < b < n ==> ds[a] != ds[b]
    ensures forall k :: 0 <= k < n ==> ds[k].State() == Initial(PosX(n, k), PosY(n, k), speeds[k])
  {
    ds := [];
    var dicePerRow := DicePerRow;
    var rows := (n + dicePerRow - 1) / dicePerRow;
    var row := 0;
    while row < rows
      invariant 0 <= row <= rows && |ds| == Min(row * dicePerRow, n)
      invariant forall k :: 0 <= k < |ds| ==> fresh(ds[k])
      invariant forall a, b :: 0 <= a < b < |ds| ==> ds[a] != ds[b]
      invariant forall k :: 0 <= k < |ds| ==> ds[k].State() == Initial(PosX(n, k), PosY(n, k), speeds[k])
    {
      var diceInThisRow := Min(dicePerRow, n - row * dicePerRow);
      var totalWidth := diceInThisRow * DiceSize + (diceInThisRow - 1) * DiceMargin;
      var startX := (ScreenWidth - totalWidth) / 2;
      var i := 0;
      while i < diceInThisRow
        invariant 0 <= i <= diceInThisRow && |ds| == row * dicePerRow + i
        invariant forall k :: 0 <= k < |ds| ==> fresh(ds[k])
        invariant forall a, b :: 0 <= a < b < |ds| ==> ds[a] != ds[b]
        invariant forall k :: 0 <= k < |ds| ==> ds[k].State() == Initial(PosX(n, k), PosY(n, k), speeds[k])
      {
        var x := startX + i * (DiceSize + DiceMargin);
        var y := ScreenHeight / 2 - DiceSize / 2 - 50 * rows + row * (DiceSize + DiceMargin);
        SlotIndex(row, i);
        var d := new Dice(x, y, speeds[row * dicePerRow + i]);
        ds := ds + [d];
        i := i + 1;
      }
      row := row + 1;
    }
  }

  /** A game session. */
  class Game {
    var diceCount: int
    var dice: seq<Dice>
    var isRolling: bool
    var rollCount: int
    var totalRolls: int
    var startTime: int
    var gameTime: int
    var bestTime: Option<int>
    var bestRolls: Option<int>

    /** The dice as values, in order. */
    ghost function States(): seq<DieState>
      reads this`dice, dice
    {
      var ds := dice;
      seq(|ds|, i requires 0 <= i < |ds| reads ds => ds[i].State())
    }

    /** No die object appears twice in the list. */
    ghost predicate Distinct()
      reads this`dice
    {
      forall a, b :: 0 <= a < b < |dice| ==> dice[a] != dice[b]
    }

    /** The session invariant: one die per level, every die well formed, no
        die rolling while the session believes nothing rolls, and never more
        rolls on this level than in the whole run. */
    ghost predicate Valid()
      reads this, dice
    {
      1 <= diceCount && |dice| == diceCount && Distinct() &&
      AllWellformed(States()) &&
      (!isRolling ==> !AnyRolling(States())) &&
      0 <= rollCount <= totalRolls
    }

    /** A new session at level 1 started at `now`, with the record read
        from storage. */
    constructor (now: int, savedTime: Option<int>, savedRolls: Option<int>, speeds: seq<int>)
      requires |speeds| == 1 && AreSpeeds(speeds)
      ensures Valid()
      ensures diceCount == 1 && rollCount == 0 && totalRolls == 0 && !isRolling
      ensures startTime == now && gameTime == 0
      ensures bestTime == savedTime && bestRolls == savedRolls
      ensures States() == NewDice(1, speeds)
      ensures forall i :: 0 <= i < |dice| ==> fresh(dice[i])
    {
      diceCount := 1;
      dice := [];
      isRolling := false;
      rollCount := 0;
      totalRolls := 0;
      startTime := now;
      gameTime := 0;
      bestTime := savedTime;
      bestRolls := savedRolls;
      new;
      ResetDice(speeds);
    }

    /** Replace the dice by a fresh layout for the current level: one row
        for up to five dice, rows of five otherwise. */
    method ResetDice(speeds: seq<int>)
      requires 0 <= diceCount && |speeds| == diceCount && AreSpeeds(speeds)
      modifies this`dice
      ensures |dice| == diceCount && Distinct()
      ensures forall i :: 0 <= i < |dice| ==> fresh(dice[i])
      ensures States() == NewDice(diceCount, speeds)
    {
      var ds: seq<Dice>;
      if diceCount <= DicePerRow {
        ds := LayOutOneRow(diceCount, speeds);
      } else {
        ds := LayOutRows(diceCount, speeds);
      }
      dice := ds;
    }

    /** Roll every die with its drawn target, unless a roll is still animating. */
    method RollDice(targets: seq<int>)
      requires Valid() && |targets| == |dice| && AreFaces(targets)
      modifies this, dice
      ensures Valid() && dice == old(dice) && isRolling
      ensures old(isRolling) ==>
                rollCount == old(rollCount) && totalRolls == old(totalRolls) &&
                States() == old(States())
      ensures !old(isRolling) ==>
                rollCount == old(rollCount) + 1 && totalRolls == old(totalRolls) + 1 &&
                States() == RollAll(old(States()), targets)
      ensures diceCount == old(diceCount) && startTime == old(startTime) &&
              gameTime == old(gameTime) && bestTime == old(bestTime) && bestRolls == old(bestRolls)
    {
      if !isRolling {
        isRolling := true;
        rollCount := rollCount + 1;
        totalRolls := totalRolls + 1;
        ghost var before := old(States());
        var i := 0;
        while i < |dice|
          modifies dice
          invariant 0 <= i <= |dice|
          invariant forall j :: 0 <= j < i ==> dice[j].State() == Rolled(before[j], targets[j])
          invariant forall j :: i <= j < |dice| ==> dice[j].State() == before[j]
        {
          dice[i].Roll(targets[i]);
          i := i + 1;
        }
        assert States() == RollAll(before, targets);
      }
    }

    /** The per-die part of one frame: update every die in order and report
        whether any of them is still rolling. */
    method AdvanceDice(faces: seq<int>) returns (rolling: bool)
      requires Distinct() && AllWellformed(States()) && |faces| == |dice| && AreFaces(faces)
      modifies dice
      ensures States() == StepAll(old(States()), faces)
      ensures rolling == AnyRolling(States())
    {
      ghost var before := States();
      rolling := false;
      var i := 0;
      while i < |dice|
        invariant 0 <= i <= |dice|
        invariant forall j :: 0 <= j < i ==> dice[j].State() == Step(before[j], faces[j])
        invariant forall j :: i <= j < |dice| ==> dice[j].State() == before[j]
        invariant rolling == exists j :: 0 <= j < i && dice[j].isRolling
      {
        dice[i].Update(faces[i]);
        if dice[i].isRolling {
          rolling := true;
        }
        i := i + 1;
      }
      assert States() == StepAll(before, faces);
    }

    /** One frame: advance every die, recompute the rolling flag, level up when
        every die has settled on six, and refresh the elapsed time. */
    method Update(faces: seq<int>, speeds: seq<int>, now: int)
      requires Valid() && |faces| == |dice| && AreFaces(faces)
      requires |speeds| == diceCount + 1 && AreSpeeds(speeds)
      modifies this, dice
      ensures Valid()
      ensures isRolling == AnyRolling(StepAll(old(States()), faces))
      ensures LevelWon(StepAll(old(States()), faces)) ==>
                diceCount == old(diceCount) + 1 && rollCount == 0 &&
                States() == NewDice(diceCount, speeds) &&
                forall i :: 0 <= i < |dice| ==> fresh(dice[i])
      ensures !LevelWon(StepAll(old(States()), faces)) ==>
                diceCount == old(diceCount) && rollCount == old(rollCount) &&
                dice == old(dice) && States() == StepAll(old(States()), faces)
      ensures totalRolls == old(totalRolls) && startTime == old(startTime)
      ensures bestTime == old(bestTime) && bestRolls == old(bestRolls)
      ensures gameTime == now - startTime
    {
      var rolling := AdvanceDice(faces);
      isRolling := rolling;
      if !isRolling {
        var allSixes := forall j :: 0 <= j < |dice| ==> dice[j].value == MaxFace;
        assert allSixes == AllSixes(States()) by {
          assert forall j :: 0 <= j < |dice| ==> States()[j].value == dice[j].value;
        }
        if allSixes {
          diceCount := diceCount + 1;
          ResetDice(speeds);
          rollCount := 0;
        }
      }
      gameTime := now - startTime;
    }

    /** Record the run if it reached level 2 and beats the record, then start
        a new run at level 1 at time `now`. */
    method Restart(now: int, speeds: seq<int>)
      requires Valid() && |speeds| == 1 && AreSpeeds(speeds)
      modifies this
      ensures Valid()
      ensures bestTime == Improved(old(bestTime), old(gameTime), old(diceCount) > 1)
      ensures bestRolls == Improved(old(bestRolls), old(totalRolls), old(diceCount) > 1)
      ensures AtMost(bestTime, old(bestTime)) && AtMost(bestRolls, old(bestRolls))
      ensures diceCount == 1 && rollCount == 0 && totalRolls == 0 && startTime == now
      ensures isRolling == old(isRolling) && gameTime == old(gameTime)
      ensures States() == NewDice(1, speeds)
      ensures forall i :: 0 <= i < |dice| ==> fresh(dice[i])
    {
      if diceCount > 1 && Below(gameTime, bestTime) {
        bestTime := Some(gameTime);
      }
      if diceCount > 1 && Below(totalRolls, bestRolls) {
        bestRolls := Some(totalRolls);
      }
      diceCount := 1;
      rollCount := 0;
      totalRolls := 0;
      startTime := now;
      ResetDice(speeds);
    }
  }
}
