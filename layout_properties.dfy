/** What the emitted instruction sequence is made of, turn by turn. */
module LayoutProperties {
  import opened Wrappers
  import opened Parameters
  import opened Path
  import opened Layout

  lemma {:induction false} SelectAppend(a: seq<Instr>, b: seq<Instr>, keep: Instr -> bool)
    ensures Select(a + b, keep) == Select(a, keep) + Select(b, keep)
  {
    if a == [] {
      assert a + b == b;
    } else {
      var head := if keep(a[0]) then [a[0]] else [];
      calc {
        Select(a + b, keep);
        { assert (a + b)[0] == a[0]; assert (a + b)[1..] == a[1..] + b; }
        head + Select(a[1..] + b, keep);
        { SelectAppend(a[1..], b, keep); }
        head + (Select(a[1..], keep) + Select(b, keep));
      }
    }
  }

  /** Pass `i` of the loop occupies positions 9i .. 9i+8 of the spiral. */
  lemma {:induction false} SpiralTurn(p: Params, k: nat, i: nat)
    requires i < k
    ensures Spiral(p, k)[9 * i .. 9 * i + 9] == TurnInstrs(p, i)
  {
    if i < k - 1 {
      SpiralTurn(p, k - 1, i);
      assert Spiral(p, k) == Spiral(p, k - 1) + TurnInstrs(p, k - 1);
    }
  }

  /** Pass `i` of the loop occupies positions 4+9i .. 12+9i of the whole sequence. */
  lemma InstructionsTurn(p: Params, i: nat)
    requires i < TurnCount(p)
    ensures Instructions(p)[4 + 9 * i .. 13 + 9 * i] == TurnInstrs(p, i)
  {
    var n := TurnCount(p);
    SpiralTurn(p, n, i);
    var s := Instructions(p);
    assert s == Prologue(p) + Spiral(p, n) + Epilogue(p);
    assert s[4 + 9 * i .. 13 + 9 * i] == Spiral(p, n)[9 * i .. 9 * i + 9];
  }

  /**
   * In pass `i` the four legs and the bends between them are as written out
   * here: every bend is a clockwise quarter turn of radius `spiralRadius`.
   */
  lemma TurnLegs(p: Params, i: nat)
    requires i < TurnCount(p)
    ensures var s, b, f, r := Instructions(p), 4 + 9 * i, p.spiralFactor, p.spiralRadius;
      && s[b] == Straight(p.baseWidth / 2.0 + (i + 1) as real * f - (i + 1) as real * r, None)
      && s[b + 2] == Straight(p.baseLength + (2 * i + 2) as real * f, None)
      && s[b + 4] == Straight(p.baseWidth + (2 * i + 2) as real * f, None)
      && s[b + 6] == Straight(p.baseLength + (2 * i + 3) as real * f, None)
      && s[b + 1] == s[b + 3] == s[b + 5] == s[b + 7] == Bend(-1, r)
  {
    InstructionsTurn(p, i);
    var s, b, t := Instructions(p), 4 + 9 * i, TurnInstrs(p, i);
    var f, r := p.spiralFactor, p.spiralRadius;
    assert s[b] == t[0] == Straight(FirstRun(p, i), None);
    assert FirstRun(p, i) == p.baseWidth / 2.0 + (i + 1) as real * f - (i + 1) as real * r;
    assert s[b + 2] == t[2] == Straight(SecondRun(p, i), None);
    assert SecondRun(p, i) == p.baseLength + (2 * i + 2) as real * f;
    assert s[b + 4] == t[4] == Straight(ThirdRun(p, i), None);
    assert ThirdRun(p, i) == p.baseWidth + (2 * i + 2) as real * f;
    assert s[b + 6] == t[6] == Straight(FourthRun(p, i), None);
    assert FourthRun(p, i) == p.baseLength + (2 * i + 3) as real * f;
    assert s[b + 1] == t[1] && s[b + 3] == t[3] && s[b + 5] == t[5] && s[b + 7] == t[7];
  }

  /**
   * From one pass to the next, the second, third and fourth legs each grow by
   * exactly twice the spiral factor; the first leg grows by the factor less
   * the radius.
   */
  lemma LegGrowth(p: Params, i: nat)
    requires i + 1 < TurnCount(p)
    ensures var s, b, f := Instructions(p), 4 + 9 * i, p.spiralFactor;
      && s[b].Straight? && s[b + 2].Straight? && s[b + 4].Straight? && s[b + 6].Straight?
      && s[b + 9].Straight? && s[b + 11].Straight? && s[b + 13].Straight? && s[b + 15].Straight?
      && s[b + 9].length == s[b].length + f - p.spiralRadius
      && s[b + 11].length == s[b + 2].length + 2.0 * f
      && s[b + 13].length == s[b + 4].length + 2.0 * f
      && s[b + 15].length == s[b + 6].length + 2.0 * f
  {
    TurnLegs(p, i);
    TurnLegs(p, i + 1);
  }

  /**
   * The closing run of pass `i`: it keeps growing unless this is the last
   * pass and `spiralN` is a whole number. When `spiralN` has a fractional
   * part, the last pass also takes the growing branch, since `i + 1` is
   * compared with `spiralN` and not with its truncation.
   */
  lemma ClosingRuns(p: Params, i: nat)
    requires i < TurnCount(p)
    ensures var s, n, f, r := Instructions(p), TurnCount(p), p.spiralFactor, p.spiralRadius;
      s[4 + 9 * i + 8] ==
        if i + 1 < n || p.spiralN != n as real then
          Straight(p.baseWidth / 2.0 + (i + 2) as real * r + (i + 1) as real * f, None)
        else
          Straight(p.baseWidth / 2.0 + (i + 1) as real * f - r, None)
  {
    InstructionsTurn(p, i);
    var s, b := Instructions(p), 4 + 9 * i;
    assert s[b .. b + 9][8] == s[b + 8];
    var n := TurnCount(p);
    assert Trunc(p.spiralN) == n;
  }

  /** With a whole `spiralN`, only the last pass closes with the shortened run. */
  lemma ClosingRunIsFinalOnlyAtLastTurn(p: Params, i: nat)
    requires i < TurnCount(p)
    requires p.spiralN == TurnCount(p) as real
    ensures Instructions(p)[4 + 9 * i + 8] ==
      Straight(p.baseWidth / 2.0 + (i + 1) as real * p.spiralFactor - p.spiralRadius, None)
      <==> i + 1 == TurnCount(p) || p.spiralRadius == 0.0
  {
    ClosingRuns(p, i);
    var f, r := p.spiralFactor, p.spiralRadius;
    if i + 1 < TurnCount(p) {
      calc {
        p.baseWidth / 2.0 + (i + 2) as real * r + (i + 1) as real * f
          - (p.baseWidth / 2.0 + (i + 1) as real * f - r);
        (i + 3) as real * r;
      }
    }
  }

  /** With two turns, the first closes with the growing run and the second with the shortened one. */
  lemma TwoTurns(p: Params)
    requires p.spiralN == 2.0
    ensures Instructions(p)[12] == Straight(p.baseWidth / 2.0 + 2.0 * p.spiralRadius + p.spiralFactor, None)
    ensures Instructions(p)[21] == Straight(p.baseWidth / 2.0 + 2.0 * p.spiralFactor - p.spiralRadius, None)
  {
    assert TurnCount(p) == 2;
    ClosingRuns(p, 0);
    ClosingRuns(p, 1);
  }

  /** When `int(spiralN)` is not positive the loop emits nothing. */
  lemma NoTurns(p: Params)
    requires Trunc(p.spiralN) <= 0
    ensures Instructions(p) ==
      [ContactPad(0, p.baseWidth, p.baseLength, 0.0, 0.0),
       Straight(0.001, Some(p.spiralWidth)),
       Straight(p.spiralFactor, None),
       Bend(-1, p.spiralRadius),
       Bend(1, p.spiralRadius),
       Straight(10.0, None),
       Straight(10.0, Some(p.trunkWidth)),
       Straight(p.trunkLength, None),
       Tree(1, p.treeWidth, p.treeLength, p.treeOffset, p.treeDistance, p.treeBranch)]
  {
  }

  /** A straight run followed by a bend contributes just the bend. */
  lemma RunThenBend(x: Instr, y: Instr)
    requires x.Straight? && y.Bend?
    ensures Select([x, y], IsBend) == [y]
  {
  }

  /** One pass of the loop bends four times, clockwise, with the spiral radius. */
  lemma TurnBends(p: Params, i: nat)
    ensures var bend := Bend(-1, p.spiralRadius);
      Select(TurnInstrs(p, i), IsBend) == [bend, bend, bend, bend]
  {
    var t, bend := TurnInstrs(p, i), SpiralBend(p);
    var q1, q2, q3, q4 := [t[0], bend], [t[2], bend], [t[4], bend], [t[6], bend];
    var last := [t[8]];
    assert t == q1 + q2 + q3 + q4 + last;
    RunThenBend(t[0], bend);
    RunThenBend(t[2], bend);
    RunThenBend(t[4], bend);
    RunThenBend(t[6], bend);
    assert Select(last, IsBend) == [] by {
      assert last[1..] == [];
    }
    SelectAppend(q1, q2, IsBend);
    SelectAppend(q1 + q2, q3, IsBend);
    SelectAppend(q1 + q2 + q3, q4, IsBend);
    SelectAppend(q1 + q2 + q3 + q4, last, IsBend);
  }

  /** The bends of `k` passes: 4k clockwise quarter turns of the spiral radius. */
  lemma {:induction false} SpiralBends(p: Params, k: nat)
    ensures Select(Spiral(p, k), IsBend) == seq(4 * k, _ => Bend(-1, p.spiralRadius))
  {
    if k > 0 {
      SpiralBends(p, k - 1);
      SelectAppend(Spiral(p, k - 1), TurnInstrs(p, k - 1), IsBend);
      TurnBends(p, k - 1);
      var bend := Bend(-1, p.spiralRadius);
      assert seq(4 * k, _ => bend) == seq(4 * (k - 1), _ => bend) + [bend, bend, bend, bend];
    }
  }

  lemma SelectSingle(x: Instr, keep: Instr -> bool)
    ensures Select([x], keep) == if keep(x) then [x] else []
  {
  }

  lemma {:induction false} SelectNone(s: seq<Instr>, keep: Instr -> bool)
    requires forall j :: 0 <= j < |s| ==> !keep(s[j])
    ensures Select(s, keep) == []
  {
    if s != [] {
      SelectNone(s[1..], keep);
    }
  }

  /**
   * The whole sequence bends 4n+2 times, always with the spiral radius: 4n+1
   * clockwise quarter turns (the opening bend and four per pass) and then one
   * counter-clockwise quarter turn, where n is the number of passes.
   */
  lemma InstructionBends(p: Params)
    ensures var n, r := TurnCount(p), p.spiralRadius;
      Select(Instructions(p), IsBend) == seq(4 * n + 1, _ => Bend(-1, r)) + [Bend(1, r)]
  {
    var n, r := TurnCount(p), p.spiralRadius;
    var pro, spi, epi := Prologue(p), Spiral(p, n), Epilogue(p);
    SelectAppend(pro + spi, epi, IsBend);
    SelectAppend(pro, spi, IsBend);
    SpiralBends(p, n);
    assert Select(pro, IsBend) == [Bend(-1, r)] by {
      SelectNone(pro[..3], IsBend);
      SelectSingle(pro[3], IsBend);
      SelectAppend(pro[..3], [pro[3]], IsBend);
      assert pro == pro[..3] + [pro[3]];
    }
    assert Select(epi, IsBend) == [Bend(1, r)] by {
      SelectSingle(epi[0], IsBend);
      SelectNone(epi[1..], IsBend);
      SelectAppend([epi[0]], epi[1..], IsBend);
      assert epi == [epi[0]] + epi[1..];
    }
    assert [Bend(-1, r)] + seq(4 * n, _ => Bend(-1, r)) == seq(4 * n + 1, _ => Bend(-1, r));
  }

  /** No run inside the spiral changes the width. */
  lemma SpiralTapers(p: Params, k: nat)
    ensures Select(Spiral(p, k), IsTaper) == []
  {
    var spi := Spiral(p, k);
    forall j | 0 <= j < |spi|
      ensures !IsTaper(spi[j])
    {
      var i := j / 9;
      SpiralTurn(p, k, i);
      assert spi[j] == spi[9 * i .. 9 * i + 9][j - 9 * i];
    }
    SelectNone(spi, IsTaper);
  }

  lemma PrologueTapers(p: Params)
    ensures Select(Prologue(p), IsTaper) == [Straight(0.001, Some(p.spiralWidth))]
  {
    var pro := Prologue(p);
    SelectNone([pro[0]], IsTaper);
    SelectSingle(pro[1], IsTaper);
    SelectNone(pro[2..], IsTaper);
    SelectAppend([pro[0]], [pro[1]], IsTaper);
    SelectAppend([pro[0]] + [pro[1]], pro[2..], IsTaper);
    assert pro == [pro[0]] + [pro[1]] + pro[2..];
  }

  lemma EpilogueTapers(p: Params)
    ensures Select(Epilogue(p), IsTaper) == [Straight(10.0, Some(p.trunkWidth))]
  {
    var epi := Epilogue(p);
    SelectNone(epi[..2], IsTaper);
    SelectSingle(epi[2], IsTaper);
    SelectNone(epi[3..], IsTaper);
    SelectAppend(epi[..2], [epi[2]], IsTaper);
    SelectAppend(epi[..2] + [epi[2]], epi[3..], IsTaper);
    assert epi == epi[..2] + [epi[2]] + epi[3..];
  }

  /**
   * Exactly two straight runs change the width, in this order: the step to
   * the spiral width after the pad and the taper to the trunk width. Every
   * other straight run keeps its width.
   */
  lemma InstructionTapers(p: Params)
    ensures Select(Instructions(p), IsTaper) ==
      [Straight(0.001, Some(p.spiralWidth)), Straight(10.0, Some(p.trunkWidth))]
  {
    var n := TurnCount(p);
    var pro, spi, epi := Prologue(p), Spiral(p, n), Epilogue(p);
    SelectAppend(pro + spi, epi, IsTaper);
    SelectAppend(pro, spi, IsTaper);
    SpiralTapers(p, n);
    PrologueTapers(p);
    EpilogueTapers(p);
  }
}
