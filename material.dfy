/** The material term of the evaluation (logic/player/AI/Material.java). */
module Material {
  import opened Pieces
  import opened Boards

  /** The sum of the values of the pieces that are not kings, accumulated in list order. */
  function NonKingSum(ps: seq<Piece>): (r: real)
    ensures r >= 0.0
  {
    if ps == [] then 0.0
    else
      var p := ps[|ps| - 1];
      NonKingSum(ps[..|ps| - 1]) + (if p.kind != Kind.King then Value(p.kind) else 0.0)
  }

  function Min(a: real, b: real): real
  {
    if a <= b then a else b
  }

  function RealAbs(x: real): real
  {
    if x < 0.0 then -x else x
  }

  /**
   * The straight-line formula of getTotalAdvantage on the two sums and pawn counts: the
   * difference capped at 24, plus a trade-down bonus weighted by the pawns of the side
   * ahead (Black's pawns on a tie), capped at 31 and signed for the side ahead.
   */
  function Advantage(whiteSum: real, blackSum: real, whitePawns: nat, blackPawns: nat): real
  {
    var md := RealAbs(whiteSum - blackSum);
    var pa := if whiteSum > blackSum then whitePawns as real else blackPawns as real;
    var ms := Min(24.0, md) + TradeDownBonus(md, pa, whiteSum + blackSum);
    var totalAdv := Min(31.0, ms);
    if whiteSum >= blackSum then totalAdv else -1.0 * totalAdv
  }

  /** The trade-down term: the difference times the leader's pawns times the material still to trade. */
  function TradeDownBonus(md: real, pa: real, total: real): real
    requires pa >= 0.0
  {
    (md * pa * (80.0 - total)) / (64.0 * (pa + 1.0))
  }

  /** Material.getTotalAdvantage, on the white and the black piece lists. */
  function TotalAdvantage(white: seq<Piece>, black: seq<Piece>): real
  {
    Advantage(NonKingSum(white), NonKingSum(black), KindCount(white, Kind.Pawn), KindCount(black, Kind.Pawn))
  }

  /** Material.getTotalAdvantage: two accumulation loops, then the formula. */
  method GetTotalAdvantage(white: seq<Piece>, black: seq<Piece>) returns (r: real)
    ensures r == TotalAdvantage(white, black)
  {
    var whiteSum, blackSum := 0.0, 0.0;
    var whitePawns, blackPawns := 0, 0;
    for i := 0 to |white|
      invariant whiteSum == NonKingSum(white[..i]) && whitePawns == KindCount(white[..i], Kind.Pawn)
    {
      assert white[..i + 1][..i] == white[..i];
      if white[i].kind != Kind.King {
        whiteSum := whiteSum + Value(white[i].kind);
        if white[i].kind == Kind.Pawn {
          whitePawns := whitePawns + 1;
        }
      }
    }
    for i := 0 to |black|
      invariant blackSum == NonKingSum(black[..i]) && blackPawns == KindCount(black[..i], Kind.Pawn)
    {
      assert black[..i + 1][..i] == black[..i];
      if black[i].kind != Kind.King {
        blackSum := blackSum + Value(black[i].kind);
        if black[i].kind == Kind.Pawn {
          blackPawns := blackPawns + 1;
        }
      }
    }
    assert white[..|white|] == white && black[..|black|] == black;
    r := Advantage(whiteSum, blackSum, whitePawns, blackPawns);
  }

  /** Material.material, which hands both lists to getTotalAdvantage. */
  method MaterialOf(allActivePieces: seq<Piece>, allEnemyActivePieces: seq<Piece>) returns (r: real)
    ensures r == TotalAdvantage(allActivePieces, allEnemyActivePieces)
  {
    r := GetTotalAdvantage(allActivePieces, allEnemyActivePieces);
  }

  /**
   * Level material scores 0; the advantage never exceeds 31 either way; and while the
   * total material is at most 80 its sign names the side ahead (White on a tie).
   */
  lemma AdvantageProperties(whiteSum: real, blackSum: real, whitePawns: nat, blackPawns: nat)
    requires whiteSum >= 0.0 && blackSum >= 0.0
    ensures whiteSum == blackSum ==> Advantage(whiteSum, blackSum, whitePawns, blackPawns) == 0.0
    ensures whiteSum >= blackSum ==> Advantage(whiteSum, blackSum, whitePawns, blackPawns) <= 31.0
    ensures whiteSum < blackSum ==> Advantage(whiteSum, blackSum, whitePawns, blackPawns) >= -31.0
    ensures whiteSum + blackSum <= 80.0 ==>
              (Advantage(whiteSum, blackSum, whitePawns, blackPawns) >= 0.0 <==> whiteSum >= blackSum)
  {
    var md := RealAbs(whiteSum - blackSum);
    var pa := if whiteSum > blackSum then whitePawns as real else blackPawns as real;
    var bonus := TradeDownBonus(md, pa, whiteSum + blackSum);
    if whiteSum == blackSum {
      assert md == 0.0;
      assert bonus == 0.0;
    }
    if whiteSum + blackSum <= 80.0 {
      NonNegativeBonus(md, pa, whiteSum + blackSum);
    }
  }

  /** The trade-down bonus is never negative while the total material is at most 80. */
  lemma NonNegativeBonus(md: real, pa: real, total: real)
    requires md >= 0.0 && pa >= 0.0 && total <= 80.0
    ensures TradeDownBonus(md, pa, total) >= 0.0
  {
    assert md * pa >= 0.0;
    assert md * pa * (80.0 - total) >= 0.0;
  }

  /** Kings add nothing: inserting one anywhere changes neither the sum nor the pawn count. */
  lemma {:induction false} KingsIgnored(xs: seq<Piece>, king: Piece, ys: seq<Piece>)
    requires king.kind == Kind.King
    ensures NonKingSum(xs + [king] + ys) == NonKingSum(xs + ys)
    ensures KindCount(xs + [king] + ys, Kind.Pawn) == KindCount(xs + ys, Kind.Pawn)
  {
    if ys == [] {
      assert (xs + [king] + ys)[..|xs + [king] + ys| - 1] == xs;
      assert xs + ys == xs;
    } else {
      var init := ys[..|ys| - 1];
      KingsIgnored(xs, king, init);
      assert (xs + [king] + ys)[..|xs + [king] + ys| - 1] == xs + [king] + init;
      assert (xs + ys)[..|xs + ys| - 1] == xs + init;
    }
  }
}
