/** What SimpleCuttingOptimizer.OptimizeCuts guarantees, proved about the
    functions that specify its loops. */
module OptimizerProperties {
  import opened Results
  import opened Models
  import opened CuttingOptimizer
  import StableSort
  import UnitConverter

  // ---------------------------------------------------------------------
  // Board expansion

  lemma BoardsConvertiblePrefix(boards: seq<Board>, n: nat)
    requires BoardsConvertible(boards) && n <= |boards|
    ensures BoardsConvertible(boards[..n])
  {
  }

  /** There are as many pieces as the quantities add up to. */
  lemma {:induction false} ExpandedBoardsCount(boards: seq<Board>)
    requires BoardsConvertible(boards)
    ensures |ExpandedBoards(boards)| == StableSort.Sum(BoardCounts(boards))
  {
    if boards != [] {
      var n := |boards| - 1;
      BoardsConvertiblePrefix(boards, n);
      ExpandedBoardsCount(boards[..n]);
      assert BoardCounts(boards)[..n] == BoardCounts(boards[..n]);
    }
  }

  /** Copy `i` of board `j` sits right after the copies of the boards before
      `j`; it carries the board, its index `j`, its length in inches, its
      position as id, and no cuts yet. */
  lemma {:induction false} ExpandedBoardsLayout(boards: seq<Board>, j: nat, i: nat)
    requires BoardsConvertible(boards) && j < |boards| && i < Copies(boards[j].quantity)
    ensures var p := FirstPieceOf(boards, j) + i;
      p < |ExpandedBoards(boards)| &&
      ExpandedBoards(boards)[p] == BoardPiece(boards[j], j, boards[j].LengthInInches().value, p, [])
  {
    var n := |boards| - 1;
    BoardsConvertiblePrefix(boards, n);
    var before := ExpandedBoards(boards[..n]);
    var block := BoardBlock(boards[n], n, |before|, Copies(boards[n].quantity));
    assert ExpandedBoards(boards) == before + block;
    var p := FirstPieceOf(boards, j) + i;
    if j == n {
      ExpandedBoardsCount(boards[..n]);
      assert BoardCounts(boards)[..n] == BoardCounts(boards[..n]);
      assert p == |before| + i;
      assert ExpandedBoards(boards)[p] == block[i];
    } else {
      ExpandedBoardsLayout(boards[..n], j, i);
      assert BoardCounts(boards[..n])[..j] == BoardCounts(boards)[..j];
      assert FirstPieceOf(boards[..n], j) == FirstPieceOf(boards, j);
      assert boards[..n][j] == boards[j];
      assert ExpandedBoards(boards)[p] == before[p];
    }
  }

  /** Read from the other side: every piece's id is its position, it comes
      from the board at its index with that board's length, it has no cuts,
      and the indices never decrease, so pieces follow input order. */
  lemma {:induction false} ExpandedBoardsInOrder(boards: seq<Board>)
    requires BoardsConvertible(boards)
    ensures forall p :: 0 <= p < |ExpandedBoards(boards)| ==>
      var piece := ExpandedBoards(boards)[p];
        && piece.pieceId == p
        && 0 <= piece.originalIndex < |boards|
        && piece.originalBoard == boards[piece.originalIndex]
        && boards[piece.originalIndex].quantity > 0
        && piece.currentLengthInches == piece.originalBoard.LengthInInches().value
        && piece.cutsMadeFromThisPiece == []
    ensures forall p, q :: 0 <= p < q < |ExpandedBoards(boards)| ==>
      ExpandedBoards(boards)[p].originalIndex <= ExpandedBoards(boards)[q].originalIndex
  {
    if boards != [] {
      var n := |boards| - 1;
      BoardsConvertiblePrefix(boards, n);
      ExpandedBoardsInOrder(boards[..n]);
      var pieces := ExpandedBoards(boards);
      var before := ExpandedBoards(boards[..n]);
      var block := BoardBlock(boards[n], n, |before|, Copies(boards[n].quantity));
      assert pieces == ExpandedBoards(boards[..n]) + block;
      forall p | 0 <= p < |pieces|
        ensures pieces[p].pieceId == p
        ensures 0 <= pieces[p].originalIndex < |boards|
        ensures pieces[p].originalBoard == boards[pieces[p].originalIndex]
        ensures boards[pieces[p].originalIndex].quantity > 0
        ensures pieces[p].currentLengthInches == pieces[p].originalBoard.LengthInInches().value
        ensures pieces[p].cutsMadeFromThisPiece == []
        ensures p >= |before| ==> pieces[p].originalIndex == n
      {
        if p < |before| {
          assert pieces[p] == before[p];
          assert boards[..n][before[p].originalIndex] == boards[before[p].originalIndex];
        } else {
          assert pieces[p] == block[p - |before|];
        }
      }
      forall p, q | 0 <= p < q < |pieces|
        ensures pieces[p].originalIndex <= pieces[q].originalIndex
      {
        if q < |before| {
          assert pieces[p] == before[p] && pieces[q] == before[q];
          assert before[p].originalIndex <= before[q].originalIndex;
        } else {
          assert pieces[q].originalIndex == n;
          assert pieces[p].originalIndex < |boards|;
        }
      }
    }
  }

  /** The length a board specification puts on the rack: its quantity
      times its length, nothing for a non-positive quantity. */
  function SpecLength(board: Board): real
    requires board.quantity > 0 ==> board.LengthInInches().Success?
  {
    if board.quantity > 0 then (board.quantity as real) * board.LengthInInches().value else 0.0
  }

  /** The sum of quantity times length over the board specifications. */
  function StockLength(boards: seq<Board>): real
    requires BoardsConvertible(boards)
  {
    if boards == [] then 0.0
    else StockLength(boards[..|boards| - 1]) + SpecLength(boards[|boards| - 1])
  }

  lemma {:induction false} SumCurrentLengthsAppend(a: seq<BoardPiece>, b: seq<BoardPiece>)
    ensures SumCurrentLengths(a + b) == SumCurrentLengths(a) + SumCurrentLengths(b)
  {
    if a != [] {
      assert (a + b)[1..] == a[1..] + b;
      SumCurrentLengthsAppend(a[1..], b);
    } else {
      assert a + b == b;
    }
  }

  /** Pieces that all have length `length` add up to their number times it. */
  lemma {:induction false} SumOfEqualLengths(pieces: seq<BoardPiece>, length: real)
    requires forall p :: 0 <= p < |pieces| ==> pieces[p].currentLengthInches == length
    ensures SumCurrentLengths(pieces) == (|pieces| as real) * length
  {
    if pieces != [] {
      SumOfEqualLengths(pieces[1..], length);
      assert (|pieces| as real) * length == length + ((|pieces| - 1) as real) * length;
    }
  }

  /** The pieces of one board add up to its SpecLength. */
  lemma SumOfOneBoard(board: Board, index: int, firstId: int)
    requires board.quantity > 0 ==> board.LengthInInches().Success?
    ensures SumCurrentLengths(BoardBlock(board, index, firstId, Copies(board.quantity))) == SpecLength(board)
  {
    if board.quantity > 0 {
      SumOfEqualLengths(BoardBlock(board, index, firstId, board.quantity), board.LengthInInches().value);
    } else {
      assert BoardBlock(board, index, firstId, 0) == [];
    }
  }

  /** The total available length is the sum of quantity times length over
      the board specifications. */
  lemma {:induction false} TotalAvailableIsStockLength(boards: seq<Board>)
    requires BoardsConvertible(boards)
    ensures TotalAvailable(boards) == StockLength(boards)
  {
    if boards != [] {
      var n := |boards| - 1;
      BoardsConvertiblePrefix(boards, n);
      TotalAvailableIsStockLength(boards[..n]);
      var block := BoardBlock(boards[n], n, |ExpandedBoards(boards[..n])|, Copies(boards[n].quantity));
      assert ExpandedBoards(boards) == ExpandedBoards(boards[..n]) + block;
      SumCurrentLengthsAppend(ExpandedBoards(boards[..n]), block);
      SumOfOneBoard(boards[n], n, |ExpandedBoards(boards[..n])|);
    }
  }

  // ---------------------------------------------------------------------
  // Cut expansion

  /** The cuts are read in a stable descending order of their length in
      inches: a permutation of the input, lengths never increase, and cuts
      of equal length keep their input order. */
  lemma SortedCutsIsStableSort(cuts: seq<DesiredCut>)
    requires CutsConvertible(cuts)
    ensures var order := StableSort.OrderDescending(CutKeys(cuts));
      var sorted := SortedCuts(cuts);
      && StableSort.IsPermutationOf(order, |cuts|)
      && (forall p :: 0 <= p < |sorted| ==> sorted[p] == cuts[order[p]])
      && (forall p, q :: 0 <= p < q < |sorted| ==>
            sorted[p].LengthInInches().value >= sorted[q].LengthInInches().value)
      && (forall p, q ::
            (0 <= p < q < |sorted| && sorted[p].LengthInInches().value == sorted[q].LengthInInches().value)
            ==> order[p] < order[q])
  {
    var keys := CutKeys(cuts);
    var order := StableSort.OrderDescending(keys);
    StableSort.OrderDescendingIsStableSort(keys);
    var sorted := SortedCuts(cuts);
    forall p | 0 <= p < |sorted|
      ensures sorted[p] == cuts[order[p]]
      ensures sorted[p].LengthInInches().value == keys[order[p]]
    {
    }
  }

  /** The id of the first instance of sorted cut `j`. */
  function FirstInstanceOf(sorted: seq<DesiredCut>, j: nat): nat
    requires j <= |sorted|
  {
    StableSort.SumNonNegative(CutCounts(sorted)[..j]);
    StableSort.Sum(CutCounts(sorted)[..j])
  }

  lemma {:induction false} InstancesOfCount(sorted: seq<DesiredCut>)
    requires CutsConvertible(sorted)
    ensures |InstancesOf(sorted)| == StableSort.Sum(CutCounts(sorted))
  {
    if sorted != [] {
      var n := |sorted| - 1;
      CutsConvertiblePrefix(sorted, n);
      InstancesOfCount(sorted[..n]);
      assert CutCounts(sorted)[..n] == CutCounts(sorted[..n]);
    }
  }

  /** Copy `i` of sorted cut `j` sits right after the copies of the cuts
      before `j`, with the cut's length in inches and its position as id. */
  lemma {:induction false} InstancesOfLayout(sorted: seq<DesiredCut>, j: nat, i: nat)
    requires CutsConvertible(sorted) && j < |sorted| && i < Copies(sorted[j].quantity)
    ensures var p := FirstInstanceOf(sorted, j) + i;
      p < |InstancesOf(sorted)| &&
      InstancesOf(sorted)[p] == CutInstance(sorted[j], sorted[j].LengthInInches().value, p)
  {
    var n := |sorted| - 1;
    CutsConvertiblePrefix(sorted, n);
    var before := InstancesOf(sorted[..n]);
    var block := CutBlock(sorted[n], |before|, Copies(sorted[n].quantity));
    assert InstancesOf(sorted) == before + block;
    var p := FirstInstanceOf(sorted, j) + i;
    if j == n {
      InstancesOfCount(sorted[..n]);
      assert CutCounts(sorted)[..n] == CutCounts(sorted[..n]);
      assert p == |before| + i;
      assert InstancesOf(sorted)[p] == block[i];
    } else {
      InstancesOfLayout(sorted[..n], j, i);
      assert CutCounts(sorted[..n])[..j] == CutCounts(sorted)[..j];
      assert FirstInstanceOf(sorted[..n], j) == FirstInstanceOf(sorted, j);
      assert sorted[..n][j] == sorted[j];
      assert InstancesOf(sorted)[p] == before[p];
    }
  }

  /** Every instance's id is its position and its length is its cut's. */
  lemma {:induction false} InstancesOfWellFormed(sorted: seq<DesiredCut>)
    requires CutsConvertible(sorted)
    ensures forall p :: 0 <= p < |InstancesOf(sorted)| ==>
      var instance := InstancesOf(sorted)[p];
        && instance.cutId == p
        && instance.originalCut in sorted
        && instance.originalCut.quantity > 0
        && instance.lengthInches == instance.originalCut.LengthInInches().value
  {
    if sorted != [] {
      var n := |sorted| - 1;
      CutsConvertiblePrefix(sorted, n);
      InstancesOfWellFormed(sorted[..n]);
      var block := CutBlock(sorted[n], |InstancesOf(sorted[..n])|, Copies(sorted[n].quantity));
      assert InstancesOf(sorted) == InstancesOf(sorted[..n]) + block;
      forall p | |InstancesOf(sorted[..n])| <= p < |InstancesOf(sorted)|
        ensures InstancesOf(sorted)[p] == block[p - |InstancesOf(sorted[..n])|]
      {
      }
      forall p | 0 <= p < |InstancesOf(sorted[..n])|
        ensures InstancesOf(sorted)[p].originalCut in sorted
      {
        assert InstancesOf(sorted)[p] == InstancesOf(sorted[..n])[p];
        assert InstancesOf(sorted[..n])[p].originalCut in sorted[..n];
      }
    }
  }

  /** Sorted cuts give instances whose lengths never increase. */
  lemma {:induction false} InstancesOfNonIncreasing(sorted: seq<DesiredCut>)
    requires CutsConvertible(sorted)
    requires forall p, q :: 0 <= p < q < |sorted| ==>
      sorted[p].LengthInInches().value >= sorted[q].LengthInInches().value
    ensures forall p, q :: 0 <= p < q < |InstancesOf(sorted)| ==>
      InstancesOf(sorted)[p].lengthInches >= InstancesOf(sorted)[q].lengthInches
  {
    if sorted != [] {
      var n := |sorted| - 1;
      CutsConvertiblePrefix(sorted, n);
      InstancesOfNonIncreasing(sorted[..n]);
      InstancesOfWellFormed(sorted[..n]);
      var before := InstancesOf(sorted[..n]);
      var last := sorted[n].LengthInInches().value;
      var block := CutBlock(sorted[n], |InstancesOf(sorted[..n])|, Copies(sorted[n].quantity));
      assert InstancesOf(sorted) == InstancesOf(sorted[..n]) + block;
      forall p | 0 <= p < |InstancesOf(sorted[..n])|
        ensures InstancesOf(sorted[..n])[p].lengthInches >= last
      {
        var cut := InstancesOf(sorted[..n])[p].originalCut;
        assert cut in sorted[..n];
        var k :| 0 <= k < n && sorted[..n][k] == cut;
        assert sorted[k] == cut;
      }
    }
  }

  /** The instances in processing order: as many as the quantities add up
      to, ids running from 0, each with its cut's length, and longest first. */
  lemma CutInstancesInOrder(cuts: seq<DesiredCut>)
    requires CutsConvertible(cuts)
    ensures var instances := CutInstances(cuts);
      && |instances| == StableSort.Sum(CutCounts(cuts))
      && (forall p :: 0 <= p < |instances| ==>
            && instances[p].cutId == p
            && instances[p].originalCut in cuts
            && instances[p].lengthInches == instances[p].originalCut.LengthInInches().value)
      && (forall p, q :: 0 <= p < q < |instances| ==> instances[p].lengthInches >= instances[q].lengthInches)
  {
    var keys := CutKeys(cuts);
    var order := StableSort.OrderDescending(keys);
    var sorted := SortedCuts(cuts);
    SortedCutsIsStableSort(cuts);
    InstancesOfCount(sorted);
    InstancesOfWellFormed(sorted);
    InstancesOfNonIncreasing(sorted);
    assert CutCounts(sorted) == StableSort.Permute(CutCounts(cuts), order);
    StableSort.SortKeepsSum(CutCounts(cuts), keys);
  }

  /** The length a cut specification asks for: its copies times its length. */
  function CutSpecLength(cut: DesiredCut): real
    requires cut.LengthInInches().Success?
  {
    (Copies(cut.quantity) as real) * cut.LengthInInches().value
  }

  function CutSpecLengths(cuts: seq<DesiredCut>): (r: seq<real>)
    requires CutsConvertible(cuts)
    ensures |r| == |cuts|
  {
    seq(|cuts|, j requires 0 <= j < |cuts| => CutSpecLength(cuts[j]))
  }

  /** The sum of quantity times length over the cut specifications, in
      input order. */
  function DemandLength(cuts: seq<DesiredCut>): real
    requires CutsConvertible(cuts)
  {
    StableSort.Total(CutSpecLengths(cuts))
  }

  lemma {:induction false} SumInstanceLengthsAppend(a: seq<CutInstance>, b: seq<CutInstance>)
    ensures SumInstanceLengths(a + b) == SumInstanceLengths(a) + SumInstanceLengths(b)
  {
    if a != [] {
      assert (a + b)[1..] == a[1..] + b;
      SumInstanceLengthsAppend(a[1..], b);
    } else {
      assert a + b == b;
    }
  }

  /** Instances of one cut, `count` of them, add up to `count` times its length. */
  lemma {:induction false} SumOfCutBlock(cut: DesiredCut, firstId: int, count: nat)
    requires cut.LengthInInches().Success?
    ensures SumInstanceLengths(CutBlock(cut, firstId, count)) == (count as real) * cut.LengthInInches().value
    decreases count
  {
    if count > 0 {
      var block := CutBlock(cut, firstId, count);
      assert block[1..] == CutBlock(cut, firstId + 1, count - 1);
      SumOfCutBlock(cut, firstId + 1, count - 1);
      assert (count as real) * cut.LengthInInches().value
          == cut.LengthInInches().value + ((count - 1) as real) * cut.LengthInInches().value;
    }
  }

  /** The instances of one cut add up to its CutSpecLength. */
  lemma SumOfOneCut(cut: DesiredCut, firstId: int)
    requires cut.LengthInInches().Success?
    ensures SumInstanceLengths(CutBlock(cut, firstId, Copies(cut.quantity))) == CutSpecLength(cut)
  {
    SumOfCutBlock(cut, firstId, Copies(cut.quantity));
  }

  /** One more cut specification adds its CutSpecLength to the demand. */
  lemma DemandLengthGrows(cuts: seq<DesiredCut>)
    requires CutsConvertible(cuts) && cuts != []
    ensures CutsConvertible(cuts[..|cuts| - 1])
    ensures DemandLength(cuts) == DemandLength(cuts[..|cuts| - 1]) + CutSpecLength(cuts[|cuts| - 1])
  {
    var n := |cuts| - 1;
    CutsConvertiblePrefix(cuts, n);
    var lengths := CutSpecLengths(cuts);
    assert lengths[..n] == CutSpecLengths(cuts[..n]);
  }

  /** The instances of sorted cut specifications add up to their DemandLength. */
  lemma {:induction false} InstancesOfLength(sorted: seq<DesiredCut>)
    requires CutsConvertible(sorted)
    ensures SumInstanceLengths(InstancesOf(sorted)) == DemandLength(sorted)
  {
    if sorted != [] {
      var n := |sorted| - 1;
      DemandLengthGrows(sorted);
      InstancesOfLength(sorted[..n]);
      var before := InstancesOf(sorted[..n]);
      var block := CutBlock(sorted[n], |before|, Copies(sorted[n].quantity));
      assert InstancesOf(sorted) == before + block;
      SumInstanceLengthsAppend(before, block);
      SumOfOneCut(sorted[n], |before|);
    }
  }

  /** The total desired length is the sum of quantity times length over the
      cut specifications as given: sorting them first changes nothing. */
  lemma TotalDesiredIsDemandLength(cuts: seq<DesiredCut>)
    requires CutsConvertible(cuts)
    ensures TotalDesired(cuts) == DemandLength(cuts)
  {
    var keys := CutKeys(cuts);
    var order := StableSort.OrderDescending(keys);
    var sorted := SortedCuts(cuts);
    SortedCutsIsStableSort(cuts);
    InstancesOfLength(sorted);
    assert CutSpecLengths(sorted) == StableSort.Permute(CutSpecLengths(cuts), order);
    StableSort.SortKeepsTotal(CutSpecLengths(cuts), keys);
  }

  // ---------------------------------------------------------------------
  // Best fit

  /** BestFit picks exactly the piece the declarative description names. */
  lemma BestFitCharacterized(pieces: seq<BoardPiece>, length: real, k: int)
    ensures BestFit(pieces, length) == Some(k) <==> IsBestFit(pieces, length, k)
  {
    var best := BestFit(pieces, length);
    if IsBestFit(pieces, length, k) {
      assert best.Some?;
      var b := best.value;
      assert Slack(pieces[k], length) <= Slack(pieces[b], length);
      assert Slack(pieces[b], length) <= Slack(pieces[k], length);
    }
  }

  // ---------------------------------------------------------------------
  // One iteration of the assignment loop

  /** When nothing fits, the iteration changes nothing; otherwise the best
      fitting piece alone is shortened by the instance's length and records
      the cut, which is also appended to the plan, and one more instance is
      fulfilled. */
  lemma AssignTakesFromBestFit(s: PlanState, instance: CutInstance)
    ensures var r := Assign(s, instance);
      (forall j :: 0 <= j < |s.pieces| ==> !Fits(s.pieces[j], instance.lengthInches)) ==> r == s
    ensures var r := Assign(s, instance);
      forall k :: IsBestFit(s.pieces, instance.lengthInches, k) ==>
        var cut := CutFrom(instance, s.pieces[k]);
        && r.pieces[k].currentLengthInches == s.pieces[k].currentLengthInches - instance.lengthInches
        && r.pieces[k].cutsMadeFromThisPiece == s.pieces[k].cutsMadeFromThisPiece + [cut]
        && r.pieces[k].originalBoard == s.pieces[k].originalBoard
        && r.pieces[k].originalIndex == s.pieces[k].originalIndex
        && r.pieces[k].pieceId == s.pieces[k].pieceId
        && (forall j :: 0 <= j < |s.pieces| && j != k ==> r.pieces[j] == s.pieces[j])
        && r.optimizedCuts == s.optimizedCuts + [cut]
        && r.fulfilled == s.fulfilled + 1
  {
    forall k | IsBestFit(s.pieces, instance.lengthInches, k)
      ensures BestFit(s.pieces, instance.lengthInches) == Some(k)
    {
      BestFitCharacterized(s.pieces, instance.lengthInches, k);
    }
  }

  /** The length on the pieces plus the length of the cuts made. */
  function Accounted(s: PlanState): real {
    SumCurrentLengths(s.pieces) + SumCutLengths(s.optimizedCuts)
  }

  lemma {:induction false} SumCurrentLengthsUpdate(pieces: seq<BoardPiece>, k: nat, piece: BoardPiece)
    requires k < |pieces|
    ensures SumCurrentLengths(pieces[k := piece])
         == SumCurrentLengths(pieces) - pieces[k].currentLengthInches + piece.currentLengthInches
  {
    if k > 0 {
      assert pieces[k := piece][1..] == pieces[1..][k - 1 := piece];
      SumCurrentLengthsUpdate(pieces[1..], k - 1, piece);
    } else {
      assert pieces[k := piece][1..] == pieces[1..];
    }
  }

  lemma SumCutLengthsAppend(cuts: seq<OptimizedCut>, cut: OptimizedCut)
    ensures SumCutLengths(cuts + [cut]) == SumCutLengths(cuts) + cut.cutLengthToInches
  {
    assert (cuts + [cut])[..|cuts|] == cuts;
  }

  /** An iteration moves length from a piece to the cut list: the total
      stays the same. */
  lemma AssignConservesLength(s: PlanState, instance: CutInstance)
    ensures Accounted(Assign(s, instance)) == Accounted(s)
  {
    var best := BestFit(s.pieces, instance.lengthInches);
    if best.Some? {
      var k := best.value;
      var r := Assign(s, instance);
      SumCurrentLengthsUpdate(s.pieces, k, r.pieces[k]);
      SumCutLengthsAppend(s.optimizedCuts, CutFrom(instance, s.pieces[k]));
    }
  }

  /** Conservation of length over the whole loop. */
  lemma {:induction false} AssignAllConservesLength(s: PlanState, instances: seq<CutInstance>)
    ensures Accounted(AssignAll(s, instances)) == Accounted(s)
  {
    if instances != [] {
      var n := |instances| - 1;
      AssignAllConservesLength(s, instances[..n]);
      AssignConservesLength(AssignAll(s, instances[..n]), instances[n]);
    }
  }

  /** What is left on the pieces plus what was cut is exactly the total
      available length. */
  lemma PlanConservesLength(boards: seq<Board>, cuts: seq<DesiredCut>)
    requires BoardsConvertible(boards) && CutsConvertible(cuts)
    ensures var plan := Plan(boards, cuts);
      SumCurrentLengths(plan.pieces) + SumCutLengths(plan.optimizedCuts) == TotalAvailable(boards)
  {
    AssignAllConservesLength(PlanState(ExpandedBoards(boards), [], 0), CutInstances(cuts));
  }

  /** A piece is only cut when it is long enough, so no piece that starts
      non-negative ever goes negative. */
  lemma {:induction false} AssignAllKeepsNonNegative(s: PlanState, instances: seq<CutInstance>)
    requires forall j :: 0 <= j < |s.pieces| ==> s.pieces[j].currentLengthInches >= 0.0
    ensures var r := AssignAll(s, instances);
      |r.pieces| == |s.pieces| &&
      forall j :: 0 <= j < |r.pieces| ==> r.pieces[j].currentLengthInches >= 0.0
  {
    if instances != [] {
      var n := |instances| - 1;
      AssignAllKeepsNonNegative(s, instances[..n]);
      var mid := AssignAll(s, instances[..n]);
      var best := BestFit(mid.pieces, instances[n].lengthInches);
      if best.Some? {
        assert Fits(mid.pieces[best.value], instances[n].lengthInches);
      }
    }
  }

  /** With positive board lengths, as the page validates, no piece of the
      plan ends with a negative length. */
  lemma PlanNeverOvercuts(boards: seq<Board>, cuts: seq<DesiredCut>)
    requires BoardsConvertible(boards) && CutsConvertible(cuts)
    requires forall j :: 0 <= j < |boards| ==> boards[j].length > 0.0
    ensures var plan := Plan(boards, cuts);
      forall j :: 0 <= j < |plan.pieces| ==> plan.pieces[j].currentLengthInches >= 0.0
  {
    ExpandedBoardsInOrder(boards);
    forall j | 0 <= j < |ExpandedBoards(boards)|
      ensures ExpandedBoards(boards)[j].currentLengthInches >= 0.0
    {
      var board := ExpandedBoards(boards)[j].originalBoard;
      assert board == boards[ExpandedBoards(boards)[j].originalIndex];
      assert board.LengthInInches().value > 0.0;
    }
    AssignAllKeepsNonNegative(PlanState(ExpandedBoards(boards), [], 0), CutInstances(cuts));
  }

  // ---------------------------------------------------------------------
  // The cuts the loop records

  /** What a cut records about the instance it was made for. */
  function Demand(cut: OptimizedCut): (DesiredCut, real) {
    (cut.originalDesiredCut, cut.cutLengthToInches)
  }

  /** The cut specification and length of each instance, in order. */
  function Demands(instances: seq<CutInstance>): (r: seq<(DesiredCut, real)>)
    ensures |r| == |instances|
  {
    seq(|instances|, i requires 0 <= i < |instances| => (instances[i].originalCut, instances[i].lengthInches))
  }

  /** The loop only appends to the plan, one cut per fulfilled instance,
      each with quantity 1 and the cut and length of an instance it
      processed. */
  lemma {:induction false} AssignAllRecordsCuts(s: PlanState, instances: seq<CutInstance>)
    ensures |AssignAll(s, instances).pieces| == |s.pieces|
    ensures s.fulfilled <= AssignAll(s, instances).fulfilled <= s.fulfilled + |instances|
    ensures |AssignAll(s, instances).optimizedCuts| - |s.optimizedCuts|
         == AssignAll(s, instances).fulfilled - s.fulfilled
    ensures AssignAll(s, instances).optimizedCuts[..|s.optimizedCuts|] == s.optimizedCuts
    ensures forall p :: |s.optimizedCuts| <= p < |AssignAll(s, instances).optimizedCuts| ==>
      && AssignAll(s, instances).optimizedCuts[p].quantityToCut == 1
      && Demand(AssignAll(s, instances).optimizedCuts[p]) in Demands(instances)
  {
    if instances != [] {
      var n := |instances| - 1;
      AssignAllRecordsCuts(s, instances[..n]);
      var mid := AssignAll(s, instances[..n]);
      assert AssignAll(s, instances) == Assign(mid, instances[n]);
      assert Demands(instances) == Demands(instances[..n]) + [(instances[n].originalCut, instances[n].lengthInches)];
      var best := BestFit(mid.pieces, instances[n].lengthInches);
      if best.Some? {
        assert AssignAll(s, instances).optimizedCuts == mid.optimizedCuts + [CutFrom(instances[n], mid.pieces[best.value])];
      }
    }
  }

  /** At its turn in the loop, some piece is long enough for instance `i`. */
  predicate FitsAtTurn(s: PlanState, instances: seq<CutInstance>, i: nat)
    requires i < |instances|
  {
    BestFit(AssignAll(s, instances[..i]).pieces, instances[i].lengthInches).Some?
  }

  /** Later instances do not change whether an earlier one fits at its turn. */
  lemma FitsAtTurnPrefix(s: PlanState, instances: seq<CutInstance>, n: nat, i: nat)
    requires i < n <= |instances|
    ensures FitsAtTurn(s, instances[..n], i) == FitsAtTurn(s, instances, i)
  {
    assert instances[..n][..i] == instances[..i];
  }

  /** The positions in `instances` at which the loop found a piece for the
      instance, in the order it visited them. */
  function FulfilledSteps(s: PlanState, instances: seq<CutInstance>): (r: seq<nat>)
    ensures forall p :: 0 <= p < |r| ==> r[p] < |instances|
  {
    if instances == [] then []
    else
      var n := |instances| - 1;
      FulfilledSteps(s, instances[..n]) + (if FitsAtTurn(s, instances, n) then [n] else [])
  }

  /** The cuts the loop appends follow the instances one for one: the `p`-th
      new cut records the cut and length of the `p`-th fulfilled instance,
      and the fulfilled positions strictly increase. */
  lemma {:induction false} AssignAllCutsInOrder(s: PlanState, instances: seq<CutInstance>)
    ensures |FulfilledSteps(s, instances)| == AssignAll(s, instances).fulfilled - s.fulfilled
    ensures |AssignAll(s, instances).optimizedCuts| == |s.optimizedCuts| + |FulfilledSteps(s, instances)|
    ensures forall p, q :: 0 <= p < q < |FulfilledSteps(s, instances)| ==>
      FulfilledSteps(s, instances)[p] < FulfilledSteps(s, instances)[q]
    ensures forall p :: 0 <= p < |FulfilledSteps(s, instances)| ==>
      Demand(AssignAll(s, instances).optimizedCuts[|s.optimizedCuts| + p])
        == Demands(instances)[FulfilledSteps(s, instances)[p]]
  {
    if instances != [] {
      var n := |instances| - 1;
      var prefix := instances[..n];
      AssignAllCutsInOrder(s, prefix);
      var mid := AssignAll(s, prefix);
      var r := AssignAll(s, instances);
      assert r == Assign(mid, instances[n]);
      var before := FulfilledSteps(s, prefix);
      var best := BestFit(mid.pieces, instances[n].lengthInches);
      assert best.Some? == FitsAtTurn(s, instances, n);
      if best.Some? {
        var cut := CutFrom(instances[n], mid.pieces[best.value]);
        assert r.optimizedCuts == mid.optimizedCuts + [cut];
        assert FulfilledSteps(s, instances) == before + [n];
        forall p | 0 <= p < |before|
          ensures Demand(r.optimizedCuts[|s.optimizedCuts| + p]) == Demands(instances)[before[p]]
        {
          assert Demands(prefix)[before[p]] == Demands(instances)[before[p]];
        }
      } else {
        assert FulfilledSteps(s, instances) == before;
        forall p | 0 <= p < |before|
          ensures Demand(r.optimizedCuts[|s.optimizedCuts| + p]) == Demands(instances)[before[p]]
        {
          assert Demands(prefix)[before[p]] == Demands(instances)[before[p]];
        }
      }
    }
  }

  /** A position is among the fulfilled steps exactly when some piece fits
      the instance there, at that point of the loop. */
  lemma {:induction false} FulfilledStepsExact(s: PlanState, instances: seq<CutInstance>)
    ensures forall i :: 0 <= i < |instances| ==>
      (i in FulfilledSteps(s, instances) <==> FitsAtTurn(s, instances, i))
  {
    if instances != [] {
      var n := |instances| - 1;
      var prefix := instances[..n];
      FulfilledStepsExact(s, prefix);
      var before := FulfilledSteps(s, prefix);
      var added: seq<nat> := if FitsAtTurn(s, instances, n) then [n] else [];
      assert FulfilledSteps(s, instances) == before + added;
      forall i | 0 <= i < n
        ensures i in before + added <==> FitsAtTurn(s, instances, i)
      {
        FitsAtTurnPrefix(s, instances, n, i);
        assert i !in added;
      }
      assert n !in before;
    }
  }

  /** Instances that come longest first give cuts that come longest first. */
  lemma {:induction false} AssignAllCutsNonIncreasing(s: PlanState, instances: seq<CutInstance>)
    requires forall i, j :: 0 <= i < j < |instances| ==> instances[i].lengthInches >= instances[j].lengthInches
    ensures forall p, q :: |s.optimizedCuts| <= p < q < |AssignAll(s, instances).optimizedCuts| ==>
      AssignAll(s, instances).optimizedCuts[p].cutLengthToInches
        >= AssignAll(s, instances).optimizedCuts[q].cutLengthToInches
  {
    if instances != [] {
      var n := |instances| - 1;
      AssignAllCutsNonIncreasing(s, instances[..n]);
      AssignAllRecordsCuts(s, instances[..n]);
      var mid := AssignAll(s, instances[..n]);
      var r := AssignAll(s, instances);
      assert r == Assign(mid, instances[n]);
      if |r.optimizedCuts| > |mid.optimizedCuts| {
        assert r.optimizedCuts == mid.optimizedCuts + [r.optimizedCuts[|mid.optimizedCuts|]];
        assert r.optimizedCuts[|mid.optimizedCuts|].cutLengthToInches == instances[n].lengthInches;
        forall p | |s.optimizedCuts| <= p < |mid.optimizedCuts|
          ensures mid.optimizedCuts[p].cutLengthToInches >= instances[n].lengthInches
        {
          var i :| 0 <= i < n && Demands(instances[..n])[i] == Demand(mid.optimizedCuts[p]);
          assert instances[..n][i] == instances[i];
        }
      }
    }
  }

  /** The positions in the processing order of the instances the plan
      fulfils. */
  function PlanSteps(boards: seq<Board>, cuts: seq<DesiredCut>): seq<nat>
    requires BoardsConvertible(boards) && CutsConvertible(cuts)
  {
    FulfilledSteps(PlanState(ExpandedBoards(boards), [], 0), CutInstances(cuts))
  }

  /** The plan's cuts: one per fulfilled instance and no more than there are
      instances, each with quantity 1 and an instance's cut and length, in
      processing order, so longest first. */
  lemma PlanCuts(boards: seq<Board>, cuts: seq<DesiredCut>)
    requires BoardsConvertible(boards) && CutsConvertible(cuts)
    ensures |Plan(boards, cuts).optimizedCuts| == Plan(boards, cuts).fulfilled <= |CutInstances(cuts)|
    ensures forall p :: 0 <= p < |Plan(boards, cuts).optimizedCuts| ==>
      && Plan(boards, cuts).optimizedCuts[p].quantityToCut == 1
      && Demand(Plan(boards, cuts).optimizedCuts[p]) in Demands(CutInstances(cuts))
    ensures forall p, q :: 0 <= p < q < |Plan(boards, cuts).optimizedCuts| ==>
      Plan(boards, cuts).optimizedCuts[p].cutLengthToInches >= Plan(boards, cuts).optimizedCuts[q].cutLengthToInches
  {
    var start := PlanState(ExpandedBoards(boards), [], 0);
    var instances := CutInstances(cuts);
    assert forall i, j :: 0 <= i < j < |instances| ==> instances[i].lengthInches >= instances[j].lengthInches by {
      CutInstancesInOrder(cuts);
    }
    assert Plan(boards, cuts) == AssignAll(start, instances);
    AssignAllRecordsCuts(start, instances);
    AssignAllCutsNonIncreasing(start, instances);
  }

  /** The plan's cuts follow the instances one for one, in processing
      order: the `p`-th cut records the cut and length of the `p`-th
      instance some piece fitted, those instances come in increasing
      position, so no instance gives two cuts, and an instance is among
      them exactly when a piece fits it at its turn. */
  lemma PlanCutsFollowInstances(boards: seq<Board>, cuts: seq<DesiredCut>)
    requires BoardsConvertible(boards) && CutsConvertible(cuts)
    ensures |PlanSteps(boards, cuts)| == |Plan(boards, cuts).optimizedCuts|
    ensures forall p, q :: 0 <= p < q < |PlanSteps(boards, cuts)| ==>
      PlanSteps(boards, cuts)[p] < PlanSteps(boards, cuts)[q]
    ensures forall p :: 0 <= p < |PlanSteps(boards, cuts)| ==>
      Demand(Plan(boards, cuts).optimizedCuts[p]) == Demands(CutInstances(cuts))[PlanSteps(boards, cuts)[p]]
    ensures forall i :: 0 <= i < |CutInstances(cuts)| ==>
      (i in PlanSteps(boards, cuts) <==> FitsAtTurn(PlanState(ExpandedBoards(boards), [], 0), CutInstances(cuts), i))
  {
    var start := PlanState(ExpandedBoards(boards), [], 0);
    var instances := CutInstances(cuts);
    assert Plan(boards, cuts) == AssignAll(start, instances);
    AssignAllCutsInOrder(start, instances);
    FulfilledStepsExact(start, instances);
  }

  // ---------------------------------------------------------------------
  // Each piece's own record

  /** `after` is `before` with some cuts taken: same board, index and id,
      the old cuts kept, and the new cuts all from this board, with quantity
      1, found in `plan`, and adding up to the length the piece lost. */
  predicate LedgerHolds(before: BoardPiece, after: BoardPiece, plan: seq<OptimizedCut>) {
    var made := |before.cutsMadeFromThisPiece|;
    && after.originalBoard == before.originalBoard
    && after.originalIndex == before.originalIndex
    && after.pieceId == before.pieceId
    && made <= |after.cutsMadeFromThisPiece|
    && after.cutsMadeFromThisPiece[..made] == before.cutsMadeFromThisPiece
    && after.currentLengthInches + SumCutLengths(after.cutsMadeFromThisPiece[made..]) == before.currentLengthInches
    && (forall c :: c in after.cutsMadeFromThisPiece[made..] ==>
          && c.quantityToCut == 1
          && c.sourceBoard == before.originalBoard
          && c.sourceBoardOriginalIndex == before.originalIndex
          && c in plan)
  }

  /** Every piece keeps its ledger through the whole loop. */
  lemma {:induction false} AssignAllPieceLedger(s: PlanState, instances: seq<CutInstance>, j: nat)
    requires j < |s.pieces|
    ensures j < |AssignAll(s, instances).pieces|
    ensures |s.optimizedCuts| <= |AssignAll(s, instances).optimizedCuts|
    ensures LedgerHolds(s.pieces[j], AssignAll(s, instances).pieces[j],
                        AssignAll(s, instances).optimizedCuts[|s.optimizedCuts|..])
  {
    AssignAllRecordsCuts(s, instances);
    if instances == [] {
      var made := |s.pieces[j].cutsMadeFromThisPiece|;
      assert s.pieces[j].cutsMadeFromThisPiece[made..] == [];
    } else {
      var n := |instances| - 1;
      AssignAllPieceLedger(s, instances[..n], j);
      AssignAllRecordsCuts(s, instances[..n]);
      var mid := AssignAll(s, instances[..n]);
      var r := AssignAll(s, instances);
      assert r == Assign(mid, instances[n]);
      var made := |s.pieces[j].cutsMadeFromThisPiece|;
      var best := BestFit(mid.pieces, instances[n].lengthInches);
      if best.Some? {
        var cut := CutFrom(instances[n], mid.pieces[best.value]);
        assert r.optimizedCuts[|s.optimizedCuts|..] == mid.optimizedCuts[|s.optimizedCuts|..] + [cut];
        if best.value == j {
          var old_ := mid.pieces[j].cutsMadeFromThisPiece;
          assert r.pieces[j].cutsMadeFromThisPiece == old_ + [cut];
          assert (old_ + [cut])[made..] == old_[made..] + [cut];
          assert (old_ + [cut])[..made] == old_[..made];
          SumCutLengthsAppend(old_[made..], cut);
        } else {
          assert r.pieces[j] == mid.pieces[j];
        }
      } else {
        assert r == mid;
      }
    }
  }

  /** For the plan: each piece's remaining length plus the lengths of the
      cuts recorded on it is its board's length in inches, and each of those
      cuts comes from its board, has quantity 1 and is in the plan. */
  lemma PlanPieceLedger(boards: seq<Board>, cuts: seq<DesiredCut>, j: nat)
    requires BoardsConvertible(boards) && CutsConvertible(cuts)
    requires j < |ExpandedBoards(boards)|
    ensures j < |Plan(boards, cuts).pieces|
    ensures Plan(boards, cuts).pieces[j].pieceId == j
    ensures 0 <= Plan(boards, cuts).pieces[j].originalIndex < |boards|
    ensures Plan(boards, cuts).pieces[j].originalBoard == boards[Plan(boards, cuts).pieces[j].originalIndex]
    ensures Plan(boards, cuts).pieces[j].originalBoard.LengthInInches().Success?
    ensures Plan(boards, cuts).pieces[j].currentLengthInches
          + SumCutLengths(Plan(boards, cuts).pieces[j].cutsMadeFromThisPiece)
         == Plan(boards, cuts).pieces[j].originalBoard.LengthInInches().value
    ensures forall c :: c in Plan(boards, cuts).pieces[j].cutsMadeFromThisPiece ==>
      && c.quantityToCut == 1
      && c.sourceBoard == Plan(boards, cuts).pieces[j].originalBoard
      && c.sourceBoardOriginalIndex == Plan(boards, cuts).pieces[j].originalIndex
      && c in Plan(boards, cuts).optimizedCuts
  {
    ExpandedBoardsInOrder(boards);
    var start := PlanState(ExpandedBoards(boards), [], 0);
    AssignAllPieceLedger(start, CutInstances(cuts), j);
    assert Plan(boards, cuts) == AssignAll(start, CutInstances(cuts));
    assert Plan(boards, cuts).optimizedCuts[0..] == Plan(boards, cuts).optimizedCuts;
    assert Plan(boards, cuts).pieces[j].cutsMadeFromThisPiece[0..] == Plan(boards, cuts).pieces[j].cutsMadeFromThisPiece;
  }

  // ---------------------------------------------------------------------
  // Shortfall is over totals

  /** Two 4 ft boards and one 5 ft cut: 96 inches are available and 60 are
      wanted, so no additional material is reported, yet no piece is long
      enough and the cut is not made. */
  lemma ShortfallIgnoresUnplacedCuts()
    ensures var boards := [Board(1, 4.0, "ft", 2)];
      var cuts := [DesiredCut(1, 5.0, "ft", 1)];
      && BoardsConvertible(boards) && CutsConvertible(cuts)
      && TotalAvailable(boards) == 96.0
      && TotalDesired(cuts) == 60.0
      && UnitConverter.Max0(TotalDesired(cuts) - TotalAvailable(boards)) == 0.0
      && |CutInstances(cuts)| == 1
      && Plan(boards, cuts).optimizedCuts == []
  {
    var boards := [Board(1, 4.0, "ft", 2)];
    var cuts := [DesiredCut(1, 5.0, "ft", 1)];
    assert UnitConverter.ToLower("ft") == "ft";
    assert boards[0].LengthInInches() == Success(48.0);
    assert cuts[0].LengthInInches() == Success(60.0);
    assert boards[..0] == [];
    var piece0 := BoardPiece(boards[0], 0, 48.0, 0, []);
    var piece1 := BoardPiece(boards[0], 0, 48.0, 1, []);
    assert ExpandedBoards(boards) == [piece0, piece1];
    assert SortedCuts(cuts) == cuts;
    var instance := CutInstance(cuts[0], 60.0, 0);
    assert CutInstances(cuts) == [instance];
    assert BestFit([piece0, piece1], 60.0) == None;
    assert Plan(boards, cuts) == PlanState([piece0, piece1], [], 0);
  }
}
