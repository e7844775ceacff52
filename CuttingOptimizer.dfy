/** The greedy cutting planner of SimpleCuttingOptimizer.OptimizeCuts
    (lumber-app/Services/SimpleCuttingOptimizer.cs): expand boards and cuts
    into unit pieces, give each cut instance, longest first, to the board
    piece it fits most tightly, and report totals. */
module CuttingOptimizer {
  import opened Results
  import opened Models
  import UnitConverter
  import StableSort

  const PlaceholderMessage: string :=
    "Optimizer logic is a placeholder. Actual cutting plan not yet generated."

  /** MutableBoardPiece: one physical board, its position in the input list,
      its running id, the length still left on it and the cuts taken from it. */
  datatype BoardPiece = BoardPiece(
    originalBoard: Board,
    originalIndex: int,
    currentLengthInches: real,
    pieceId: int,
    cutsMadeFromThisPiece: seq<OptimizedCut>)

  /** One unit of demand: the cut specification, its length in inches and
      its running id. */
  datatype CutInstance = CutInstance(originalCut: DesiredCut, lengthInches: real, cutId: int)

  /** How often `for (int i = 0; i < quantity; i++)` runs. */
  function Copies(quantity: int): nat {
    if quantity > 0 then quantity else 0
  }

  // ---------------------------------------------------------------------
  // Board expansion

  /** Every board that is expanded at all has a unit the converter knows. */
  predicate BoardsConvertible(boards: seq<Board>) {
    forall j :: 0 <= j < |boards| && boards[j].quantity > 0 ==> boards[j].LengthInInches().Success?
  }

  /** The `count` pieces of `board`, the first of them with id `firstId`. */
  function BoardBlock(board: Board, index: int, firstId: int, count: nat): (r: seq<BoardPiece>)
    requires count > 0 ==> board.LengthInInches().Success?
    ensures |r| == count
  {
    seq(count, i requires 0 <= i < count =>
      BoardPiece(board, index, board.LengthInInches().value, firstId + i, []))
  }

  lemma BoardBlockGrows(board: Board, index: int, firstId: int, count: nat)
    requires board.LengthInInches().Success?
    ensures BoardBlock(board, index, firstId, count + 1)
         == BoardBlock(board, index, firstId, count) + [BoardPiece(board, index, board.LengthInInches().value, firstId + count, [])]
  {
  }

  /** All board pieces, spec by spec in input order, ids running from 0. */
  function ExpandedBoards(boards: seq<Board>): seq<BoardPiece>
    requires BoardsConvertible(boards)
  {
    if boards == [] then []
    else
      var n := |boards| - 1;
      var before := ExpandedBoards(boards[..n]);
      before + BoardBlock(boards[n], n, |before|, Copies(boards[n].quantity))
  }

  /** One more board spec: its pieces follow those of the specs before it. */
  lemma ExpandedBoardsGrows(boards: seq<Board>, n: nat)
    requires n < |boards| && BoardsConvertible(boards[..n])
    requires boards[n].quantity > 0 ==> boards[n].LengthInInches().Success?
    ensures BoardsConvertible(boards[..n + 1])
    ensures ExpandedBoards(boards[..n + 1])
         == ExpandedBoards(boards[..n]) + BoardBlock(boards[n], n, |ExpandedBoards(boards[..n])|, Copies(boards[n].quantity))
  {
    assert boards[..n + 1][..n] == boards[..n];
  }

  function BoardCounts(boards: seq<Board>): (r: seq<int>)
    ensures |r| == |boards|
  {
    seq(|boards|, j requires 0 <= j < |boards| => Copies(boards[j].quantity))
  }

  /** The id of the first piece of board `j`: the pieces of the boards before it. */
  function FirstPieceOf(boards: seq<Board>, j: nat): nat
    requires j <= |boards|
  {
    StableSort.SumNonNegative(BoardCounts(boards)[..j]);
    StableSort.Sum(BoardCounts(boards)[..j])
  }

  // ---------------------------------------------------------------------
  // Cut expansion

  predicate CutsConvertible(cuts: seq<DesiredCut>) {
    forall j :: 0 <= j < |cuts| ==> cuts[j].LengthInInches().Success?
  }

  lemma CutsConvertiblePrefix(cuts: seq<DesiredCut>, n: nat)
    requires CutsConvertible(cuts) && n <= |cuts|
    ensures CutsConvertible(cuts[..n])
  {
  }

  /** The sort keys: each cut's length in inches. */
  function CutKeys(cuts: seq<DesiredCut>): (keys: seq<real>)
    requires CutsConvertible(cuts)
    ensures |keys| == |cuts|
  {
    seq(|cuts|, j requires 0 <= j < |cuts| => cuts[j].LengthInInches().value)
  }

  /** `desiredCuts.OrderByDescending(c => c.LengthInInches)`. */
  function SortedCuts(cuts: seq<DesiredCut>): (r: seq<DesiredCut>)
    requires CutsConvertible(cuts)
    ensures |r| == |cuts| && CutsConvertible(r)
    ensures forall p :: 0 <= p < |r| ==> r[p] in cuts
  {
    var order := StableSort.OrderDescending(CutKeys(cuts));
    seq(|order|, p requires 0 <= p < |order| => cuts[order[p]])
  }

  /** The `count` instances of `cut`, the first of them with id `firstId`. */
  function CutBlock(cut: DesiredCut, firstId: int, count: nat): (r: seq<CutInstance>)
    requires cut.LengthInInches().Success?
    ensures |r| == count
  {
    seq(count, i requires 0 <= i < count => CutInstance(cut, cut.LengthInInches().value, firstId + i))
  }

  lemma CutBlockGrows(cut: DesiredCut, firstId: int, count: nat)
    requires cut.LengthInInches().Success?
    ensures CutBlock(cut, firstId, count + 1)
         == CutBlock(cut, firstId, count) + [CutInstance(cut, cut.LengthInInches().value, firstId + count)]
  {
  }

  /** The instances of an already sorted list of cuts, ids running from 0. */
  function InstancesOf(sorted: seq<DesiredCut>): seq<CutInstance>
    requires CutsConvertible(sorted)
  {
    if sorted == [] then []
    else
      var n := |sorted| - 1;
      var before := InstancesOf(sorted[..n]);
      before + CutBlock(sorted[n], |before|, Copies(sorted[n].quantity))
  }

  /** One more cut spec: its instances follow those of the specs before it. */
  lemma InstancesOfGrows(sorted: seq<DesiredCut>, n: nat)
    requires n < |sorted| && CutsConvertible(sorted)
    ensures CutsConvertible(sorted[..n]) && CutsConvertible(sorted[..n + 1])
    ensures InstancesOf(sorted[..n + 1])
         == InstancesOf(sorted[..n]) + CutBlock(sorted[n], |InstancesOf(sorted[..n])|, Copies(sorted[n].quantity))
  {
    CutsConvertiblePrefix(sorted, n);
    CutsConvertiblePrefix(sorted, n + 1);
    assert sorted[..n + 1][..n] == sorted[..n];
  }

  /** The cut instances in processing order. */
  function CutInstances(cuts: seq<DesiredCut>): seq<CutInstance>
    requires CutsConvertible(cuts)
  {
    InstancesOf(SortedCuts(cuts))
  }

  function CutCounts(cuts: seq<DesiredCut>): (r: seq<int>)
    ensures |r| == |cuts|
  {
    seq(|cuts|, j requires 0 <= j < |cuts| => Copies(cuts[j].quantity))
  }

  // ---------------------------------------------------------------------
  // Best fit

  predicate Fits(piece: BoardPiece, length: real) {
    piece.currentLengthInches >= length
  }

  function Slack(piece: BoardPiece, length: real): real {
    piece.currentLengthInches - length
  }

  /** Piece `k` fits, no fitting piece leaves less slack, and every earlier
      fitting piece leaves strictly more. */
  predicate IsBestFit(pieces: seq<BoardPiece>, length: real, k: int) {
    0 <= k < |pieces| && Fits(pieces[k], length) &&
    (forall j :: 0 <= j < |pieces| && Fits(pieces[j], length) ==>
       Slack(pieces[k], length) <= Slack(pieces[j], length)) &&
    (forall j :: 0 <= j < k && Fits(pieces[j], length) ==>
       Slack(pieces[k], length) < Slack(pieces[j], length))
  }

  /** `pieces.Where(fits).OrderBy(slack).FirstOrDefault()`: the earliest
      piece with the least slack among those the cut fits, if any. */
  function BestFit(pieces: seq<BoardPiece>, length: real): (r: Option<nat>)
    ensures r.None? <==> forall j :: 0 <= j < |pieces| ==> !Fits(pieces[j], length)
    ensures r.Some? ==> IsBestFit(pieces, length, r.value)
  {
    if pieces == [] then None
    else
      var last := |pieces| - 1;
      var best := BestFit(pieces[..last], length);
      if Fits(pieces[last], length) &&
         (best.None? || Slack(pieces[last], length) < Slack(pieces[best.value], length))
      then Some(last)
      else best
  }

  // ---------------------------------------------------------------------
  // The assignment loop, one instance at a time

  /** The state the loop updates: the pieces, the cuts made so far, and the
      number of instances fulfilled. */
  datatype PlanState = PlanState(pieces: seq<BoardPiece>, optimizedCuts: seq<OptimizedCut>, fulfilled: nat)

  function CutFrom(instance: CutInstance, piece: BoardPiece): OptimizedCut {
    OptimizedCut(instance.originalCut, 1, piece.originalBoard, piece.originalIndex, instance.lengthInches)
  }

  /** One iteration: the best-fitting piece gives up the instance's length
      and records the cut; the cut is appended to the plan; nothing changes
      when no piece fits. */
  function Assign(s: PlanState, instance: CutInstance): (r: PlanState)
    ensures |r.pieces| == |s.pieces|
  {
    match BestFit(s.pieces, instance.lengthInches)
    case None => s
    case Some(k) =>
      var piece := s.pieces[k];
      var cut := CutFrom(instance, piece);
      var taken := piece.(currentLengthInches := piece.currentLengthInches - instance.lengthInches,
                          cutsMadeFromThisPiece := piece.cutsMadeFromThisPiece + [cut]);
      PlanState(s.pieces[k := taken], s.optimizedCuts + [cut], s.fulfilled + 1)
  }

  /** The loop over all instances, in order. */
  function AssignAll(s: PlanState, instances: seq<CutInstance>): PlanState {
    if instances == [] then s
    else Assign(AssignAll(s, instances[..|instances| - 1]), instances[|instances| - 1])
  }

  /** The state the loop ends in, for given boards and cuts. */
  function Plan(boards: seq<Board>, cuts: seq<DesiredCut>): PlanState
    requires BoardsConvertible(boards) && CutsConvertible(cuts)
  {
    AssignAll(PlanState(ExpandedBoards(boards), [], 0), CutInstances(cuts))
  }

  // ---------------------------------------------------------------------
  // Totals

  function SumCurrentLengths(pieces: seq<BoardPiece>): real {
    if pieces == [] then 0.0 else pieces[0].currentLengthInches + SumCurrentLengths(pieces[1..])
  }

  function SumCutLengths(cuts: seq<OptimizedCut>): real {
    if cuts == [] then 0.0 else SumCutLengths(cuts[..|cuts| - 1]) + cuts[|cuts| - 1].cutLengthToInches
  }

  function SumInstanceLengths(instances: seq<CutInstance>): real {
    if instances == [] then 0.0 else instances[0].lengthInches + SumInstanceLengths(instances[1..])
  }

  /** `allAvailableBoardPieces.Sum(b => b.lengthInches)`. */
  function TotalAvailable(boards: seq<Board>): real
    requires BoardsConvertible(boards)
  {
    SumCurrentLengths(ExpandedBoards(boards))
  }

  /** `allDesiredCutPieces.Sum(c => c.lengthInches)`. */
  function TotalDesired(cuts: seq<DesiredCut>): real
    requires CutsConvertible(cuts)
  {
    SumInstanceLengths(CutInstances(cuts))
  }

  // ---------------------------------------------------------------------
  // The imperative optimizer

  /** The inner loop of the board expansion: `Quantity` pieces of one
      board spec are appended, with running ids; the length conversion
      throws when the unit is unknown. */
  method AddBoardPieces(pieces: seq<BoardPiece>, board: Board, boardIdx: int)
    returns (r: Result<seq<BoardPiece>>)
    ensures r.Success? <==> (board.quantity > 0 ==> board.LengthInInches().Success?)
    ensures r.Failure? ==> r.error == UnitConverter.ToInchesError
    ensures r.Success? ==> r.value == pieces + BoardBlock(board, boardIdx, |pieces|, Copies(board.quantity))
  {
    var extended := pieces;
    var pieceCounter := |pieces|;
    var i := 0;
    while i < board.quantity
      invariant 0 <= i <= Copies(board.quantity)
      invariant i > 0 ==> board.LengthInInches().Success?
      invariant extended == pieces + BoardBlock(board, boardIdx, |pieces|, i)
      invariant pieceCounter == |extended|
    {
      var length := board.LengthInInches();
      if length.Failure? {
        return Failure(length.error);
      }
      BoardBlockGrows(board, boardIdx, |pieces|, i);
      extended := extended + [BoardPiece(board, boardIdx, length.value, pieceCounter, [])];
      pieceCounter := pieceCounter + 1;
      i := i + 1;
    }
    return Success(extended);
  }

  /** The board expansion loop: every board spec, in order, becomes
      `Quantity` pieces carrying the spec's index and a running piece id. */
  method ExpandBoards(availableBoards: seq<Board>) returns (r: Result<seq<BoardPiece>>)
    ensures r.Success? <==> BoardsConvertible(availableBoards)
    ensures r.Failure? ==> r.error == UnitConverter.ToInchesError
    ensures r.Success? ==> r.value == ExpandedBoards(availableBoards)
  {
    var pieces: seq<BoardPiece> := [];
    var boardIdx := 0;
    while boardIdx < |availableBoards|
      invariant 0 <= boardIdx <= |availableBoards|
      invariant BoardsConvertible(availableBoards[..boardIdx])
      invariant pieces == ExpandedBoards(availableBoards[..boardIdx])
    {
      var board := availableBoards[boardIdx];
      var added := AddBoardPieces(pieces, board, boardIdx);
      if added.Failure? {
        assert !BoardsConvertible(availableBoards) by {
          assert availableBoards[boardIdx].quantity > 0;
        }
        return Failure(added.error);
      }
      ExpandedBoardsGrows(availableBoards, boardIdx);
      pieces := added.value;
      boardIdx := boardIdx + 1;
    }
    assert availableBoards[..boardIdx] == availableBoards;
    return Success(pieces);
  }

  /** The inner loop of the cut expansion: `Quantity` instances of one cut
      spec are appended, with running ids. */
  method AddCutInstances(instances: seq<CutInstance>, cut: DesiredCut) returns (r: seq<CutInstance>)
    requires cut.LengthInInches().Success?
    ensures r == instances + CutBlock(cut, |instances|, Copies(cut.quantity))
  {
    r := instances;
    var cutIdx := |instances|;
    var i := 0;
    while i < cut.quantity
      invariant 0 <= i <= Copies(cut.quantity)
      invariant r == instances + CutBlock(cut, |instances|, i)
      invariant cutIdx == |r|
    {
      CutBlockGrows(cut, |instances|, i);
      r := r + [CutInstance(cut, cut.LengthInInches().value, cutIdx)];
      cutIdx := cutIdx + 1;
      i := i + 1;
    }
  }

  /** The cut expansion loop over the cuts sorted longest first: every cut
      spec becomes `Quantity` instances with a running id. */
  method ExpandCuts(desiredCuts: seq<DesiredCut>) returns (r: Result<seq<CutInstance>>)
    ensures r.Success? <==> CutsConvertible(desiredCuts)
    ensures r.Failure? ==> r.error == UnitConverter.ToInchesError
    ensures r.Success? ==> r.value == CutInstances(desiredCuts)
  {
    if !CutsConvertible(desiredCuts) {
      return Failure(UnitConverter.ToInchesError);
    }
    var sorted := SortedCuts(desiredCuts);
    var instances: seq<CutInstance> := [];
    for p := 0 to |sorted|
      invariant CutsConvertible(sorted[..p])
      invariant instances == InstancesOf(sorted[..p])
    {
      InstancesOfGrows(sorted, p);
      instances := AddCutInstances(instances, sorted[p]);
    }
    assert sorted[..|sorted|] == sorted;
    return Success(instances);
  }

  /** The loop over the cut instances: each one goes to the best-fitting
      piece, which is shortened in place and records the cut; instances that
      fit nowhere are skipped. */
  method AssignInstances(tempBoardPieces: array<BoardPiece>, allDesiredCutPieces: seq<CutInstance>)
    returns (optimizedCuts: seq<OptimizedCut>, desiredCutsFulfilled: nat)
    modifies tempBoardPieces
    ensures PlanState(tempBoardPieces[..], optimizedCuts, desiredCutsFulfilled)
         == AssignAll(PlanState(old(tempBoardPieces[..]), [], 0), allDesiredCutPieces)
  {
    optimizedCuts := [];
    desiredCutsFulfilled := 0;
    ghost var start := PlanState(tempBoardPieces[..], [], 0);
    for n := 0 to |allDesiredCutPieces|
      invariant PlanState(tempBoardPieces[..], optimizedCuts, desiredCutsFulfilled)
                == AssignAll(start, allDesiredCutPieces[..n])
    {
      assert allDesiredCutPieces[..n + 1][..n] == allDesiredCutPieces[..n];
      var desiredCutItem := allDesiredCutPieces[n];
      ghost var prev := PlanState(tempBoardPieces[..], optimizedCuts, desiredCutsFulfilled);
      var bestFitBoard := BestFit(tempBoardPieces[..], desiredCutItem.lengthInches);
      if bestFitBoard.Some? {
        var k := bestFitBoard.value;
        var piece := tempBoardPieces[k];
        var newOptimizedCut := OptimizedCut(desiredCutItem.originalCut, 1, piece.originalBoard,
                                            piece.originalIndex, desiredCutItem.lengthInches);
        optimizedCuts := optimizedCuts + [newOptimizedCut];
        tempBoardPieces[k] := piece.(
          currentLengthInches := piece.currentLengthInches - desiredCutItem.lengthInches,
          cutsMadeFromThisPiece := piece.cutsMadeFromThisPiece + [newOptimizedCut]);
        desiredCutsFulfilled := desiredCutsFulfilled + 1;
        assert tempBoardPieces[..] == prev.pieces[k := tempBoardPieces[k]];
      }
      assert PlanState(tempBoardPieces[..], optimizedCuts, desiredCutsFulfilled) == Assign(prev, desiredCutItem);
    }
    assert allDesiredCutPieces[..|allDesiredCutPieces|] == allDesiredCutPieces;
  }

  /** SimpleCuttingOptimizer.OptimizeCuts. An unknown unit anywhere is the
      converter's `ArgumentException`. Otherwise the cuts are those of the
      best-fit loop, the shortfall and waste come from the two totals, no
      remaining boards are reported, and the message is the placeholder. */
  method OptimizeCuts(availableBoards: seq<Board>, desiredCuts: seq<DesiredCut>)
    returns (r: Result<CutPlanResult>)
    ensures r.Success? <==> BoardsConvertible(availableBoards) && CutsConvertible(desiredCuts)
    ensures r.Failure? ==> r.error == UnitConverter.ToInchesError
    ensures r.Success? ==>
      var desired := TotalDesired(desiredCuts);
      var available := TotalAvailable(availableBoards);
      && r.value.optimizedCuts == Plan(availableBoards, desiredCuts).optimizedCuts
      && r.value.remainingBoards == []
      && r.value.additionalMaterialNeededInches == UnitConverter.Max0(desired - available)
      && r.value.totalWasteInches == (if desired < available then available - desired else 0.0)
      && r.value.message == PlaceholderMessage
    ensures r.Success? ==>
      && r.value.additionalMaterialNeededInches >= 0.0
      && r.value.totalWasteInches >= 0.0
      && (r.value.additionalMaterialNeededInches == 0.0 || r.value.totalWasteInches == 0.0)
  {
    var expandedBoards := ExpandBoards(availableBoards);
    if expandedBoards.Failure? {
      return Failure(expandedBoards.error);
    }
    var allAvailableBoardPieces := expandedBoards.value;
    var expandedCuts := ExpandCuts(desiredCuts);
    if expandedCuts.Failure? {
      return Failure(expandedCuts.error);
    }
    var allDesiredCutPieces := expandedCuts.value;

    var tempBoardPieces := new BoardPiece[|allAvailableBoardPieces|](
      i requires 0 <= i < |allAvailableBoardPieces| => allAvailableBoardPieces[i]);

    var totalDesiredLength := SumInstanceLengths(allDesiredCutPieces);
    var totalAvailableLength := SumCurrentLengths(allAvailableBoardPieces);
    var additionalMaterialNeededInches := UnitConverter.Max0(totalDesiredLength - totalAvailableLength);

    assert tempBoardPieces[..] == allAvailableBoardPieces;
    var optimizedCuts, desiredCutsFulfilled := AssignInstances(tempBoardPieces, allDesiredCutPieces);

    var totalWasteInches := UnitConverter.Max0(totalAvailableLength - totalDesiredLength);
    if additionalMaterialNeededInches > 0.0 {
      totalWasteInches := 0.0;
    }
    return Success(CutPlanResult(optimizedCuts, [], totalWasteInches,
                                 additionalMaterialNeededInches, PlaceholderMessage));
  }
}
