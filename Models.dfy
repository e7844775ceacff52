/** The records the optimizer reads and produces: board and cut
    specifications (lumber-app/models) and the plan result types
    (lumber-app/Services/ICuttingOptimizer.cs). */
module Models {
  import opened Results
  import UnitConverter

  /** Available stock: `quantity` identical boards of the given length. */
  datatype Board = Board(id: int, length: real, lengthUnit: string, quantity: int)
  {
    /** The board's length converted to inches; an unknown unit fails. */
    function LengthInInches(): (r: Result<real>)
      ensures r.Failure? ==> r.error == UnitConverter.ToInchesError
      ensures r.Success? ==> (length > 0.0 ==> r.value > 0.0)
    {
      UnitConverter.ConvertToInches(length, lengthUnit)
    }
  }

  /** Demand: `quantity` identical pieces of the given length. */
  datatype DesiredCut = DesiredCut(id: int, length: real, lengthUnit: string, quantity: int)
  {
    function LengthInInches(): (r: Result<real>)
      ensures r.Failure? ==> r.error == UnitConverter.ToInchesError
      ensures r.Success? ==> (length > 0.0 ==> r.value > 0.0)
    {
      UnitConverter.ConvertToInches(length, lengthUnit)
    }
  }

  /** One cut taken from one board piece. */
  datatype OptimizedCut = OptimizedCut(
    originalDesiredCut: DesiredCut,
    quantityToCut: int,
    sourceBoard: Board,
    sourceBoardOriginalIndex: int,
    cutLengthToInches: real)

  datatype CutPlanResult = CutPlanResult(
    optimizedCuts: seq<OptimizedCut>,
    remainingBoards: seq<Board>,
    totalWasteInches: real,
    additionalMaterialNeededInches: real,
    message: string)
  {
    /** The shortfall in feet and inches, as the page prints it: whole feet
        and hundredths of an inch, within 0.005 inch of the shortfall. */
    function AdditionalMaterialNeededFormatted(): (r: UnitConverter.FeetAndInches)
      ensures r.feet >= 0 && 0.0 <= r.inches <= 12.0
      ensures -0.005 <= 12.0 * r.feet as real + r.inches - UnitConverter.Max0(additionalMaterialNeededInches) <= 0.005
    {
      UnitConverter.FormatInchesToFeetAndInches(additionalMaterialNeededInches)
    }

    /** The waste in feet and inches, printed the same way. */
    function TotalWasteFormatted(): (r: UnitConverter.FeetAndInches)
      ensures r.feet >= 0 && 0.0 <= r.inches <= 12.0
      ensures -0.005 <= 12.0 * r.feet as real + r.inches - UnitConverter.Max0(totalWasteInches) <= 0.005
    {
      UnitConverter.FormatInchesToFeetAndInches(totalWasteInches)
    }
  }
}
