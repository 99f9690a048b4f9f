/**
 * The spectrum store (src/data_manager.py): the loaded x and y columns and
 * the latest smoothed and baseline-corrected y, each possibly absent.
 *
 * Reading the CSV file is I/O: `LoadFromCsv` receives what the reader
 * produced, a table of numeric columns or the reader's error.
 */
module DataStore {
  import opened Common

  /** A table as the CSV reader delivers it, column by column. */
  datatype Frame = Frame(columns: seq<seq<Sample>>, rowCount: nat)

  /** Every column has one cell per row. */
  predicate Rectangular(f: Frame)
  {
    forall c :: 0 <= c < |f.columns| ==> |f.columns[c]| == f.rowCount
  }

  datatype ReadError = FileNotFound | EmptyFile | Unparsable | PermissionDenied | BadEncoding | OtherReadError

  datatype LoadError =
    | ReadFailed(reason: ReadError)
    | TooFewColumns(count: nat)
    | NoRows
    | ContainsNaN
    | ContainsInf

  datatype AccessError = NotLoaded | NoSmoothedData | NoCorrectedData | UnavailableData | LengthMismatch

  predicate HasNaN(s: seq<Sample>)
  {
    exists i :: 0 <= i < |s| && s[i] == NaN
  }

  /** `_validate_data`: NaN anywhere is reported before an infinity anywhere. */
  function ValidateData(x: seq<Sample>, y: seq<Sample>): (r: Option<LoadError>)
    ensures r.None? <==> AllFinite(x) && AllFinite(y)
    ensures r == Some(ContainsNaN) <==> HasNaN(x) || HasNaN(y)
  {
    if HasNaN(x) || HasNaN(y) then Some(ContainsNaN)
    else if !AllFinite(x) || !AllFinite(y) then Some(ContainsInf)
    else None
  }

  class DataManager {
    var x: Option<seq<real>>
    var y: Option<seq<real>>
    var smoothed: Option<seq<real>>
    var corrected: Option<seq<real>>

    /** x and y are loaded together, as two columns of the same non-empty table. */
    ghost predicate Valid()
      reads this
    {
      && (x.Some? <==> y.Some?)
      && (x.Some? ==> |x.value| == |y.value| && |x.value| > 0)
    }

    constructor ()
      ensures Valid()
      ensures x.None? && y.None? && smoothed.None? && corrected.None?
    {
      x, y, smoothed, corrected := None, None, None, None;
    }

    /** `load_from_csv` */
    method LoadFromCsv(read: Result<Frame, ReadError>) returns (ok: bool, error: Option<LoadError>)
      requires Valid()
      requires read.Ok? ==> Rectangular(read.value)
      modifies this
      ensures Valid()
      ensures ok <==> error.None?
      ensures read.Err? ==> error == Some(ReadFailed(read.error)) && unchanged(this)
      ensures read.Ok? && |read.value.columns| < 2 ==>
        error == Some(TooFewColumns(|read.value.columns|)) && unchanged(this)
      ensures read.Ok? && |read.value.columns| >= 2 && read.value.rowCount == 0 ==>
        error == Some(NoRows) && unchanged(this)
      ensures read.Ok? && |read.value.columns| >= 2 && read.value.rowCount > 0 ==>
        var cx, cy := read.value.columns[0], read.value.columns[1];
        && error == ValidateData(cx, cy)
        // a rejected table clears x and y but leaves the processed data alone
        && (!ok ==> x.None? && y.None? && smoothed == old(smoothed) && corrected == old(corrected))
        && (ok ==> x == Some(Values(cx)) && y == Some(Values(cy)) && smoothed.None? && corrected.None?)
    {
      if read.Err? {
        return false, Some(ReadFailed(read.error));
      }
      var frame := read.value;
      if |frame.columns| < 2 {
        return false, Some(TooFewColumns(|frame.columns|));
      }
      if frame.rowCount == 0 {
        return false, Some(NoRows);
      }
      var cx, cy := frame.columns[0], frame.columns[1];
      var invalid := ValidateData(cx, cy);
      if invalid.Some? {
        x, y := None, None;
        return false, invalid;
      }
      x, y := Some(Values(cx)), Some(Values(cy));
      smoothed, corrected := None, None;
      return true, None;
    }

    /** `check_data_loaded` */
    function CheckDataLoaded(dataType: string): (r: Option<AccessError>)
      reads this
      ensures r.None? <==>
        HasData() && (dataType == "smoothed" ==> smoothed.Some?) && (dataType == "corrected" ==> corrected.Some?)
      ensures !HasData() ==> r == Some(NotLoaded)
    {
      if x.None? || y.None? then Some(NotLoaded)
      else if dataType == "smoothed" && smoothed.None? then Some(NoSmoothedData)
      else if dataType == "corrected" && corrected.None? then Some(NoCorrectedData)
      else None
    }

    /** `get_data`: any other name selects the original y. */
    function GetData(dataType: string): (r: Option<seq<real>>)
      reads this
      ensures dataType == "smoothed" ==> r == smoothed
      ensures dataType == "corrected" ==> r == corrected
      ensures dataType != "smoothed" && dataType != "corrected" ==> r == y
    {
      if dataType == "smoothed" then smoothed
      else if dataType == "corrected" then corrected
      else y
    }

    /** `set_smoothed_data` */
    method SetSmoothedData(data: seq<real>)
      requires Valid()
      modifies this
      ensures Valid()
      ensures smoothed == Some(data)
      ensures x == old(x) && y == old(y) && corrected == old(corrected)
    {
      smoothed := Some(data);
    }

    /** `set_corrected_data` */
    method SetCorrectedData(data: seq<real>)
      requires Valid()
      modifies this
      ensures Valid()
      ensures corrected == Some(data)
      ensures x == old(x) && y == old(y) && smoothed == old(smoothed)
    {
      corrected := Some(data);
    }

    /** `has_data` */
    predicate HasData()
      reads this
    {
      x.Some? && y.Some?
    }

    /** `get_data_length` */
    function GetDataLength(): (n: nat)
      reads this
      ensures x.None? ==> n == 0
      ensures x.Some? ==> n == |x.value|
      ensures Valid() && HasData() ==> n == |y.value| && n > 0
    {
      if x.Some? then |x.value| else 0
    }

    /** `get_data_range` */
    function GetDataRange(): (r: (real, real))
      reads this
      requires Valid()
      ensures x.None? ==> r == (0.0, 0.0)
      ensures x.Some? ==> r.0 in x.value && r.1 in x.value && r.0 <= r.1
      ensures x.Some? ==> forall i :: 0 <= i < |x.value| ==> r.0 <= x.value[i] <= r.1
    {
      if x.Some? then (Min(x.value), Max(x.value)) else (0.0, 0.0)
    }

    /**
     * The two columns `export_to_csv` writes: x and the chosen y, row by row.
     * Writing the file is left to the caller.
     */
    function ExportTable(dataType: string): (r: Result<seq<(real, real)>, AccessError>)
      reads this
      ensures r.Ok? ==> CheckDataLoaded(dataType).None? && GetData(dataType).Some?
      ensures r.Ok? ==> |r.value| == |x.value| == |GetData(dataType).value|
      ensures r.Ok? ==> forall i :: 0 <= i < |r.value| ==> r.value[i] == (x.value[i], GetData(dataType).value[i])
      // a failed check is reported as is
      ensures CheckDataLoaded(dataType).Some? ==> r == Err(CheckDataLoaded(dataType).value)
    {
      match CheckDataLoaded(dataType)
      case Some(e) => Err(e)
      case None =>
        match GetData(dataType)
        case None => Err(UnavailableData)
        case Some(d) =>
          var xs := x.value;
          if |d| != |xs| then Err(LengthMismatch)
          else Ok(seq(|d|, i requires 0 <= i < |d| => (xs[i], d[i])))
    }

    /**
     * After a passed check the export succeeds exactly when the chosen data
     * has x's length; otherwise the length mismatch is the error.
     */
    lemma ExportSucceedsIff(dataType: string)
      requires CheckDataLoaded(dataType).None?
      ensures GetData(dataType).Some? && x.Some?
      ensures ExportTable(dataType).Ok? <==> |GetData(dataType).value| == |x.value|
      ensures ExportTable(dataType).Err? ==> ExportTable(dataType) == Err(LengthMismatch)
    {
    }

    /** Once the check passes, the chosen data is present: the second guard of `export_to_csv` never fires. */
    lemma CheckedDataPresent(dataType: string)
      requires CheckDataLoaded(dataType).None?
      ensures GetData(dataType).Some?
      ensures ExportTable(dataType) != Err(UnavailableData)
    {
    }
  }
}
