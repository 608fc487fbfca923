/** `FileDataLoader.load_data`: picks the parser from the file name's suffix,
    compared case-insensitively, and reports every failure as an absent frame
    with a log line instead of raising. The three pandas readers are
    parameters. */
module DataLoader {
  import opened Common

  datatype FileType = Csv | Xlsx | Json | Unknown

  datatype Parsers = Parsers(
    /** `pd.read_csv`: the frame, or the text of its exception. */
    readCsv: seq<bv8> -> Result<Frame, string>,
    /** `pd.read_excel(..., engine='openpyxl')`. */
    readExcel: seq<bv8> -> Result<Frame, string>,
    /** `pd.read_json`. */
    readJson: seq<bv8> -> Result<Frame, string>,
    /** Whether `import openpyxl` succeeds. */
    openpyxlInstalled: bool)

  datatype LoaderLog =
    | DetectedFileType(fileType: FileType)
    | Parsed(fileType: FileType, rows: nat, columns: nat)
    | OpenpyxlRequired
    | UnsupportedFileType(fileName: string)
    | EmptyDataFrame
    | MissingValuesIn(names: seq<string>)
    | ColumnTypes(types: seq<(string, DType)>)
    | LoadError(message: string)

  /** `str.lower` on the letters that can appear in the recognised suffixes:
      ASCII capitals map to small letters, everything else is kept. */
  function Lower(s: string): (r: string)
    ensures |r| == |s|
    ensures forall k :: 0 <= k < |s| ==> r[k] == (if 'A' <= s[k] <= 'Z' then (s[k] as int + 32) as char else s[k])
  {
    seq(|s|, k requires 0 <= k < |s| => if 'A' <= s[k] <= 'Z' then (s[k] as int + 32) as char else s[k])
  }

  /** The type detected from the name, the first matching suffix winning. */
  function FileTypeOf(name: string): FileType
  {
    var lower := Lower(name);
    if HasSuffix(lower, ".csv") then Csv
    else if HasSuffix(lower, ".xlsx") then Xlsx
    else if HasSuffix(lower, ".json") then Json
    else Unknown
  }

  /** The detection ignores case: upper-case and mixed-case names are read
      like their lower-case spelling. */
  lemma {:induction false} DetectionIgnoresCase(name: string)
    ensures FileTypeOf(Lower(name)) == FileTypeOf(name)
  {
    assert Lower(Lower(name)) == Lower(name);
  }

  /** The three suffixes exclude one another (they end in different letters), so
      the order of the tests does not matter: each type is detected exactly when
      the lower-cased name ends with its suffix. */
  lemma DetectedExactlyBySuffix(name: string)
    ensures FileTypeOf(name) == Csv <==> HasSuffix(Lower(name), ".csv")
    ensures FileTypeOf(name) == Xlsx <==> HasSuffix(Lower(name), ".xlsx")
    ensures FileTypeOf(name) == Json <==> HasSuffix(Lower(name), ".json")
    ensures FileTypeOf(name) == Unknown <==>
      !HasSuffix(Lower(name), ".csv") && !HasSuffix(Lower(name), ".xlsx") && !HasSuffix(Lower(name), ".json")
  {
    var lower := Lower(name);
    if |lower| > 0 {
      var last := lower[|lower| - 1];
      assert HasSuffix(lower, ".csv") ==> last == "csv"[2];
      assert HasSuffix(lower, ".xlsx") ==> last == "xlsx"[3];
      assert HasSuffix(lower, ".json") ==> last == "json"[3];
    }
  }

  /** `pandas.DataFrame.empty`: no rows or no columns. */
  predicate IsEmpty(df: Frame)
  {
    df.rowCount == 0 || df.columns == []
  }

  /** The names of the columns holding a missing cell, in column order. */
  function ColumnsWithMissing(cols: seq<Column>): (r: seq<string>)
    ensures forall n :: n in r ==> exists c :: c in cols && c.name == n && Missing in c.cells
    ensures forall c :: c in cols && Missing in c.cells ==> c.name in r
    ensures |r| <= |cols|
  {
    if cols == [] then []
    else
      var rest := ColumnsWithMissing(cols[..|cols| - 1]);
      var last := cols[|cols| - 1];
      assert cols == cols[..|cols| - 1] + [last];
      if Missing in last.cells then rest + [last.name] else rest
  }

  function ColumnTypesOf(cols: seq<Column>): (r: seq<(string, DType)>)
    ensures |r| == |cols| && forall k :: 0 <= k < |cols| ==> r[k] == (cols[k].name, cols[k].dtype)
  {
    seq(|cols|, k requires 0 <= k < |cols| => (cols[k].name, cols[k].dtype))
  }

  /** The reader for a detected type. */
  function Reader(t: FileType, parsers: Parsers): seq<bv8> -> Result<Frame, string>
    requires t != Unknown
  {
    match t
    case Csv => parsers.readCsv
    case Xlsx => parsers.readExcel
    case Json => parsers.readJson
  }

  /** The branches assigning `file_type`. */
  method DetectFileType(name: string) returns (fileType: FileType)
    ensures fileType == FileTypeOf(name)
  {
    var lower := Lower(name);
    fileType := Unknown;
    if HasSuffix(lower, ".csv") {
      fileType := Csv;
    } else if HasSuffix(lower, ".xlsx") {
      fileType := Xlsx;
    } else if HasSuffix(lower, ".json") {
      fileType := Json;
    }
  }

  /** The lines logged after a successful parse: the empty-frame error, or the
      missing-values warning when some column has a missing cell, then the column
      types. */
  function Checks(f: Frame): (r: seq<LoaderLog>)
    ensures IsEmpty(f) ==> r == [EmptyDataFrame]
    ensures !IsEmpty(f) ==> |r| >= 1 && r[|r| - 1] == ColumnTypes(ColumnTypesOf(f.columns))
    ensures !IsEmpty(f) ==>
      (MissingValuesIn(ColumnsWithMissing(f.columns)) in r <==> exists c :: c in f.columns && Missing in c.cells)
  {
    if IsEmpty(f) then [EmptyDataFrame]
    else
      var missing := ColumnsWithMissing(f.columns);
      assert missing != [] ==> missing[0] in missing;
      (if missing == [] then [] else [MissingValuesIn(missing)]) + [ColumnTypes(ColumnTypesOf(f.columns))]
  }

  /** The checks on a parsed frame: an empty frame is dropped, missing values
      only add a warning. */
  method CheckFrame(f: Frame) returns (df: Option<Frame>, logs: seq<LoaderLog>)
    ensures df == (if IsEmpty(f) then None else Some(f)) && logs == Checks(f)
  {
    if IsEmpty(f) {
      return None, [EmptyDataFrame];
    }
    logs := [];
    var missing := ColumnsWithMissing(f.columns);
    if missing != [] {
      logs := logs + [MissingValuesIn(missing)];
    }
    logs := logs + [ColumnTypes(ColumnTypesOf(f.columns))];
    df := Some(f);
  }

  /** The `try` block for a detected type: what follows the first log line. */
  method ReadFile(t: FileType, content: seq<bv8>, name: string, parsers: Parsers)
    returns (df: Option<Frame>, logs: seq<LoaderLog>)
    ensures |logs| >= 1
    ensures t == Unknown ==> df == None && logs == [UnsupportedFileType(name)]
    ensures t == Xlsx && !parsers.openpyxlInstalled ==> df == None && logs == [OpenpyxlRequired]
    ensures t != Unknown && (t == Xlsx ==> parsers.openpyxlInstalled) ==>
      match Reader(t, parsers)(content)
      case Err(e) => df == None && logs == [LoadError(e)]
      case Ok(f) => df == (if IsEmpty(f) then None else Some(f)) && logs == [Parsed(t, f.rowCount, |f.columns|)] + Checks(f)
  {
    var parsed: Result<Frame, string>;
    if t == Csv {
      parsed := parsers.readCsv(content);
    } else if t == Xlsx {
      if !parsers.openpyxlInstalled {
        return None, [OpenpyxlRequired];
      }
      parsed := parsers.readExcel(content);
    } else if t == Json {
      parsed := parsers.readJson(content);
    } else {
      return None, [UnsupportedFileType(name)];
    }
    if parsed.Err? {
      return None, [LoadError(parsed.error)];
    }
    var f := parsed.value;
    logs := [Parsed(t, f.rowCount, |f.columns|)];
    var checked;
    df, checked := CheckFrame(f);
    logs := logs + checked;
  }

  /** Loads the file. The first log line always names the detected type. No frame
      comes back for an unknown type, for Excel without openpyxl, for a reader
      exception or for an empty frame, each with its log line; a frame that does
      come back is the reader's and is not empty. */
  method LoadData(content: seq<bv8>, name: string, parsers: Parsers) returns (df: Option<Frame>, logs: seq<LoaderLog>)
    ensures |logs| >= 2 && logs[0] == DetectedFileType(FileTypeOf(name))
    ensures FileTypeOf(name) == Unknown ==> df == None && logs == [DetectedFileType(Unknown), UnsupportedFileType(name)]
    ensures FileTypeOf(name) == Xlsx && !parsers.openpyxlInstalled ==>
      df == None && logs == [DetectedFileType(Xlsx), OpenpyxlRequired]
    ensures FileTypeOf(name) != Unknown && (FileTypeOf(name) == Xlsx ==> parsers.openpyxlInstalled) ==>
      var t := FileTypeOf(name);
      match Reader(t, parsers)(content)
      case Err(e) => df == None && logs == [DetectedFileType(t), LoadError(e)]
      case Ok(f) =>
        df == (if IsEmpty(f) then None else Some(f)) &&
        logs == [DetectedFileType(t), Parsed(t, f.rowCount, |f.columns|)] + Checks(f)
  {
    logs := [];
    var fileType := DetectFileType(name);
    logs := logs + [DetectedFileType(fileType)];
    var rest;
    df, rest := ReadFile(fileType, content, name, parsers);
    logs := logs + rest;
  }
}
