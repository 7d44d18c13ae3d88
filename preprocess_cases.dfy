/**
  Preparation of the raw case table: column-name normalisation, the date filter, the
  `mo_text` narrative and the final column selection with the "nan" to "unknown" rewrite.

  A data frame is a list of column names and a list of rows, each row holding one cell per
  column. A missing cell (pandas NaN) is `None`. Reading and writing CSV files is not part of
  the model, and date parsing is a parameter: `parse` gives the day a `date_occ` cell denotes,
  or None when `pd.to_datetime(..., errors="coerce")` would yield NaT.
*/
module Preprocess {
  import opened Wrappers
  import opened Cases
  import opened Sorting

  // ---------------------------------------------------------------------------
  // Column names: strip, lower-case, ' ' to '_', drop '.'
  // ---------------------------------------------------------------------------

  /** Python's `str.isspace` on ASCII: space, tab, line feed, vertical tab, form feed, carriage return and the separators 0x1C to 0x1F. */
  predicate IsSpace(c: char)
  {
    c == ' ' || ('\t' <= c <= '\r') || ('\U{1C}' <= c <= '\U{1F}')
  }

  /** Drops the leading white space: the result is the suffix left after the longest all-space prefix. */
  function TrimLeft(s: string): (r: string)
    ensures |r| <= |s| && r == s[|s| - |r|..]
    ensures forall i :: 0 <= i < |s| - |r| ==> IsSpace(s[i])
    ensures r == [] || !IsSpace(r[0])
  {
    if s != [] && IsSpace(s[0]) then TrimLeft(s[1..]) else s
  }

  /** Drops the trailing white space: the result is the prefix left before the longest all-space suffix. */
  function TrimRight(s: string): (r: string)
    ensures |r| <= |s| && r == s[..|r|]
    ensures forall i :: |r| <= i < |s| ==> IsSpace(s[i])
    ensures r == [] || !IsSpace(r[|r| - 1])
  {
    if s != [] && IsSpace(s[|s| - 1]) then TrimRight(s[..|s| - 1]) else s
  }

  /** `str.strip()`. */
  function Strip(s: string): string
  {
    TrimRight(TrimLeft(s))
  }

  predicate IsUpper(c: char)
  {
    'A' <= c <= 'Z'
  }

  function LowerChar(c: char): (r: char)
    ensures !IsUpper(r)
    ensures !IsUpper(c) ==> r == c
  {
    if IsUpper(c) then (c as int + 32) as char else c
  }

  /** `str.lower()` on ASCII letters. */
  function Lower(s: string): (r: string)
    ensures |r| == |s| && forall i :: 0 <= i < |s| ==> r[i] == LowerChar(s[i])
  {
    seq(|s|, i requires 0 <= i < |s| => LowerChar(s[i]))
  }

  /** `str.replace(" ", "_")`. */
  function ReplaceSpaces(s: string): (r: string)
    ensures |r| == |s|
    ensures forall i :: 0 <= i < |s| ==> r[i] == if s[i] == ' ' then '_' else s[i]
  {
    seq(|s|, i requires 0 <= i < |s| => if s[i] == ' ' then '_' else s[i])
  }

  /** `str.replace(".", "", regex=False)`: the characters of `s` other than '.', in order. */
  function RemoveDots(s: string): (r: string)
    ensures '.' !in r
    ensures forall c :: c in r ==> c in s
    ensures forall c :: c in s && c != '.' ==> c in r
    ensures multiset(r) == multiset(s)['.' := 0]
  {
    if s == [] then []
    else
      assert s == [s[0]] + s[1..];
      (if s[0] == '.' then [] else [s[0]]) + RemoveDots(s[1..])
  }

  /**
    The column-name chain of `load_cases`. A normalised name has no space, no '.', and no
    ASCII upper-case letter.
  */
  function NormaliseName(s: string): (r: string)
    ensures ' ' !in r && '.' !in r
    ensures forall c :: c in r ==> !IsUpper(c)
  {
    RemoveDots(ReplaceSpaces(Lower(Strip(s))))
  }

  function NormaliseNames(columns: seq<string>): (r: seq<string>)
    ensures |r| == |columns| && forall i :: 0 <= i < |r| ==> r[i] == NormaliseName(columns[i])
  {
    seq(|columns|, i requires 0 <= i < |columns| => NormaliseName(columns[i]))
  }

  lemma LowerConcat(a: string, b: string)
    ensures Lower(a + b) == Lower(a) + Lower(b)
  {
  }

  lemma ReplaceSpacesConcat(a: string, b: string)
    ensures ReplaceSpaces(a + b) == ReplaceSpaces(a) + ReplaceSpaces(b)
  {
  }

  lemma {:induction false} RemoveDotsConcat(a: string, b: string)
    ensures RemoveDots(a + b) == RemoveDots(a) + RemoveDots(b)
  {
    if a != [] {
      assert (a + b)[1..] == a[1..] + b;
      RemoveDotsConcat(a[1..], b);
    } else {
      assert a + b == b;
    }
  }

  lemma {:induction false} TrimLeftConcat(a: string, b: string)
    requires a != [] && !IsSpace(a[|a| - 1])
    ensures TrimLeft(a + b) == TrimLeft(a) + b
  {
    if IsSpace(a[0]) {
      assert (a + b)[1..] == a[1..] + b;
      TrimLeftConcat(a[1..], b);
    }
  }

  lemma {:induction false} TrimRightConcat(a: string, b: string)
    requires b != [] && !IsSpace(b[0])
    ensures TrimRight(a + b) == a + TrimRight(b)
  {
    if IsSpace(b[|b| - 1]) {
      assert (a + b)[..|a + b| - 1] == a + b[..|b| - 1];
      TrimRightConcat(a, b[..|b| - 1]);
    }
  }

  /** Trailing white space does not survive `strip`. */
  lemma {:induction false} StripTrailingSpace(s: string, c: char)
    requires IsSpace(c)
    ensures Strip(s + [c]) == Strip(s)
  {
    if s == [] {
    } else if IsSpace(s[0]) {
      assert (s + [c])[1..] == s[1..] + [c];
      StripTrailingSpace(s[1..], c);
    } else {
      assert (s + [c])[..|s + [c]| - 1] == s;
    }
  }

  /** The steps run in a fixed order, so white space at either end disappears instead of becoming '_'. */
  lemma NormaliseDropsOuterSpace(s: string, c: char)
    requires IsSpace(c)
    ensures NormaliseName([c] + s) == NormaliseName(s)
    ensures NormaliseName(s + [c]) == NormaliseName(s)
  {
    assert ([c] + s)[1..] == s;
    StripTrailingSpace(s, c);
  }

  /** `strip` of two non-blank parts joined by a space strips each part on its outer side only. */
  lemma StripInteriorSpace(a: string, b: string)
    requires a != [] && !IsSpace(a[|a| - 1])
    requires b != [] && !IsSpace(b[0])
    ensures Strip(a + " " + b) == Strip(a) + " " + Strip(b)
  {
    TrimLeftKeepsLast(a);
    TrimLeftJoin(a, b);
    TrimRightJoin(TrimLeft(a), b);
    assert TrimLeft(b) == b;
  }

  lemma TrimLeftJoin(a: string, b: string)
    requires a != [] && !IsSpace(a[|a| - 1])
    ensures TrimLeft(a + " " + b) == TrimLeft(a) + " " + b
  {
    assert a + " " + b == a + (" " + b);
    TrimLeftConcat(a, " " + b);
    assert TrimLeft(a) + (" " + b) == TrimLeft(a) + " " + b;
  }

  lemma TrimRightJoin(a: string, b: string)
    requires b != [] && !IsSpace(b[0])
    ensures TrimRight(a + " " + b) == a + " " + TrimRight(b)
  {
    TrimRightConcat(a + " ", b);
  }

  /** Leading white space removed, a part ending in a non-space character keeps its last character. */
  lemma TrimLeftKeepsLast(a: string)
    requires a != [] && !IsSpace(a[|a| - 1])
    ensures TrimLeft(a) != [] && TrimRight(TrimLeft(a)) == TrimLeft(a)
  {
    var la := TrimLeft(a);
    assert la != [] && la[|la| - 1] == a[|a| - 1];
  }

  /** The steps after `strip` work character by character, so they distribute over a join at a space. */
  lemma AfterStripConcat(x: string, y: string)
    ensures RemoveDots(ReplaceSpaces(Lower(x + " " + y))) ==
      RemoveDots(ReplaceSpaces(Lower(x))) + "_" + RemoveDots(ReplaceSpaces(Lower(y)))
  {
    LowerConcat(x + " ", y);
    LowerConcat(x, " ");
    assert Lower(" ") == " ";
    ReplaceSpacesConcat(Lower(x) + " ", Lower(y));
    ReplaceSpacesConcat(Lower(x), " ");
    assert ReplaceSpaces(" ") == "_";
    RemoveDotsConcat(ReplaceSpaces(Lower(x)) + "_", ReplaceSpaces(Lower(y)));
    RemoveDotsConcat(ReplaceSpaces(Lower(x)), "_");
    assert RemoveDots("_") == "_";
  }

  /** An interior space, between two non-blank parts, becomes exactly one '_'. */
  lemma NormaliseInteriorSpace(a: string, b: string)
    requires a != [] && !IsSpace(a[|a| - 1])
    requires b != [] && !IsSpace(b[0])
    ensures NormaliseName(a + " " + b) == NormaliseName(a) + "_" + NormaliseName(b)
  {
    StripInteriorSpace(a, b);
    AfterStripConcat(Strip(a), Strip(b));
  }

  /** A name with no white space and no '.' only changes case. */
  lemma {:induction false} NormaliseSimple(s: string)
    requires forall i :: 0 <= i < |s| ==> !IsSpace(s[i]) && s[i] != '.'
    ensures NormaliseName(s) == Lower(s)
  {
    if s == [] {
      return;
    }
    assert TrimLeft(s) == s;
    assert TrimRight(s) == s;
    assert ReplaceSpaces(Lower(s)) == Lower(s);
    RemoveDotsNone(Lower(s));
  }

  lemma {:induction false} RemoveDotsNone(s: string)
    requires '.' !in s
    ensures RemoveDots(s) == s
  {
    if s != [] {
      assert '.' !in s[1..] by { assert forall c :: c in s[1..] ==> c in s; }
      RemoveDotsNone(s[1..]);
      assert [s[0]] + s[1..] == s;
    }
  }

  lemma WeaponWord()
    ensures NormaliseName("Weapon") == "weapon"
  {
    assert Lower("Weapon") == "weapon";
    NormaliseSimple("Weapon");
  }

  lemma DescWord()
    ensures NormaliseName("Desc") == "desc"
  {
    assert Lower("Desc") == "desc";
    NormaliseSimple("Desc");
  }

  /** A header with outer and interior spaces, as in the raw data. */
  lemma WeaponDescHeader()
    ensures NormaliseName(" Weapon Desc ") == "weapon_desc"
  {
    assert "weapon" + "_" + "desc" == "weapon_desc";
    var w, d := "Weapon", "Desc";
    assert " Weapon Desc " == [' '] + ((w + " " + d) + [' ']);
    NormaliseDropsOuterSpace((w + " " + d) + [' '], ' ');
    NormaliseDropsOuterSpace(w + " " + d, ' ');
    NormaliseInteriorSpace(w, d);
    WeaponWord();
    DescWord();
  }

  /** An upper-case header with an underscore only changes case. */
  lemma DrNoHeader()
    ensures NormaliseName("DR_NO") == "dr_no"
  {
    assert Lower("DR_NO") == "dr_no";
    NormaliseSimple("DR_NO");
  }

  // ---------------------------------------------------------------------------
  // The narrative text
  // ---------------------------------------------------------------------------

  /** `astype(str)`: a missing cell is printed as "nan". */
  function AsText(c: Cell): string
  {
    match c
    case Some(s) => s
    case None => "nan"
  }

  /** The `mo_text` expression of `create_mo_text` for one row. */
  function MoText(crime: Cell, weapon: Cell, area: Cell): string
  {
    Lower(AsText(crime)) + " " + Lower(AsText(weapon)) + " " + Lower(AsText(area))
  }

  /** `str.split(" ")`: the pieces between single spaces. */
  function SplitOnSpace(s: string): (r: seq<string>)
    ensures |r| >= 1
  {
    if s == [] then [[]]
    else if s[0] == ' ' then [[]] + SplitOnSpace(s[1..])
    else
      var rest := SplitOnSpace(s[1..]);
      [[s[0]] + rest[0]] + rest[1..]
  }

  lemma {:induction false} SplitNoSpace(s: string)
    requires ' ' !in s
    ensures SplitOnSpace(s) == [s]
  {
    if s != [] {
      assert forall c :: c in s[1..] ==> c in s;
      SplitNoSpace(s[1..]);
      assert [s[0]] + s[1..] == s;
    }
  }

  lemma {:induction false} SplitJoin(x: string, y: string)
    requires ' ' !in x
    ensures SplitOnSpace(x + " " + y) == [x] + SplitOnSpace(y)
  {
    if x == [] {
      assert x + " " + y == [' '] + y;
    } else {
      assert (x + " " + y)[1..] == x[1..] + " " + y;
      assert forall c :: c in x[1..] ==> c in x;
      SplitJoin(x[1..], y);
      assert [x[0]] + x[1..] == x;
    }
  }

  lemma LowerKeepsSpaces(s: string)
    ensures ' ' in Lower(s) <==> ' ' in s
  {
    if ' ' in Lower(s) {
      var i :| 0 <= i < |s| && Lower(s)[i] == ' ';
      assert s[i] == ' ';
    }
    if ' ' in s {
      var i :| 0 <= i < |s| && s[i] == ' ';
      assert Lower(s)[i] == ' ';
    }
  }

  /**
    The narrative keeps its three parts apart: when no part contains a space, splitting it on
    spaces gives back the three lower-cased parts, a missing part as "nan".
  */
  lemma MoTextFields(crime: Cell, weapon: Cell, area: Cell)
    requires ' ' !in AsText(crime) && ' ' !in AsText(weapon) && ' ' !in AsText(area)
    ensures SplitOnSpace(MoText(crime, weapon, area)) ==
      [Lower(AsText(crime)), Lower(AsText(weapon)), Lower(AsText(area))]
  {
    var a, b, c := Lower(AsText(crime)), Lower(AsText(weapon)), Lower(AsText(area));
    LowerKeepsSpaces(AsText(crime));
    LowerKeepsSpaces(AsText(weapon));
    LowerKeepsSpaces(AsText(area));
    assert a + " " + b + " " + c == a + " " + (b + " " + c);
    SplitJoin(a, b + " " + c);
    SplitJoin(b, c);
    SplitNoSpace(c);
  }

  /** A missing weapon shows up in the narrative as the word "nan", and the cell rewrite later leaves it there. */
  lemma MissingWeaponReadsNan()
    ensures MoText(Some("Theft"), None, Some("Central")) == "theft nan central"
    ensures CleanCell(Some(MoText(Some("Theft"), None, Some("Central")))) == Some("theft nan central")
  {
    assert Lower("Theft") == "theft";
    assert Lower("nan") == "nan";
    assert Lower("Central") == "central";
  }

  // ---------------------------------------------------------------------------
  // Data frames
  // ---------------------------------------------------------------------------

  datatype Table = Table(columns: seq<string>, rows: seq<seq<Cell>>)

  /** Every row has one cell per column. */
  predicate Rectangular(t: Table)
  {
    forall i :: 0 <= i < |t.rows| ==> |t.rows[i]| == |t.columns|
  }

  /** The position of the first column with the given name. */
  function ColumnIndex(columns: seq<string>, name: string): (r: Option<nat>)
    ensures r.Some? ==> r.value < |columns| && columns[r.value] == name
    ensures r.Some? ==> forall j :: 0 <= j < r.value ==> columns[j] != name
    ensures r.None? <==> name !in columns
  {
    if columns == [] then None
    else if columns[0] == name then Some(0)
    else match ColumnIndex(columns[1..], name)
      case None => None
      case Some(i) => Some(i + 1)
  }

  /** The cell of row `i` under the column `name`. */
  function CellAt(t: Table, i: nat, name: string): Cell
    requires Rectangular(t) && i < |t.rows| && name in t.columns
  {
    t.rows[i][ColumnIndex(t.columns, name).value]
  }

  /**
    `df[name] = values`: overwrites the column when the frame has one of that name, and
    appends a new last column otherwise. Every other cell is kept.
  */
  function SetColumn(t: Table, name: string, values: seq<Cell>): (r: Table)
    requires Rectangular(t) && |values| == |t.rows|
    ensures Rectangular(r) && |r.rows| == |t.rows|
    ensures r.columns == if name in t.columns then t.columns else t.columns + [name]
    ensures forall i :: 0 <= i < |r.rows| ==> CellAt(r, i, name) == values[i]
    ensures forall i, k :: 0 <= i < |t.rows| && 0 <= k < |t.columns| && t.columns[k] != name ==>
      r.rows[i][k] == t.rows[i][k]
  {
    match ColumnIndex(t.columns, name)
    case Some(c) =>
      Table(t.columns, seq(|t.rows|, i requires 0 <= i < |t.rows| => t.rows[i][c := values[i]]))
    case None =>
      var r := Table(t.columns + [name], seq(|t.rows|, i requires 0 <= i < |t.rows| => t.rows[i] + [values[i]]));
      assert ColumnIndex(r.columns, name) == Some(|t.columns|) by {
        assert forall j :: 0 <= j < |t.columns| ==> r.columns[j] != name;
        FirstColumnAt(r.columns, name, |t.columns|);
      }
      r
  }

  lemma {:induction false} FirstColumnAt(columns: seq<string>, name: string, p: nat)
    requires p < |columns| && columns[p] == name
    requires forall j :: 0 <= j < p ==> columns[j] != name
    ensures ColumnIndex(columns, name) == Some(p)
  {
    if p > 0 {
      FirstColumnAt(columns[1..], name, p - 1);
    }
  }

  // ---------------------------------------------------------------------------
  // build_datetime
  // ---------------------------------------------------------------------------

  /**
    `df["datetime"] = pd.to_datetime(df["date_occ"], errors="coerce")`: the `datetime` column,
    overwritten or appended, holds the parse of each row's `date_occ`; every other cell is kept.
  */
  function WithDatetime(t: Table, parse: Cell -> Option<string>): (r: Table)
    requires Rectangular(t) && "date_occ" in t.columns
    ensures Rectangular(r) && "datetime" in r.columns && |r.rows| == |t.rows|
    ensures r.columns == if "datetime" in t.columns then t.columns else t.columns + ["datetime"]
    ensures forall i :: 0 <= i < |r.rows| ==> CellAt(r, i, "datetime") == parse(CellAt(t, i, "date_occ"))
    ensures forall i, k :: 0 <= i < |t.rows| && 0 <= k < |t.columns| && t.columns[k] != "datetime" ==>
      r.rows[i][k] == t.rows[i][k]
  {
    SetColumn(t, "datetime", seq(|t.rows|, i requires 0 <= i < |t.rows| => parse(CellAt(t, i, "date_occ"))))
  }

  /** `df[df["datetime"].notna()]`: the rows with a date, in their original order. */
  function KeepDated(t: Table): (r: Table)
    requires Rectangular(t) && "datetime" in t.columns
    ensures r.columns == t.columns && Rectangular(r)
    ensures forall k :: 0 <= k < |r.rows| ==> CellAt(r, k, "datetime").Some?
    ensures forall row: seq<Cell> :: |row| == |t.columns| ==>
      multiset(r.rows)[row] == (if row[ColumnIndex(t.columns, "datetime").value].Some? then multiset(t.rows)[row] else 0)
  {
    var rows := Filter(t.rows, Dated(ColumnIndex(t.columns, "datetime").value));
    assert forall k :: 0 <= k < |rows| ==> rows[k] in multiset(t.rows);
    Table(t.columns, rows)
  }

  /** The `notna()` mask on the column at position `d`. */
  function Dated(d: nat): seq<Cell> -> bool
  {
    (row: seq<Cell>) => d < |row| && row[d].Some?
  }

  /** The dated rows of a table cut in two are the dated rows of the first part followed by those of the second. */
  lemma KeepDatedConcat(columns: seq<string>, a: seq<seq<Cell>>, b: seq<seq<Cell>>)
    requires "datetime" in columns
    requires Rectangular(Table(columns, a)) && Rectangular(Table(columns, b))
    ensures Rectangular(Table(columns, a + b))
    ensures KeepDated(Table(columns, a + b)).rows == KeepDated(Table(columns, a)).rows + KeepDated(Table(columns, b)).rows
  {
    FilterConcat(a, b, Dated(ColumnIndex(columns, "datetime").value));
  }

  /** A single row is kept, alone, exactly when its `datetime` cell is present. */
  lemma KeepDatedOne(columns: seq<string>, row: seq<Cell>)
    requires "datetime" in columns && |row| == |columns|
    ensures Rectangular(Table(columns, [row]))
    ensures KeepDated(Table(columns, [row])).rows == if row[ColumnIndex(columns, "datetime").value].Some? then [row] else []
  {
    assert [row][1..] == [];
  }

  // ---------------------------------------------------------------------------
  // create_mo_text
  // ---------------------------------------------------------------------------

  /** The column read as the weapon: `weapon_desc` when the frame has it, `crm_cd_desc` otherwise. */
  function WeaponColumn(t: Table): string
  {
    if "weapon_desc" in t.columns then "weapon_desc" else "crm_cd_desc"
  }

  /**
    `create_mo_text`: the `mo_text` column, present in every row and never missing, holds the
    narrative of the row's crime description, weapon and area; all other cells are kept.
  */
  function WithMoText(t: Table): (r: Table)
    requires Rectangular(t) && "crm_cd_desc" in t.columns && "area_name" in t.columns
    ensures Rectangular(r) && |r.rows| == |t.rows|
    ensures r.columns == if "mo_text" in t.columns then t.columns else t.columns + ["mo_text"]
    ensures forall i :: 0 <= i < |r.rows| ==>
      CellAt(r, i, "mo_text") ==
        Some(MoText(CellAt(t, i, "crm_cd_desc"), CellAt(t, i, WeaponColumn(t)), CellAt(t, i, "area_name")))
    ensures forall i, k :: 0 <= i < |t.rows| && 0 <= k < |t.columns| && t.columns[k] != "mo_text" ==>
      r.rows[i][k] == t.rows[i][k]
  {
    SetColumn(t, "mo_text", seq(|t.rows|, i requires 0 <= i < |t.rows| =>
      Some(MoText(CellAt(t, i, "crm_cd_desc"), CellAt(t, i, WeaponColumn(t)), CellAt(t, i, "area_name")))))
  }

  // ---------------------------------------------------------------------------
  // clean_cases
  // ---------------------------------------------------------------------------

  /** The columns `clean_cases` keeps, in this order. */
  const Wanted: seq<string> :=
    ["dr_no", "datetime", "area_name", "crm_cd", "crm_cd_desc", "weapon_desc", "vict_age", "vict_sex", "mo_text"]

  predicate Distinct(s: seq<string>)
  {
    forall i, j :: 0 <= i < j < |s| ==> s[i] != s[j]
  }

  /**
    The names of `wanted` that `present` holds, in the order of `wanted`: exactly those names,
    each once, each later one further down `wanted` than the one before it.
  */
  function KeepPresent(wanted: seq<string>, present: seq<string>): (r: seq<string>)
    requires Distinct(wanted)
    ensures forall c :: c in r <==> c in wanted && c in present
    ensures forall i, j :: 0 <= i < j < |r| ==>
      ColumnIndex(wanted, r[i]).value < ColumnIndex(wanted, r[j]).value
  {
    if wanted == [] then []
    else
      DistinctTail(wanted);
      var rest := KeepPresent(wanted[1..], present);
      ColumnIndexTail(wanted);
      if wanted[0] in present then [wanted[0]] + rest else rest
  }

  lemma DistinctTail(s: seq<string>)
    requires s != [] && Distinct(s)
    ensures Distinct(s[1..]) && s[0] !in s[1..]
  {
  }

  /** Past the first name of a list without repeats, positions are one more than in the tail. */
  lemma ColumnIndexTail(s: seq<string>)
    requires s != [] && Distinct(s)
    ensures forall c :: c in s[1..] ==> ColumnIndex(s, c).value == ColumnIndex(s[1..], c).value + 1
  {
    DistinctTail(s);
  }

  function SelectColumns(columns: seq<string>): (r: seq<string>)
    ensures forall c :: c in r <==> c in Wanted && c in columns
    ensures forall i, j :: 0 <= i < j < |r| ==>
      ColumnIndex(Wanted, r[i]).value < ColumnIndex(Wanted, r[j]).value
  {
    KeepPresent(Wanted, columns)
  }

  /** `replace("nan", "unknown")` on one cell: only a cell that is exactly "nan" changes. */
  function CleanCell(c: Cell): (r: Cell)
    ensures r != Some("nan")
    ensures c == Some("nan") ==> r == Some("unknown")
    ensures c != Some("nan") ==> r == c
  {
    if c == Some("nan") then Some("unknown") else c
  }

  /**
    `clean_cases`: the wanted columns the frame has, in the wanted order, every row kept, each
    cell the frame's cell under that name after the "nan" rewrite; no cell is "nan" afterwards.
  */
  function CleanCases(t: Table): (r: Table)
    requires Rectangular(t)
    ensures r.columns == SelectColumns(t.columns)
    ensures Rectangular(r) && |r.rows| == |t.rows|
    ensures forall i, k :: 0 <= i < |r.rows| && 0 <= k < |r.columns| ==>
      r.columns[k] in t.columns && r.rows[i][k] == CleanCell(CellAt(t, i, r.columns[k]))
    ensures forall row, cell :: row in r.rows && cell in row ==> cell != Some("nan")
  {
    var cols := SelectColumns(t.columns);
    assert forall k :: 0 <= k < |cols| ==> cols[k] in cols;
    Table(cols, seq(|t.rows|, i requires 0 <= i < |t.rows| =>
      seq(|cols|, k requires 0 <= k < |cols| => CleanCell(CellAt(t, i, cols[k])))))
  }

  // ---------------------------------------------------------------------------
  // The in-place steps and the whole pipeline
  // ---------------------------------------------------------------------------

  /** A pandas data frame that the steps update in place. */
  class Frame {
    var columns: seq<string>
    var rows: seq<seq<Cell>>

    function Snapshot(): Table
      reads this
    {
      Table(columns, rows)
    }

    ghost predicate Valid()
      reads this
    {
      Rectangular(Snapshot())
    }

    constructor (t: Table)
      requires Rectangular(t)
      ensures Valid() && Snapshot() == t
    {
      columns := t.columns;
      rows := t.rows;
    }

    /** `load_cases`: `df.columns = ...` renames every column; the cells stay. */
    method NormaliseColumns()
      requires Valid()
      modifies this
      ensures Valid()
      ensures columns == NormaliseNames(old(columns)) && rows == old(rows)
    {
      columns := NormaliseNames(columns);
    }

    /**
      `build_datetime`: adds the coerced `datetime` column to this frame and returns a new
      frame with only the dated rows. Without a `date_occ` column pandas raises KeyError:
      None, and this frame is left as it was.
    */
    method BuildDatetime(parse: Cell -> Option<string>) returns (r: Option<Frame>)
      requires Valid()
      modifies this
      ensures Valid()
      ensures r.Some? <==> "date_occ" in old(columns)
      ensures r.None? ==> Snapshot() == old(Snapshot())
      ensures r.Some? ==> "date_occ" in old(columns) && Snapshot() == WithDatetime(old(Snapshot()), parse)
      ensures r.Some? ==> fresh(r.value) && r.value.Valid() && r.value.Snapshot() == KeepDated(Snapshot())
    {
      if "date_occ" !in columns {
        return None;
      }
      var t := WithDatetime(Snapshot(), parse);
      columns, rows := t.columns, t.rows;
      var dated := new Frame(KeepDated(t));
      r := Some(dated);
    }

    /**
      `create_mo_text`: adds (or overwrites) the `mo_text` column of this frame. Without a
      `crm_cd_desc` or an `area_name` column pandas raises KeyError: false, and nothing changes.
    */
    method CreateMoText() returns (ok: bool)
      requires Valid()
      modifies this
      ensures Valid()
      ensures ok <==> "crm_cd_desc" in old(columns) && "area_name" in old(columns)
      ensures !ok ==> Snapshot() == old(Snapshot())
      ensures ok ==>
        "crm_cd_desc" in old(columns) && "area_name" in old(columns) && Snapshot() == WithMoText(old(Snapshot()))
    {
      ok := "crm_cd_desc" in columns && "area_name" in columns;
      if ok {
        var t := WithMoText(Snapshot());
        columns, rows := t.columns, t.rows;
      }
    }
  }

  /** The value the pipeline computes, step by step; None where a step raises KeyError. */
  function Preprocessed(raw: Table, parse: Cell -> Option<string>): (r: Option<Table>)
    requires Rectangular(raw)
    ensures r.Some? ==> Rectangular(r.value)
  {
    var named := Table(NormaliseNames(raw.columns), raw.rows);
    if "date_occ" !in named.columns then None
    else
      var dated := KeepDated(WithDatetime(named, parse));
      if "crm_cd_desc" !in dated.columns || "area_name" !in dated.columns then None
      else Some(CleanCases(WithMoText(dated)))
  }

  /** `preprocess_cases` without the file reading and writing. */
  method PreprocessCases(raw: Table, parse: Cell -> Option<string>) returns (out: Option<Table>)
    requires Rectangular(raw)
    ensures out == Preprocessed(raw, parse)
  {
    var df := new Frame(raw);
    df.NormaliseColumns();
    var dated := df.BuildDatetime(parse);
    if dated.None? {
      return None;
    }
    var frame := dated.value;
    var ok := frame.CreateMoText();
    if !ok {
      return None;
    }
    out := Some(CleanCases(frame.Snapshot()));
  }

  /** Appending a column does not move the columns already there. */
  lemma {:induction false} ColumnIndexAppend(columns: seq<string>, extra: string, name: string)
    requires name in columns
    ensures ColumnIndex(columns + [extra], name) == ColumnIndex(columns, name)
  {
    var p := ColumnIndex(columns, name).value;
    FirstColumnAt(columns + [extra], name, p);
  }

  /** `create_mo_text` keeps the cells of every column but `mo_text`. */
  lemma MoTextKeepsCell(t: Table, i: nat, name: string)
    requires Rectangular(t) && "crm_cd_desc" in t.columns && "area_name" in t.columns
    requires i < |t.rows| && name in t.columns && name != "mo_text"
    ensures name in WithMoText(t).columns && CellAt(WithMoText(t), i, name) == CellAt(t, i, name)
  {
    if "mo_text" !in t.columns {
      ColumnIndexAppend(t.columns, "mo_text", name);
    }
  }

  /** A wanted column with a present cell keeps a present cell through `clean_cases`. */
  lemma CleanKeepsPresent(t: Table, i: nat, name: string)
    requires Rectangular(t) && i < |t.rows|
    requires name in Wanted && name in t.columns && CellAt(t, i, name).Some?
    ensures name in CleanCases(t).columns && CellAt(CleanCases(t), i, name).Some?
  {
    var r := CleanCases(t);
    var k := ColumnIndex(r.columns, name).value;
    assert r.rows[i][k] == CleanCell(CellAt(t, i, r.columns[k]));
  }

  /** The intermediate frames of the pipeline, when it succeeds. */
  lemma PreprocessedSteps(raw: Table, parse: Cell -> Option<string>, t: Table)
    requires Rectangular(raw) && Preprocessed(raw, parse) == Some(t)
    ensures var named := Table(NormaliseNames(raw.columns), raw.rows);
      "date_occ" in named.columns &&
      var dated := KeepDated(WithDatetime(named, parse));
      "crm_cd_desc" in dated.columns && "area_name" in dated.columns &&
      t == CleanCases(WithMoText(dated))
  {
  }

  /**
    What the pipeline delivers: the wanted columns in the wanted order, always with `datetime`
    and `mo_text` among them; every row dated; every narrative present; no cell "nan".
  */
  lemma PreprocessedShape(raw: Table, parse: Cell -> Option<string>, t: Table)
    requires Rectangular(raw) && Preprocessed(raw, parse) == Some(t)
    ensures Rectangular(t)
    ensures forall c :: c in t.columns ==> c in Wanted
    ensures "datetime" in t.columns && "mo_text" in t.columns
    ensures forall i :: 0 <= i < |t.rows| ==> CellAt(t, i, "datetime").Some? && CellAt(t, i, "mo_text").Some?
    ensures forall row, cell :: row in t.rows && cell in row ==> cell != Some("nan")
  {
    PreprocessedSteps(raw, parse, t);
    var named := Table(NormaliseNames(raw.columns), raw.rows);
    var dated := KeepDated(WithDatetime(named, parse));
    var m := WithMoText(dated);
    assert "datetime" in m.columns && "mo_text" in m.columns;
    assert "datetime" in Wanted && "mo_text" in Wanted;
    forall i | 0 <= i < |t.rows|
      ensures CellAt(t, i, "datetime").Some? && CellAt(t, i, "mo_text").Some?
    {
      MoTextKeepsCell(dated, i, "datetime");
      CleanKeepsPresent(m, i, "datetime");
      CleanKeepsPresent(m, i, "mo_text");
    }
  }
}
