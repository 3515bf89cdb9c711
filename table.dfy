/** The rows of the forecast table: one record per school and year, as the
    data frames of streamlit_app.py hold them, with the sums and the year
    filter the engine applies to them. */
module Table {
  import opened Common

  /** The three values of the "Rent Note" column. */
  datatype RentNote = Smoothed | Fixed | Lease

  /** The "Final Rent" and "Rent Note" columns of one row: absent until the
      smoothing pass writes them (streamlit_app.py:119-129). */
  datatype Rent = Unassigned | Assigned(amount: real, note: RentNote)

  /** One row of the table. `index` is the row's data-frame index label; the
      other fields are the columns written at streamlit_app.py:60-70, 119-120,
      123-124, 128-129 and 132-133. `margin` is `None` until line 133 writes it
      and when the gross revenue is zero. */
  datatype Row = Row(
    index: int,
    year: int,
    school: string,
    enrollment: int,
    gross: real,
    fee: real,
    personnel: real,
    fixedOps: real,
    baseRent: real,
    rent: Rent,
    netIncome: real,
    margin: Option<real>)

  function GrossOf(r: Row): real { r.gross }
  function FeeOf(r: Row): real { r.fee }
  function BaseRentOf(r: Row): real { r.baseRent }
  function NetIncomeOf(r: Row): real { r.netIncome }

  /** The "Final Rent" column, read as 0 where it is not written. */
  function FinalRentOf(r: Row): real {
    if r.rent.Assigned? then r.rent.amount else 0.0
  }

  /** Revenue left after fee, personnel and fixed operations: what a school
      has to meet its rent from. */
  function PreRentIncomeOf(r: Row): real {
    r.gross - r.fee - r.personnel - r.fixedOps
  }

  /** Column sum over a block of rows. */
  function Total(rows: seq<Row>, f: Row -> real): real {
    if rows == [] then 0.0 else f(rows[0]) + Total(rows[1..], f)
  }

  /** Sum of the "Enrollment" column. */
  function EnrollmentTotal(rows: seq<Row>): int {
    if rows == [] then 0 else rows[0].enrollment + EnrollmentTotal(rows[1..])
  }

  /** Rows pointwise no larger give a total no larger. */
  lemma {:induction false} TotalMonotone(a: seq<Row>, b: seq<Row>, f: Row -> real)
    requires |a| == |b|
    requires forall i :: 0 <= i < |a| ==> f(a[i]) <= f(b[i])
    ensures Total(a, f) <= Total(b, f)
  {
    if a != [] {
      TotalMonotone(a[1..], b[1..], f);
    }
  }

  /** The rows of one year: `all_data[all_data["Year"] == year]`. */
  function InYear(rows: seq<Row>, y: int): (r: seq<Row>)
    ensures |r| <= |rows|
    ensures forall k :: 0 <= k < |r| ==> r[k].year == y
  {
    if rows == [] then []
    else (if rows[0].year == y then [rows[0]] else []) + InYear(rows[1..], y)
  }

  /** The filter only keeps rows it was given. */
  lemma {:induction false} InYearFrom(rows: seq<Row>, y: int)
    ensures forall k :: 0 <= k < |InYear(rows, y)| ==> InYear(rows, y)[k] in rows
  {
    if rows != [] {
      InYearFrom(rows[1..], y);
      if rows[0].year == y {
        assert InYear(rows, y) == [rows[0]] + InYear(rows[1..], y);
      } else {
        assert InYear(rows, y) == [] + InYear(rows[1..], y);
      }
    }
  }

  lemma {:induction false} InYearAppend(a: seq<Row>, b: seq<Row>, y: int)
    ensures InYear(a + b, y) == InYear(a, y) + InYear(b, y)
  {
    if a != [] {
      assert (a + b)[1..] == a[1..] + b;
      InYearAppend(a[1..], b, y);
    } else {
      assert a + b == b;
    }
  }

  /** Filtering a block whose rows all lie in year y keeps it whole, and a
      block with no row in year y contributes nothing. */
  lemma {:induction false} InYearAll(rows: seq<Row>, y: int)
    requires forall k :: 0 <= k < |rows| ==> rows[k].year == y
    ensures InYear(rows, y) == rows
  {
    if rows != [] {
      InYearAll(rows[1..], y);
    }
  }

  lemma {:induction false} InYearNone(rows: seq<Row>, y: int)
    requires forall k :: 0 <= k < |rows| ==> rows[k].year != y
    ensures InYear(rows, y) == []
  {
    if rows != [] {
      InYearNone(rows[1..], y);
    }
  }
}
