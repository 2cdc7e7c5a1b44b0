/** The row mapping inside `readExcelFile` (FinancialChatbot.tsx:78-83).
    A spreadsheet row may carry each column under a capitalised or a lower-case
    header; a missing cell is `None`. Amounts arrive already numeric (cents). */
module Ingestion {
  import opened Types

  datatype Row = Row(
    Date: Option<string>, date: Option<string>,
    Description: Option<string>, description: Option<string>,
    Amount: Option<int>, amount: Option<int>,
    Category: Option<string>, category: Option<string>)

  const DefaultCategory: string := "Uncategorized"

  /** JavaScript truthiness of a cell: absent, `''` and `0` are falsy. */
  predicate TextTruthy(cell: Option<string>) { cell.Some? && cell.value != "" }
  predicate NumberTruthy(cell: Option<int>) { cell.Some? && cell.value != 0 }

  /** `first || second || fallback` on text cells. */
  function TextOr(first: Option<string>, second: Option<string>, fallback: string): (r: string)
    ensures TextTruthy(first) ==> r == first.value
    ensures !TextTruthy(first) && TextTruthy(second) ==> r == second.value
    ensures !TextTruthy(first) && !TextTruthy(second) ==> r == fallback
    ensures fallback != "" ==> r != ""
  {
    if TextTruthy(first) then first.value
    else if TextTruthy(second) then second.value
    else fallback
  }

  /** `first || second || 0` on numeric cells. */
  function NumberOr(first: Option<int>, second: Option<int>): (r: int)
    ensures NumberTruthy(first) ==> r == first.value
    ensures !NumberTruthy(first) && NumberTruthy(second) ==> r == second.value
    ensures !NumberTruthy(first) && !NumberTruthy(second) ==> r == 0
  {
    if NumberTruthy(first) then first.value
    else if NumberTruthy(second) then second.value
    else 0
  }

  function NormalizeRow(row: Row): (t: Transaction)
    ensures t.date == TextOr(row.Date, row.date, "")
    ensures t.description == TextOr(row.Description, row.description, "")
    ensures t.amount == NumberOr(row.Amount, row.amount)
    ensures t.category == TextOr(row.Category, row.category, DefaultCategory)
    ensures t.category != ""
  {
    Transaction(
      TextOr(row.Date, row.date, ""),
      TextOr(row.Description, row.description, ""),
      NumberOr(row.Amount, row.amount),
      TextOr(row.Category, row.category, DefaultCategory))
  }

  /** `jsonData.map(...)`: one transaction per row, same order. */
  function NormalizeRows(rows: seq<Row>): (ts: seq<Transaction>)
    ensures |ts| == |rows|
    ensures forall i :: 0 <= i < |rows| ==> ts[i] == NormalizeRow(rows[i])
  {
    if rows == [] then [] else [NormalizeRow(rows[0])] + NormalizeRows(rows[1..])
  }

  /** The normalised transaction list never holds an empty category. */
  lemma CategoriesNeverEmpty(rows: seq<Row>)
    ensures forall t :: t in NormalizeRows(rows) ==> t.category != ""
  {
    var ts := NormalizeRows(rows);
    forall t | t in ts ensures t.category != "" {
      var i :| 0 <= i < |ts| && ts[i] == t;
      assert t == NormalizeRow(rows[i]);
    }
  }

  /** A row with no amount under either header gets amount 0. */
  lemma MissingAmountIsZero(row: Row)
    requires row.Amount.None? && row.amount.None?
    ensures NormalizeRow(row).amount == 0
  {
  }

  /** A row with no usable category under either header is filed under "Uncategorized". */
  lemma MissingCategoryIsUncategorized(row: Row)
    requires !TextTruthy(row.Category) && !TextTruthy(row.category)
    ensures NormalizeRow(row).category == DefaultCategory
  {
  }
}
