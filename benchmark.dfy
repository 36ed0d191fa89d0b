/**
 * The regional price benchmark shown on the costing and approval pages.
 * Both pages read five benchmark prices from the part's row; the parts
 * table has no such columns, so the lookup fails before any button of those
 * pages is reached. This module models that lookup by column name, shows
 * the failure for the schema as written, and shows that the columns the
 * costing and approval handlers themselves read are all present. The
 * handlers in module Workflow are the pages without the benchmark.
 */
module Benchmark {
  import opened Database

  /** The columns of the parts table, in declaration order. */
  const PartColumns: seq<string> :=
    ["part_number", "description", "unit", "stock_on_hand", "item_type", "cost_price"]

  /** The benchmark prices both pages read from the part's row, in the order they are read. */
  const BenchmarkColumns: seq<string> := ["price_bkc", "price_prpd", "price_kipl", "price_ksc", "price_kac"]

  /**
   * Reading the wanted columns of a row one after the other, as a list
   * display does: the first column the row lacks raises a KeyError, named
   * here; None means every read succeeds.
   */
  function MissingColumn(columns: seq<string>, wanted: seq<string>): (r: Option<string>)
    ensures r.None? <==> forall i :: 0 <= i < |wanted| ==> wanted[i] in columns
    ensures r.Some? ==> exists i :: 0 <= i < |wanted| && wanted[i] == r.value
                                    && wanted[i] !in columns
                                    && forall j :: 0 <= j < i ==> wanted[j] in columns
  {
    if wanted == [] then None
    else if wanted[0] !in columns then Some(wanted[0])
    else
      var rest := MissingColumn(columns, wanted[1..]);
      if rest.Some? then
        var i :| 0 <= i < |wanted[1..]| && wanted[1..][i] == rest.value && wanted[1..][i] !in columns
                 && forall j :: 0 <= j < i ==> wanted[1..][j] in columns;
        assert wanted[i + 1] == rest.value;
        rest
      else
        rest
  }

  /** The costing page as written: the form's own reads, then the benchmark. */
  function CostingPageColumns(): seq<string>
  {
    ["cost_price"] + BenchmarkColumns + ["item_type", "stock_on_hand"]
  }

  /** The costing form without the benchmark: cost price, and item type and stock for the predictor. */
  function CostingFormColumns(): seq<string>
  {
    ["cost_price", "item_type", "stock_on_hand"]
  }

  /** The approval page as written reads only the benchmark from the part's row. */
  function ApprovalPageColumns(): seq<string>
  {
    BenchmarkColumns
  }

  /** As written, both pages fail at the first benchmark price for every part of the schema. */
  lemma BenchmarkFailsOnSchema()
    ensures MissingColumn(PartColumns, CostingPageColumns()) == Some("price_bkc")
    ensures MissingColumn(PartColumns, ApprovalPageColumns()) == Some("price_bkc")
  {
  }

  /** Without the benchmark every column the costing form reads exists. */
  lemma CostingFormColumnsPresent()
    ensures MissingColumn(PartColumns, CostingFormColumns()) == None
  {
  }
}
