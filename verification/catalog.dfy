/** Catalog search (src/agent/tools/search-products.ts): a case-insensitive substring match of
    the query against each catalog row's title and description, keeping the first matches in
    catalog order and filling placeholder text for missing fields. The CSV file itself is not
    modelled; the rows it would stream arrive as a sequence. */
module Catalog {
  import opened Outcomes
  import Text

  /** At most this many products are returned. */
  const MaxResults: nat := 2

  /** One CSV row; every column may be absent. */
  datatype CsvRecord = CsvRecord(
    displayTitle: Option<string>,
    embeddingText: Option<string>,
    price: Option<string>,
    url: Option<string>,
    imageUrl: Option<string>,
    productType: Option<string>)

  /** The product shape handed back to the caller. */
  datatype Product = Product(
    title: string,
    description: string,
    price: string,
    url: string,
    imageUrl: string,
    category: string)

  function Min(a: nat, b: nat): nat { if a <= b then a else b }

  /** The query as it is compared: lower-cased, then trimmed. */
  function NormalizeQuery(query: string): (q: string)
    ensures |q| <= |query|
    ensures forall i :: 0 <= i < |q| ==> !Text.IsAsciiUpper(q[i])
    ensures |q| > 0 ==> !Text.IsJsWhitespace(q[0]) && !Text.IsJsWhitespace(q[|q| - 1])
  {
    TrimKeepsLowerCase(Text.ToLower(query));
    Text.Trim(Text.ToLower(query))
  }

  /** Trimming keeps only characters of its input, so it keeps a lower-cased text lower-case. */
  lemma TrimKeepsLowerCase(s: string)
    requires forall i :: 0 <= i < |s| ==> !Text.IsAsciiUpper(s[i])
    ensures forall i :: 0 <= i < |Text.Trim(s)| ==> !Text.IsAsciiUpper(Text.Trim(s)[i])
  {
    var t := Text.Trim(s);
    var k := |s| - |Text.TrimStart(s)|;
    forall i | 0 <= i < |t|
      ensures !Text.IsAsciiUpper(t[i])
    {
      assert t[i] == s[k + i];
    }
  }

  /** A column lower-cased for matching; an absent column reads as "". */
  function Searchable(column: Option<string>): string {
    Text.ToLower(column.GetOr(""))
  }

  /** A row matches when the normalised query occurs in its lower-cased title or description. */
  predicate IsMatch(row: CsvRecord, normalized: string)
    ensures normalized == "" ==> IsMatch(row, normalized)
  {
    Text.Contains(Searchable(row.displayTitle), normalized)
    || Text.Contains(Searchable(row.embeddingText), normalized)
  }

  /** `column || fallback`: an absent or empty column is replaced by the placeholder. */
  function OrDefault(column: Option<string>, fallback: string): (r: string)
    ensures column.Some? && column.value != "" ==> r == column.value
    ensures column.None? || column.value == "" ==> r == fallback
  {
    if column.Some? && column.value != "" then column.value else fallback
  }

  /** The product a matching row is returned as: original (not lower-cased) text, placeholders
      for falsy columns. */
  function Project(row: CsvRecord): Product {
    Product(
      OrDefault(row.displayTitle, "Untitled Product"),
      OrDefault(row.embeddingText, "No description available"),
      OrDefault(row.price, "Price not available"),
      OrDefault(row.url, ""),
      OrDefault(row.imageUrl, ""),
      OrDefault(row.productType, "Uncategorized"))
  }

  /** What a projected product shows: title, description, price and category are never empty,
      since a placeholder stands in for a missing column; present columns are copied unchanged,
      and the links default to "". */
  lemma ProjectPlaceholders(row: CsvRecord)
    ensures var p := Project(row);
      && p.title != "" && p.description != "" && p.price != "" && p.category != ""
      && (row.displayTitle.Some? && row.displayTitle.value != "" ==> p.title == row.displayTitle.value)
      && (row.embeddingText.Some? && row.embeddingText.value != "" ==> p.description == row.embeddingText.value)
      && row.url.GetOr("") == p.url && row.imageUrl.GetOr("") == p.imageUrl
  {
  }

  /** The positions of the matching rows, in catalog order: strictly increasing, each one a
      match, and every match listed. */
  function MatchIndices(rows: seq<CsvRecord>, normalized: string): (m: seq<nat>)
    ensures forall k :: 0 <= k < |m| ==> m[k] < |rows| && IsMatch(rows[m[k]], normalized)
    ensures forall k, l :: 0 <= k < l < |m| ==> m[k] < m[l]
    ensures forall i :: 0 <= i < |rows| && IsMatch(rows[i], normalized) ==> i in m
  {
    if |rows| == 0 then []
    else
      var n := |rows| - 1;
      MatchIndices(rows[..n], normalized) + (if IsMatch(rows[n], normalized) then [n] else [])
  }

  /** Every matching row, projected, in the order the stream delivers them: the list the
      `data` handler fills. */
  function AllMatches(rows: seq<CsvRecord>, normalized: string): (r: seq<Product>)
    ensures |r| == |MatchIndices(rows, normalized)|
    ensures forall k :: 0 <= k < |r| ==> r[k] == Project(rows[MatchIndices(rows, normalized)[k]])
  {
    if |rows| == 0 then []
    else
      var n := |rows| - 1;
      AllMatches(rows[..n], normalized) + (if IsMatch(rows[n], normalized) then [Project(rows[n])] else [])
  }

  /** `searchProducts(query)` over the rows of the catalog: the first `MaxResults` matching rows,
      projected, in catalog order. No match is an empty list, not an error. */
  function Search(query: string, rows: seq<CsvRecord>): (r: seq<Product>)
    ensures var m := MatchIndices(rows, NormalizeQuery(query));
      && |r| == Min(MaxResults, |m|)
      && forall k :: 0 <= k < |r| ==> r[k] == Project(rows[m[k]])
    ensures |r| <= MaxResults
  {
    var all := AllMatches(rows, NormalizeQuery(query));
    if |all| <= MaxResults then all else all[..MaxResults]
  }

  /** The stream-shaped search: every row is inspected, matches are appended as they arrive,
      and the list is cut to `MaxResults` once the stream ends. It agrees with `Search`. */
  method SearchStreaming(query: string, rows: seq<CsvRecord>) returns (products: seq<Product>)
    ensures products == Search(query, rows)
  {
    var normalized := NormalizeQuery(query);
    var matching: seq<Product> := [];
    var i := 0;
    while i < |rows|
      invariant 0 <= i <= |rows|
      invariant matching == AllMatches(rows[..i], normalized)
    {
      AllMatchesStep(rows, i, normalized);
      if IsMatch(rows[i], normalized) {
        matching := matching + [Project(rows[i])];
      }
      i := i + 1;
    }
    assert rows[..i] == rows;
    products := if |matching| <= MaxResults then matching else matching[..MaxResults];
  }

  /** One more row of the stream: its projection is appended exactly when it matches. */
  lemma AllMatchesStep(rows: seq<CsvRecord>, i: nat, normalized: string)
    requires i < |rows|
    ensures AllMatches(rows[..i + 1], normalized)
         == AllMatches(rows[..i], normalized) + (if IsMatch(rows[i], normalized) then [Project(rows[i])] else [])
  {
    assert rows[..i + 1][..i] == rows[..i];
  }

  /** The matches of a concatenation are the matches of each part, in order. */
  lemma {:induction false} AllMatchesAppend(a: seq<CsvRecord>, b: seq<CsvRecord>, normalized: string)
    ensures AllMatches(a + b, normalized) == AllMatches(a, normalized) + AllMatches(b, normalized)
    decreases |b|
  {
    if |b| == 0 {
      assert a + b == a;
    } else {
      var n := |b| - 1;
      assert (a + b)[..|a + b| - 1] == a + b[..n];
      assert (a + b)[|a + b| - 1] == b[n];
      AllMatchesAppend(a, b[..n], normalized);
    }
  }

  /** Once two matches have been seen, the rest of the catalog cannot change the answer. */
  lemma LaterRowsIrrelevant(query: string, rows: seq<CsvRecord>, more: seq<CsvRecord>)
    requires |MatchIndices(rows, NormalizeQuery(query))| >= MaxResults
    ensures Search(query, rows + more) == Search(query, rows)
  {
    AllMatchesAppend(rows, more, NormalizeQuery(query));
  }

  /** A row that does not match is never projected: inserting one anywhere leaves the answer unchanged. */
  lemma NonMatchingRowIrrelevant(query: string, before: seq<CsvRecord>, row: CsvRecord, after: seq<CsvRecord>)
    requires !IsMatch(row, NormalizeQuery(query))
    ensures Search(query, before + [row] + after) == Search(query, before + after)
  {
    var q := NormalizeQuery(query);
    assert AllMatches([row], q) == [] by {
      assert [row][..0] == [];
    }
    calc {
      AllMatches(before + [row] + after, q);
    ==  { AllMatchesAppend(before + [row], after, q); }
      AllMatches(before + [row], q) + AllMatches(after, q);
    ==  { AllMatchesAppend(before, [row], q); }
      AllMatches(before, q) + AllMatches(after, q);
    ==  { AllMatchesAppend(before, after, q); }
      AllMatches(before + after, q);
    }
  }

  /** Every returned product carries the query in its (lower-cased) title or description:
      the matched column is non-empty whenever the query is, so its text survives projection. */
  lemma ResultsContainQuery(query: string, rows: seq<CsvRecord>)
    ensures forall p :: p in Search(query, rows) ==>
      Text.Contains(Text.ToLower(p.title), NormalizeQuery(query))
      || Text.Contains(Text.ToLower(p.description), NormalizeQuery(query))
  {
    var q := NormalizeQuery(query);
    var r := Search(query, rows);
    var m := MatchIndices(rows, q);
    forall p | p in r
      ensures Text.Contains(Text.ToLower(p.title), q) || Text.Contains(Text.ToLower(p.description), q)
    {
      var k :| 0 <= k < |r| && r[k] == p;
      ProjectionKeepsMatch(rows[m[k]], q);
    }
  }

  /** The projection of a matching row still shows the query in its title or description. */
  lemma ProjectionKeepsMatch(row: CsvRecord, q: string)
    requires IsMatch(row, q)
    ensures Text.Contains(Text.ToLower(Project(row).title), q)
         || Text.Contains(Text.ToLower(Project(row).description), q)
  {
    var p := Project(row);
    if q == "" {
      assert Text.StartsWith(Text.ToLower(p.title)[0..], q);
    } else if Text.Contains(Searchable(row.displayTitle), q) {
      assert row.displayTitle.GetOr("") != "";
    } else {
      assert row.embeddingText.GetOr("") != "";
    }
  }

  /** A blank query (empty after lower-casing and trimming) matches every row, so the answer
      is simply the first rows of the catalog. */
  lemma BlankQueryTakesFirstRows(query: string, rows: seq<CsvRecord>)
    requires NormalizeQuery(query) == ""
    ensures |Search(query, rows)| == Min(MaxResults, |rows|)
    ensures forall k :: 0 <= k < |Search(query, rows)| ==> Search(query, rows)[k] == Project(rows[k])
  {
    var m := MatchIndices(rows, "");
    forall i | 0 <= i < |rows| ensures IsMatch(rows[i], "") {
      assert Text.StartsWith(Searchable(rows[i].displayTitle)[0..], "");
    }
    IncreasingCover(m, |rows|);
  }

  /** A strictly increasing list of positions below `n` that lists every position is 0, 1, ..., n-1. */
  lemma {:induction false} IncreasingCover(m: seq<nat>, n: nat)
    requires forall k :: 0 <= k < |m| ==> m[k] < n
    requires forall k, l :: 0 <= k < l < |m| ==> m[k] < m[l]
    requires forall i :: 0 <= i < n ==> i in m
    ensures |m| == n && forall k :: 0 <= k < n ==> m[k] == k
    decreases n
  {
    if n == 0 {
    } else {
      var last := n - 1;
      assert last in m;
      var j :| 0 <= j < |m| && m[j] == last;
      var m' := m[..|m| - 1];
      assert m[|m| - 1] <= last;
      assert j == |m| - 1;
      assert forall k :: 0 <= k < |m'| ==> m'[k] == m[k] && m[k] < m[j];
      forall i | 0 <= i < last ensures i in m' {
        assert i in m;
        var t :| 0 <= t < |m| && m[t] == i;
        assert t != |m| - 1;
        assert m'[t] == i;
      }
      IncreasingCover(m', last);
    }
  }
}
