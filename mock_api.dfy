/** The front end's mock data service (src/services/api.ts): search, similar items, the CSV
    export and the canned answers of upload and rating. The fixture data it reads is a
    parameter (`catalogue` stands for `mockMovies`); the artificial delays are not modelled. */
module MockApi {
  import opened Wrappers
  import opened Text
  import opened Lists
  import opened Types

  /** The search condition: the lower-cased title or some lower-cased genre contains the
      lower-cased query. */
  predicate Matches(m: Movie, query: string) {
    var q := Lower(query);
    Includes(Lower(m.title), q) || exists k :: 0 <= k < |m.genre| && Includes(Lower(m.genre[k]), q)
  }

  /** `searchMovies`: exactly the catalogue movies that match, in catalogue order. */
  function SearchMovies(catalogue: seq<Movie>, query: string): (r: seq<Movie>)
    ensures forall k :: 0 <= k < |r| ==> r[k] in catalogue && Matches(r[k], query)
    ensures forall k :: 0 <= k < |catalogue| && Matches(catalogue[k], query) ==> catalogue[k] in r
    ensures IsSubsequence(r, catalogue)
    ensures forall m :: multiset(r)[m] == if Matches(m, query) then multiset(catalogue)[m] else 0
  {
    FilterCounts(catalogue, m => Matches(m, query));
    Filter(catalogue, m => Matches(m, query))
  }

  /** Changing the letter case of the query does not change the search result. */
  lemma SearchIgnoresCase(catalogue: seq<Movie>, query: string, query': string)
    requires Lower(query) == Lower(query')
    ensures SearchMovies(catalogue, query) == SearchMovies(catalogue, query')
  {
    FilterCongruent(catalogue, m => Matches(m, query), m => Matches(m, query'));
  }

  /** A movie is offered as similar to `itemId` when it is another movie and has a truthy
      similarity score. */
  predicate SimilarTo(m: Movie, itemId: int) {
    m.id != itemId && Truthy(m.similarityScore)
  }

  const SimilarLimit: nat := 5

  /** `getSimilarItems`: echoes `itemId`; the first five other movies with a truthy
      similarity score, in catalogue order; all of them when there are fewer than five. */
  function GetSimilarItems(catalogue: seq<Movie>, itemId: int): (r: SimilarItemsResponse)
    ensures r.itemId == itemId && r.algorithm == "Item-Based Similarity"
    ensures |r.similarItems| <= SimilarLimit
    ensures forall k :: 0 <= k < |r.similarItems| ==>
              r.similarItems[k] in catalogue && r.similarItems[k].id != itemId
              && Truthy(r.similarItems[k].similarityScore)
    ensures IsSubsequence(r.similarItems, catalogue)
    ensures var all := Filter(catalogue, m => SimilarTo(m, itemId));
            |r.similarItems| == Min(SimilarLimit, |all|) && r.similarItems == all[..|r.similarItems|]
    ensures |r.similarItems| < SimilarLimit ==>
              forall k :: 0 <= k < |catalogue| && SimilarTo(catalogue[k], itemId) ==>
                catalogue[k] in r.similarItems
  {
    var all := Filter(catalogue, m => SimilarTo(m, itemId));
    var top := Take(all, SimilarLimit);
    PrefixOfSubsequence(all, catalogue, |top|);
    SimilarItemsResponse(itemId, top, "Item-Based Similarity")
  }

  const CsvHeader := "Title,Genre,Year,Rating,Similarity Score"

  /** `${item.similarityScore || 'N/A'}`. */
  function ScoreText(score: Option<real>, showNumber: real -> string): (r: string)
    ensures score.None? || score == Some(0.0) ==> r == "N/A"
    ensures score.Some? && score.value != 0.0 ==> r == showNumber(score.value)
  {
    if Truthy(score) then showNumber(score.value) else "N/A"
  }

  /** One CSV row; `showNumber` stands for JavaScript's printing of a non-integral number.
      Title and genres are quoted without escaping. */
  function CsvRow(item: Movie, showNumber: real -> string): (r: string)
    ensures var first := Quote(item.title) + ","; |first| <= |r| && r[..|first|] == first
    ensures OccursAt(r, Quote(Join(item.genre, "; ")) + ",", |Quote(item.title)| + 1)
    ensures var last := "," + ScoreText(item.similarityScore, showNumber);
            |last| <= |r| && r[|r| - |last|..] == last
  {
    var first := Quote(item.title) + ",";
    var genres := Quote(Join(item.genre, "; ")) + ",";
    var rest := Decimal(item.year) + "," + showNumber(item.rating);
    var last := "," + ScoreText(item.similarityScore, showNumber);
    var r := first + genres + rest + last;
    assert r[..|first|] == first;
    assert r[|first|..|first| + |genres|] == genres;
    assert r[|r| - |last|..] == last;
    r
  }

  function CsvRows(items: seq<Movie>, showNumber: real -> string): (r: seq<string>)
    ensures |r| == |items|
  {
    seq(|items|, k requires 0 <= k < |items| => CsvRow(items[k], showNumber))
  }

  /** The csv branch of `exportRecommendations`: the header and the rows joined by
      newlines, with no newline at the end. */
  function ExportCsv(items: seq<Movie>, showNumber: real -> string): (r: string)
    ensures |CsvHeader| <= |r| && r[..|CsvHeader|] == CsvHeader
    ensures |items| == 0 ==> r == CsvHeader
    ensures |items| > 0 ==> var last := "\n" + CsvRow(items[|items| - 1], showNumber);
              |last| <= |r| && r[|r| - |last|..] == last
  {
    var xs := [CsvHeader] + CsvRows(items, showNumber);
    assert |items| == 0 ==> xs == [CsvHeader];
    assert |items| > 0 ==> xs[|xs| - 1] == CsvRow(items[|items| - 1], showNumber);
    JoinEnds(xs, "\n");
    Join(xs, "\n")
  }

  /** Read back line by line, the export is the header followed by one row per item, in
      order, and nothing after the last row, provided no field contains a line break. */
  lemma ExportCsvLines(items: seq<Movie>, showNumber: real -> string)
    requires forall k :: 0 <= k < |items| ==> '\n' !in CsvRow(items[k], showNumber)
    ensures Split(ExportCsv(items, showNumber), '\n') == [CsvHeader] + CsvRows(items, showNumber)
  {
    var rows := CsvRows(items, showNumber);
    var all := [CsvHeader] + rows;
    assert '\n' !in CsvHeader;
    assert forall k :: 0 <= k < |rows| ==> '\n' !in rows[k];
    forall k | 0 <= k < |all| ensures '\n' !in all[k] {
      if k > 0 {
        assert all[k] == rows[k - 1];
      }
    }
    SplitJoin(all, '\n');
  }

  /** `uploadData`: always reports success, and names the kind of data in its message. */
  function UploadData(fileName: string, kind: DataKind): (r: ApiResponse)
    ensures r.success
    ensures r.data == fileName + " uploaded successfully"
    ensures r.message == kind.Name() + " data processed and model updated"
  {
    ApiResponse(fileName + " uploaded successfully",
                kind.Name() + " data processed and model updated", true)
  }

  /** `rateMovie`: always reports success, whatever user, movie or rating it is given. */
  function RateMovie(userId: int, movieId: int, rating: real): (r: ApiResponse)
    ensures r.success && r.data == "Rating submitted"
  {
    ApiResponse("Rating submitted",
                "Your rating has been recorded and will improve future recommendations", true)
  }
}
