/** The backend's `RecommendationService`
    (task4/backend/src/main/java/com/task4/service/RecommendationService.java): rating upsert
    with the running average, recommendation and similar-item look-ups, DTO conversion and
    the CSV export. The three JPA repositories are maps keyed by id; the Mahout engine is a
    pair of uninterpreted functions. */
module RecommendationService {
  import opened Wrappers
  import opened Text
  import opened MovieEntity

  /** The `RuntimeException`s the service throws, and the `NullPointerException` the export
      throws on a movie without a description. */
  datatype ServiceError = UserNotFound | MovieNotFound | NullDescription

  /** The recommendation engine as the service sees it: for a user (or an item) and a
      requested count, a list of movie ids. */
  datatype Engine = Engine(recommend: (int, nat) -> seq<int>, findSimilarItems: (int, nat) -> seq<int>)

  datatype MovieDto = MovieDto(
    id: int, title: string, genres: seq<string>, releaseYear: Option<int>,
    averageRating: real, posterUrl: string, description: Option<string>)

  /** `generatedAt` (the clock) is not part of the model. */
  datatype RecommendationResponse = RecommendationResponse(
    userId: int, movies: seq<MovieDto>, algorithm: string, confidence: real)

  datatype SimilarItemsResponse = SimilarItemsResponse(
    itemId: int, similarItems: seq<MovieDto>, algorithm: string)

  const RecommendationCount: nat := 10
  const SimilarCount: nat := 5

  /** `convertToDto`: copies the seven exported fields of the entity unchanged. */
  function ConvertToDto(m: Movie): (d: MovieDto)
    reads m
    ensures d.id == m.id && d.title == m.title && d.genres == m.genres
    ensures d.releaseYear == m.releaseYear && d.averageRating == m.averageRating
    ensures d.posterUrl == m.posterUrl && d.description == m.description
  {
    MovieDto(m.id, m.title, m.genres, m.releaseYear, m.averageRating, m.posterUrl, m.description)
  }

  /** `findAllById`: the ids among `ids` that are stored, each once, in the order the
      engine gave them. */
  function FindAllById(ids: seq<int>, stored: set<int>): (r: seq<int>)
    ensures forall k :: 0 <= k < |r| ==> r[k] in stored && r[k] in ids
    ensures forall id :: id in ids && id in stored ==> id in r
    ensures forall j, k :: 0 <= j < k < |r| ==> r[j] != r[k]
    decreases |ids|
  {
    if |ids| == 0 then []
    else if ids[0] in stored then [ids[0]] + FindAllById(ids[1..], stored - {ids[0]})
    else FindAllById(ids[1..], stored)
  }

  /** CSV header line of the backend export. */
  const ExportHeader := "Title,Genres,Year,Rating,Description"

  /** Java's `String.replace("\"", "\"\"")`: every double quote doubled. */
  function EscapeQuotes(s: string): (r: string)
    ensures '"' !in s ==> r == s
    ensures forall c :: c in r <==> c in s
    ensures |s| <= |r|
    decreases |s|
  {
    if s == [] then []
    else
      assert s == [s[0]] + s[1..];
      (if s[0] == '"' then "\"\"" else [s[0]]) + EscapeQuotes(s[1..])
  }

  /** Reads the inside of a quoted field as section 2, rule 7 of RFC 4180 defines it: two
      double quotes stand for one, a lone double quote is malformed. */
  function Unescape(s: string): Option<string>
    decreases |s|
  {
    if s == [] then Some([])
    else if s[0] == '"' then
      if |s| >= 2 && s[1] == '"' then
        match Unescape(s[2..])
        case Some(t) => Some("\"" + t)
        case None => None
      else None
    else
      match Unescape(s[1..])
      case Some(t) => Some([s[0]] + t)
      case None => None
  }

  /** Decodes a quoted field (RFC 4180, section 2, rules 5 to 7). */
  function UnquoteField(f: string): Option<string> {
    if |f| >= 2 && f[0] == '"' && f[|f| - 1] == '"' then Unescape(f[1..|f| - 1]) else None
  }

  /** Escaping then unescaping gives the text back. */
  lemma {:induction false} UnescapeEscape(s: string)
    ensures Unescape(EscapeQuotes(s)) == Some(s)
    decreases |s|
  {
    if s != [] {
      UnescapeEscape(s[1..]);
      var e := EscapeQuotes(s);
      if s[0] == '"' {
        assert e == "\"\"" + EscapeQuotes(s[1..]);
        assert e[2..] == EscapeQuotes(s[1..]);
        assert "\"" + s[1..] == s;
      } else {
        assert e == [s[0]] + EscapeQuotes(s[1..]);
        assert e[1..] == EscapeQuotes(s[1..]);
        assert [s[0]] + s[1..] == s;
      }
    }
  }

  /** The description field of an export line decodes back to the description, whatever
      double quotes it contains. */
  lemma DescriptionFieldDecodes(description: string)
    ensures UnquoteField(Quote(EscapeQuotes(description))) == Some(description)
  {
    var f := Quote(EscapeQuotes(description));
    assert f[1..|f| - 1] == EscapeQuotes(description);
    UnescapeEscape(description);
  }

  /** Unescaping never lengthens text, and shortens any text holding a double quote. */
  lemma {:induction false} UnescapeShortens(s: string)
    requires Unescape(s).Some?
    ensures |Unescape(s).value| <= |s|
    ensures '"' in s ==> |Unescape(s).value| < |s|
    decreases |s|
  {
    if s != [] {
      if s[0] == '"' {
        UnescapeShortens(s[2..]);
      } else {
        UnescapeShortens(s[1..]);
        assert '"' in s ==> '"' in s[1..];
      }
    }
  }

  /** Titles are quoted but not escaped: a title with a double quote in it never
      decodes back to the title (it either does not decode, or decodes shorter). */
  lemma TitleWithQuoteNeverRoundTrips(t: string)
    requires '"' in t
    ensures UnquoteField(Quote(t)) != Some(t)
  {
    var f := Quote(t);
    assert f[1..|f| - 1] == t;
    if Unescape(t).Some? {
      UnescapeShortens(t);
    }
  }

  /** `%d` of a nullable `Integer`: `null` prints as "null". */
  function YearText(year: Option<int>): string {
    match year
    case Some(y) => Decimal(y)
    case None => "null"
  }

  /** One export line, without its terminator; `showRating` stands for `%.1f`. */
  function ExportLine(d: MovieDto, showRating: real -> string): (r: string)
    requires d.description.Some?
    ensures var first := Quote(d.title) + ","; |first| <= |r| && r[..|first|] == first
    ensures OccursAt(r, Quote(Join(d.genres, "; ")) + ",", |Quote(d.title)| + 1)
    ensures var last := "," + Quote(EscapeQuotes(d.description.value));
            |last| <= |r| && r[|r| - |last|..] == last
  {
    var first := Quote(d.title) + ",";
    var genres := Quote(Join(d.genres, "; ")) + ",";
    var rest := YearText(d.releaseYear) + "," + showRating(d.averageRating);
    var last := "," + Quote(EscapeQuotes(d.description.value));
    var r := first + genres + rest + last;
    assert r[..|first|] == first;
    assert r[|first|..|first| + |genres|] == genres;
    assert r[|r| - |last|..] == last;
    r
  }

  predicate AllDescribed(ds: seq<MovieDto>) {
    forall k :: 0 <= k < |ds| ==> ds[k].description.Some?
  }

  function ExportLines(ds: seq<MovieDto>, showRating: real -> string): (r: seq<string>)
    requires AllDescribed(ds)
    ensures |r| == |ds|
  {
    seq(|ds|, k requires 0 <= k < |ds| => ExportLine(ds[k], showRating))
  }

  /** Every line followed by a newline, in order. */
  function Terminated(lines: seq<string>): string {
    if |lines| == 0 then "" else Terminated(lines[..|lines| - 1]) + lines[|lines| - 1] + "\n"
  }

  /** The text `exportRecommendations` writes for the recommended movies, or the
      `NullPointerException` of a movie without a description. */
  function ExportText(ds: seq<MovieDto>, showRating: real -> string): (r: Result<string, ServiceError>)
    ensures r.Failure? <==> exists k :: 0 <= k < |ds| && ds[k].description.None?
    ensures r.Failure? ==> r.error == NullDescription
    ensures r.Success? ==> var head := ExportHeader + "\n";
              |head| <= |r.value| && r.value[..|head|] == head && r.value[|r.value| - 1] == '\n'
  {
    if AllDescribed(ds) then
      var head := ExportHeader + "\n";
      var text := head + Terminated(ExportLines(ds, showRating));
      assert text[..|head|] == head;
      Success(text)
    else Failure(NullDescription)
  }

  lemma {:induction false} TerminatedIsJoin(lines: seq<string>, first: string)
    ensures first + "\n" + Terminated(lines) == Join([first] + lines + [""], "\n")
    decreases |lines|
  {
    if |lines| == 0 {
      assert [first] + lines + [""] == [first, ""];
      JoinSnoc([first], "", "\n");
    } else {
      var init := lines[..|lines| - 1];
      var last := lines[|lines| - 1];
      var a := [first] + init;
      TerminatedIsJoin(init, first);
      assert a + [""] == [first] + init + [""];
      JoinSnoc(a, "", "\n");
      assert first + "\n" + Terminated(init) == Join(a, "\n") + "\n";
      JoinSnoc(a, last, "\n");
      JoinSnoc(a + [last], "", "\n");
      assert [first] + lines + [""] == (a + [last]) + [""];
      assert Terminated(lines) == Terminated(init) + last + "\n";
    }
  }

  /** A successful export is the header line plus one newline-terminated line per movie,
      in the order of the list, provided no field contains a line break. */
  lemma ExportLineStructure(ds: seq<MovieDto>, showRating: real -> string)
    requires ExportText(ds, showRating).Success?
    requires forall k :: 0 <= k < |ds| ==> '\n' !in ExportLine(ds[k], showRating)
    ensures Split(ExportText(ds, showRating).value, '\n')
         == [ExportHeader] + ExportLines(ds, showRating) + [""]
  {
    var lines := ExportLines(ds, showRating);
    var all := [ExportHeader] + lines + [""];
    TerminatedIsJoin(lines, ExportHeader);
    assert ExportText(ds, showRating).value == Join(all, "\n");
    NoNewlineInHeader();
    forall k | 0 <= k < |all| ensures '\n' !in all[k] {
      if 1 <= k <= |lines| {
        assert all[k] == lines[k - 1] == ExportLine(ds[k - 1], showRating);
      }
    }
    SplitJoin(all, '\n');
  }

  lemma NoNewlineInHeader()
    ensures '\n' !in ExportHeader
  {
  }

  /** One more described movie adds one more terminated line. */
  lemma AppendLine(ds: seq<MovieDto>, i: nat, showRating: real -> string)
    requires i < |ds| && AllDescribed(ds[..i]) && ds[i].description.Some?
    ensures AllDescribed(ds[..i + 1])
    ensures Terminated(ExportLines(ds[..i + 1], showRating))
         == Terminated(ExportLines(ds[..i], showRating)) + ExportLine(ds[i], showRating) + "\n"
  {
    assert forall k :: 0 <= k < i ==> ds[..i + 1][k] == ds[..i][k];
    var next := ExportLines(ds[..i + 1], showRating);
    assert next[..i] == ExportLines(ds[..i], showRating);
  }

  lemma Associate(a: string, b: string, c: string, d: string)
    ensures a + b + c + d == a + (b + c + d)
  {
  }

  /** The loop of `exportRecommendations`: the header, then one line per movie appended to
      the writer; a movie without a description aborts the export. */
  method WriteCsv(ds: seq<MovieDto>, showRating: real -> string) returns (r: Result<string, ServiceError>)
    ensures r == ExportText(ds, showRating)
  {
    ghost var head := ExportHeader + "\n";
    var writer := ExportHeader + "\n";
    var i := 0;
    while i < |ds|
      invariant 0 <= i <= |ds|
      invariant AllDescribed(ds[..i])
      invariant writer == head + Terminated(ExportLines(ds[..i], showRating))
    {
      if ds[i].description.None? {
        assert !AllDescribed(ds);
        return Failure(NullDescription);
      }
      var line := ExportLine(ds[i], showRating);
      ghost var before := Terminated(ExportLines(ds[..i], showRating));
      AppendLine(ds, i, showRating);
      writer := writer + line + "\n";
      Associate(head, before, line, "\n");
      i := i + 1;
    }
    assert ds[..i] == ds;
    r := Success(writer);
  }

  class Service {
    const engine: Engine
    /** `userRepository`: the ids of the stored users. */
    var users: set<int>
    /** `movieRepository`: stored movie entities by id. */
    var movies: map<int, Movie>
    /** `ratingRepository`: one rating per (user id, movie id). */
    var ratings: map<(int, int), real>

    /** Each stored movie carries the id it is stored under (the repository's key is the
        entity's `@Id`); in particular no entity is stored under two ids. */
    ghost predicate KeyedById()
      reads this, movies.Values
    {
      forall id | id in movies :: movies[id].id == id
    }

    /** Keyed by id, and every stored movie keeps its running-average invariant. */
    ghost predicate Valid()
      reads this, movies.Values
    {
      KeyedById() && forall id | id in movies :: movies[id].Valid()
    }

    constructor (engine: Engine)
      ensures this.engine == engine && users == {} && movies == map[] && ratings == map[]
      ensures Valid()
    {
      this.engine := engine;
      users := {};
      movies := map[];
      ratings := map[];
    }

    /** The DTOs of stored movies with the given ids. */
    function Dtos(ids: seq<int>): (r: seq<MovieDto>)
      requires forall k :: 0 <= k < |ids| ==> ids[k] in movies
      reads this, movies.Values
      ensures |r| == |ids|
      ensures forall k :: 0 <= k < |ids| ==> r[k] == ConvertToDto(movies[ids[k]])
    {
      seq(|ids|, k requires 0 <= k < |ids| && ids[k] in movies reads this, movies.Values =>
        ConvertToDto(movies[ids[k]]))
    }

    /** `getRecommendations`: fails for an unknown user; otherwise returns the stored
        movies among the engine's 10 recommendations, each once, as DTOs. */
    function GetRecommendations(userId: int): (r: Result<RecommendationResponse, ServiceError>)
      requires KeyedById()
      reads this, movies.Values
      ensures userId !in users <==> r == Failure(UserNotFound)
      ensures r.Success? ==> var resp := r.value;
        && resp.userId == userId
        && resp.algorithm == "Item-Based Collaborative Filtering" && resp.confidence == 0.85
        && (forall k :: 0 <= k < |resp.movies| ==>
              resp.movies[k].id in engine.recommend(userId, RecommendationCount)
              && resp.movies[k].id in movies
              && resp.movies[k] == ConvertToDto(movies[resp.movies[k].id]))
        && (forall id :: id in engine.recommend(userId, RecommendationCount) && id in movies ==>
              exists k :: 0 <= k < |resp.movies| && resp.movies[k].id == id)
        && (forall j, k :: 0 <= j < k < |resp.movies| ==> resp.movies[j].id != resp.movies[k].id)
    {
      if userId !in users then Failure(UserNotFound)
      else
        var ids := FindAllById(engine.recommend(userId, RecommendationCount), movies.Keys);
        var dtos := Dtos(ids);
        assert forall k :: 0 <= k < |ids| ==> dtos[k].id == ids[k];
        assert forall id :: id in ids ==> exists k :: 0 <= k < |dtos| && dtos[k].id == id;
        Success(RecommendationResponse(userId, dtos, "Item-Based Collaborative Filtering", 0.85))
    }

    /** `getSimilarItems`: fails for an unknown movie; otherwise echoes `itemId` and
        returns the stored movies among the engine's 5 most similar items. */
    function GetSimilarItems(itemId: int): (r: Result<SimilarItemsResponse, ServiceError>)
      requires KeyedById()
      reads this, movies.Values
      ensures itemId !in movies <==> r == Failure(MovieNotFound)
      ensures r.Success? ==> var resp := r.value;
        && resp.itemId == itemId && resp.algorithm == "Item-Based Similarity"
        && (forall k :: 0 <= k < |resp.similarItems| ==>
              resp.similarItems[k].id in engine.findSimilarItems(itemId, SimilarCount)
              && resp.similarItems[k].id in movies
              && resp.similarItems[k] == ConvertToDto(movies[resp.similarItems[k].id]))
        && (forall id :: id in engine.findSimilarItems(itemId, SimilarCount) && id in movies ==>
              exists k :: 0 <= k < |resp.similarItems| && resp.similarItems[k].id == id)
    {
      if itemId !in movies then Failure(MovieNotFound)
      else
        var ids := FindAllById(engine.findSimilarItems(itemId, SimilarCount), movies.Keys);
        var dtos := Dtos(ids);
        assert forall k :: 0 <= k < |ids| ==> dtos[k].id == ids[k];
        assert forall id :: id in ids ==> exists k :: 0 <= k < |dtos| && dtos[k].id == id;
        Success(SimilarItemsResponse(itemId, dtos, "Item-Based Similarity"))
    }

    /** `rateMovie`: checks the user, then the movie, before writing anything; then
        stores the rating under (user, movie), replacing any earlier one, and folds it into
        the movie's average. The count grows by one even when a rating was replaced. */
    method RateMovie(userId: int, movieId: int, rating: real) returns (result: Outcome<ServiceError>)
      modifies this`ratings, if movieId in movies then {movies[movieId]} else {}
      ensures result == if userId !in users then Fail(UserNotFound)
                        else if movieId !in movies then Fail(MovieNotFound)
                        else Pass
      ensures result.Fail? ==> ratings == old(ratings)
      ensures result.Fail? && movieId in movies ==> unchanged(movies[movieId])
      ensures result.Pass? ==> ratings == old(ratings)[(userId, movieId) := rating]
      ensures result.Pass? ==> var m := movies[movieId];
        && m.ratingCount == old(m.ratingCount) + 1
        && m.ratingsSeen == old(m.ratingsSeen) + [rating]
        && (old(m.ratingCount) == 0 ==> m.averageRating == rating)
        && (old(m.ratingCount) > 0 ==>
              m.averageRating == (old(m.averageRating) * old(m.ratingCount) as real + rating)
                                 / (old(m.ratingCount) as real + 1.0))
      ensures movieId in movies ==> var m := movies[movieId];
        && m.id == old(m.id) && m.title == old(m.title) && m.genres == old(m.genres)
        && m.releaseYear == old(m.releaseYear) && m.posterUrl == old(m.posterUrl)
        && m.description == old(m.description)
      ensures old(Valid()) ==> Valid()
    {
      if userId !in users {
        return Fail(UserNotFound);
      }
      if movieId !in movies {
        return Fail(MovieNotFound);
      }
      var movie := movies[movieId];
      // Both branches of the source (update the existing rating, or save a new one)
      // leave exactly this entry for the pair.
      ratings := ratings[(userId, movieId) := rating];
      movie.UpdateRating(rating);
      result := Pass;
    }

    /** `exportRecommendations`: the recommendations as CSV, written line by line. */
    method ExportRecommendations(userId: int, showRating: real -> string)
      returns (r: Result<string, ServiceError>)
      requires KeyedById()
      ensures r == match GetRecommendations(userId)
                   case Failure(e) => Failure(e)
                   case Success(resp) => ExportText(resp.movies, showRating)
    {
      var recommendations := GetRecommendations(userId);
      if recommendations.Failure? {
        return Failure(recommendations.error);
      }
      r := WriteCsv(recommendations.value.movies, showRating);
    }
  }
}
