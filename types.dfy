/** The records the front end exchanges (src/types/index.ts). JavaScript numbers that hold
    integers (ids, years) are `int`; the others are `real`; optional fields are `Option`. */
module Types {
  import opened Wrappers

  datatype Movie = Movie(
    id: int, title: string, genre: seq<string>, year: int, rating: real, posterUrl: string,
    description: string, userRating: Option<real>, similarityScore: Option<real>)

  datatype ApiResponse = ApiResponse(data: string, message: string, success: bool)

  datatype SimilarItemsResponse = SimilarItemsResponse(
    itemId: int, similarItems: seq<Movie>, algorithm: string)

  /** The `type` argument of `uploadData`: 'ratings' | 'movies'. */
  datatype DataKind = Ratings | Movies {
    function Name(): string {
      match this
      case Ratings => "ratings"
      case Movies => "movies"
    }
  }

  /** JavaScript truthiness of an optional number: absent and 0 are falsy. */
  predicate Truthy(x: Option<real>) {
    x.Some? && x.value != 0.0
  }
}
