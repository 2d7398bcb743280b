/** The option tables of lib/constants.ts, by the ids the screens use. */
module Constants {
  import opened Types

  const StreamingServiceIds: seq<string> :=
    ["netflix", "hulu", "max", "prime", "disney", "peacock", "paramount", "apple", "tubi", "pluto"]

  const Genres: seq<string> :=
    ["Action", "Comedy", "Drama", "Horror", "Thriller", "Sci-Fi", "Romance",
     "Documentary", "Animation", "Fantasy", "Mystery", "Crime"]

  const MoodIds: seq<string> :=
    ["chill", "feelgood", "intense", "mindbending", "scary", "funny", "tearjerker"]

  const RuntimeOptionIds: seq<string> := ["short", "medium", "long", "any"]

  const YearOptionIds: seq<string> := ["classic", "2000s", "2010s", "recent", "any"]

  const RatingOptionValues: seq<int> := [0, 6, 7, 8]

  const ContentTypes: seq<ContentType> := [Movies, Tv, Both]
}
