/**
  * The records the two film screens work on: the genre table entries (`Category`),
  * favourite records (`Favori`) and films (`Film`), plus Kotlin's 32-bit `Int`.
  * The domain classes themselves are not part of this model; their fields are
  * taken from the uses in the two activities.
  */
module Domain {

  /** A Kotlin `Int`: 32-bit two's complement. */
  newtype Int32 = x: int | -0x8000_0000 <= x < 0x8000_0000

  const MaxInt32: Int32 := 0x7fff_ffff
  const MinInt32: Int32 := -0x8000_0000

  /** `page++` on a Kotlin `Int`: the successor modulo 2^32, in two's complement. */
  function Inc(p: Int32): (r: Int32)
    ensures p < MaxInt32 ==> r as int == p as int + 1
    ensures (r as int - p as int - 1) % 0x1_0000_0000 == 0
  {
    if p == MaxInt32 then MinInt32 else p + 1
  }

  /** One entry of the genre table. Read-only once fetched. */
  datatype Category = Category(id: int, name: string)

  /** One favourite record of the realtime database. */
  datatype Favori = Favori(userEmail: string, filmId: int)

  /**
    * A film as decoded from the catalogue. Its identifier and genre ids are never
    * changed by the app; its resolved `genres` list is overwritten by the genre join.
    */
  class Film {
    const id: int
    const genresId: seq<int>
    var genres: seq<Category>

    /** A film as the decoder hands it over, `genres` holding whatever it was given. */
    constructor (id: int, genresId: seq<int>, genres: seq<Category>)
      ensures this.id == id && this.genresId == genresId && this.genres == genres
    {
      this.id := id;
      this.genresId := genresId;
      this.genres := genres;
    }
  }
}
