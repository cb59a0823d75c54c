/** The numbered genre enum and its decoder from a numeric code (src/mgd/genre.py). */
module GenreCodes {
  import opened Results
  import GtzanGenres

  /** The members of the `Genre` enum, in declaration order. */
  datatype Genre = Classic | HipHop | Electronic | Pop | Rock
  {
    /** First component of the member's value tuple. */
    function Code(): nat
    {
      match this
      case Classic => 0
      case HipHop => 1
      case Electronic => 2
      case Pop => 3
      case Rock => 4
    }

    /** Second component of the member's value tuple. */
    function DisplayName(): string
    {
      match this
      case Classic => "Clássica"
      case HipHop => "Hip-Hop"
      case Electronic => "Eletrônica"
      case Pop => "Pop"
      case Rock => "Rock"
    }
  }

  /** The members in enum iteration order. */
  const AllGenre: seq<Genre> := [Classic, HipHop, Electronic, Pop, Rock]

  /** The `ValueError` raised for a code outside 0..4. */
  datatype NumberError = ValueError(message: string)

  const UnrecognizedMessage: string := "Valor não reconhecido"

  /** The member whose code is `v`; any other integer fails. */
  function FromNumber(v: int): (r: Result<Genre, NumberError>)
    ensures r.Success? <==> 0 <= v <= 4
    ensures r.Success? ==> r.value.Code() == v
    ensures r.Failure? ==> r.error == ValueError(UnrecognizedMessage)
  {
    if v == 0 then Success(Classic)
    else if v == 1 then Success(HipHop)
    else if v == 2 then Success(Electronic)
    else if v == 3 then Success(Pop)
    else if v == 4 then Success(Rock)
    else Failure(ValueError(UnrecognizedMessage))
  }

  /** Decoding a member's own code gives the member back. */
  lemma FromNumberRoundTrip(g: Genre)
    ensures FromNumber(g.Code()) == Success(g)
  {
  }

  /** `FromNumber` is a bijection from 0..4 onto the five members, in declaration order. */
  lemma FromNumberBijective()
    ensures forall i :: 0 <= i < |AllGenre| ==> FromNumber(i) == Success(AllGenre[i])
    ensures forall v, w :: FromNumber(v).Success? && FromNumber(v) == FromNumber(w) ==> v == w
    ensures forall g: Genre :: exists v :: 0 <= v <= 4 && FromNumber(v) == Success(g)
  {
    forall g: Genre
      ensures exists v :: 0 <= v <= 4 && FromNumber(v) == Success(g)
    {
      FromNumberRoundTrip(g);
      assert 0 <= g.Code() <= 4;
    }
  }

  /** The member of `Genres` with the same name. */
  function ToGenres(g: Genre): (h: GtzanGenres.Genres)
    ensures h.Code() == g.Code()
    ensures h.DisplayName() == g.DisplayName()
  {
    match g
    case Classic => GtzanGenres.Classic
    case HipHop => GtzanGenres.HipHop
    case Electronic => GtzanGenres.Electronic
    case Pop => GtzanGenres.Pop
    case Rock => GtzanGenres.Rock
  }

  /** `Genre` and `Genres` list the same members, in the same order, with the
      same value tuples. */
  lemma EnumsCoincide()
    ensures |AllGenre| == |GtzanGenres.AllGenres|
    ensures forall i :: 0 <= i < |AllGenre| ==>
      && ToGenres(AllGenre[i]) == GtzanGenres.AllGenres[i]
      && AllGenre[i].Code() == GtzanGenres.AllGenres[i].Code() == i
      && AllGenre[i].DisplayName() == GtzanGenres.AllGenres[i].DisplayName()
  {
  }
}
