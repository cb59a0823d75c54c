/** The unified five-genre taxonomy and the lookup from GTZAN's native labels
    onto it (src/mgd/genres.py). */
module GtzanGenres {
  import opened Results

  /** The members of the `Genres` enum, in declaration order. */
  datatype Genres = Classic | HipHop | Electronic | Pop | Rock
  {
    /** First component of the member's value tuple. */
    function Code(): nat
    {
      match this
      case Classic => 0
      case HipHop => 1
      case Electronic => 2
      case Pop => 3
      case Rock => 4
    }

    /** Second component of the member's value tuple: the Portuguese display name. */
    function DisplayName(): string
    {
      match this
      case Classic => "Clássica"
      case HipHop => "Hip-Hop"
      case Electronic => "Eletrônica"
      case Pop => "Pop"
      case Rock => "Rock"
    }
  }

  /** The members in enum iteration order. */
  const AllGenres: seq<Genres> := [Classic, HipHop, Electronic, Pop, Rock]

  /** A GTZAN label as the source accepts it: a genre name or its integer code. */
  datatype GtzanValue = Name(name: string) | Number(number: int)

  /** The dictionary-lookup failure raised for a key absent from a mapper. */
  datatype LookupError = KeyError(key: GtzanValue)

  const GtzanStrMapper: map<string, Genres> :=
    map["classical" := Classic, "hiphop" := HipHop, "pop" := Pop, "rock" := Rock]

  const GtzanIntMapper: map<int, Genres> :=
    map[1 := Classic, 4 := HipHop, 7 := Pop, 9 := Rock]

  /** Whether a GTZAN label is one of the genres kept in the unified taxonomy. */
  function IsGenreGtzan(v: GtzanValue): (b: bool)
    ensures v.Name? ==> (b <==> v.name in {"classical", "hiphop", "pop", "rock"})
    ensures v.Number? ==> (b <==> v.number in {1, 4, 7, 9})
  {
    match v
    case Name(s) => s in GtzanStrMapper.Keys
    case Number(n) => n in GtzanIntMapper.Keys
  }

  /** The genre a GTZAN label stands for; a label outside the mapper fails
      with the key it was looked up by. */
  function FromGtzanGenre(v: GtzanValue): (r: Result<Genres, LookupError>)
    ensures r.Success? <==> IsGenreGtzan(v)
    ensures r.Failure? ==> r.error == KeyError(v)
    ensures r != Success(Electronic)
  {
    match v
    case Name(s) => if s in GtzanStrMapper then Success(GtzanStrMapper[s]) else Failure(KeyError(v))
    case Number(n) => if n in GtzanIntMapper then Success(GtzanIntMapper[n]) else Failure(KeyError(v))
  }

  /** The codes of the members are 0..4 in declaration order, and every member is listed. */
  lemma CodesFollowDeclarationOrder()
    ensures |AllGenres| == 5
    ensures forall i :: 0 <= i < |AllGenres| ==> AllGenres[i].Code() == i
    ensures forall g: Genres :: g in AllGenres
  {
    forall g: Genres
      ensures g in AllGenres
    {
      assert AllGenres[g.Code()] == g;
    }
  }

  /** The integer mapper sends 1, 4, 7, 9 to CLASSIC, HIP_HOP, POP, ROCK. */
  lemma NumberMapping()
    ensures FromGtzanGenre(Number(1)) == Success(Classic)
    ensures FromGtzanGenre(Number(4)) == Success(HipHop)
    ensures FromGtzanGenre(Number(7)) == Success(Pop)
    ensures FromGtzanGenre(Number(9)) == Success(Rock)
  {
  }

  /** Each GTZAN name and its GTZAN integer code select the same genre. */
  lemma MappersAgree()
    ensures FromGtzanGenre(Name("classical")) == FromGtzanGenre(Number(1)) == Success(Classic)
    ensures FromGtzanGenre(Name("hiphop")) == FromGtzanGenre(Number(4)) == Success(HipHop)
    ensures FromGtzanGenre(Name("pop")) == FromGtzanGenre(Number(7)) == Success(Pop)
    ensures FromGtzanGenre(Name("rock")) == FromGtzanGenre(Number(9)) == Success(Rock)
  {
  }

  /** Distinct accepted labels of the same kind select distinct genres. */
  lemma MappersInjective(a: GtzanValue, b: GtzanValue)
    requires a.Name? == b.Name?
    requires FromGtzanGenre(a).Success? && FromGtzanGenre(b).Success?
    requires FromGtzanGenre(a) == FromGtzanGenre(b)
    ensures a == b
  {
  }
}
