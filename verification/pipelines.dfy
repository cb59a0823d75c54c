/** The GTZAN label filter and remap of `gtzan_collect_genres`
    (src/mgd/pipelines.py): examples whose GTZAN label is not one of the four
    kept genres are dropped, and the surviving labels are rewritten to the
    codes of the unified taxonomy. The dataset is modelled as a sequence. */
module Pipelines {
  import opened Results
  import GtzanGenres

  /** A decoded waveform; it is carried along and never inspected. */
  type Audio = seq<real>

  /** One supervised GTZAN example, `(audio, label)`. */
  datatype Example = Example(audio: Audio, genreLabel: int)

  /** The GTZAN labels that are kept, and the codes they are rewritten to. */
  const Classes: seq<int> := [1, 4, 7, 9]
  const NewClasses: seq<int> := [0, 1, 3, 4]
  const DefaultValue: int := 5

  /** A static hash table: a fixed key/value map and the value returned for a missing key. */
  datatype StaticHashTable = StaticHashTable(table: map<int, int>, default: int)
  {
    /** The value bound to `key`, or the default when `key` is missing. */
    function Lookup(key: int): (v: int)
      ensures key in table ==> v == table[key]
      ensures key !in table ==> v == default
    {
      if key in table then table[key] else default
    }
  }

  /** The table built from parallel key and value tensors: every key is
      present, and a key takes the value paired with its first occurrence. */
  function KeyValueTable(keys: seq<int>, values: seq<int>): (m: map<int, int>)
    requires |keys| == |values|
    ensures m.Keys == set k | k in keys
    ensures forall i :: 0 <= i < |keys| && keys[i] !in keys[..i] ==> m[keys[i]] == values[i]
  {
    if |keys| == 0 then map[]
    else
      var rest := KeyValueTable(keys[1..], values[1..]);
      assert forall i :: 1 <= i < |keys| ==> keys[1..][..i - 1] == keys[1..i];
      rest[keys[0] := values[0]]
  }

  /** The `mapper` table of the source. */
  const Mapper: StaticHashTable := StaticHashTable(KeyValueTable(Classes, NewClasses), DefaultValue)

  /** `mapper.lookup`: 1, 4, 7, 9 become 0, 1, 3, 4 and every other label the default 5. */
  function RemapLabel(key: int): (r: int)
    ensures key == 1 ==> r == 0
    ensures key == 4 ==> r == 1
    ensures key == 7 ==> r == 3
    ensures key == 9 ==> r == 4
    ensures key !in Classes ==> r == DefaultValue
  {
    assert Classes[..0] == [] && Classes[..1] == [1] && Classes[..2] == [1, 4] && Classes[..3] == [1, 4, 7];
    Mapper.Lookup(key)
  }

  /** `reduce_any(equal(label, classes))`. */
  function AnyEqual(x: int, classes: seq<int>): (b: bool)
    ensures b <==> x in classes
  {
    |classes| > 0 && (classes[0] == x || AnyEqual(x, classes[1..]))
  }

  /** The `_filter` predicate: whether an example survives. */
  function Keep(e: Example): (b: bool)
    ensures b <==> e.genreLabel in {1, 4, 7, 9}
  {
    AnyEqual(e.genreLabel, Classes)
  }

  /** `dataset.filter(_filter)`. */
  function FilterExamples(xs: seq<Example>): (r: seq<Example>)
    ensures |r| <= |xs|
    ensures forall i :: 0 <= i < |r| ==> Keep(r[i])
  {
    if |xs| == 0 then []
    else (if Keep(xs[0]) then [xs[0]] else []) + FilterExamples(xs[1..])
  }

  /** The filtered dataset holds each kept example exactly as often as the
      input does, and no dropped one. */
  lemma {:induction false} FilterCounts(xs: seq<Example>)
    ensures forall e :: multiset(FilterExamples(xs))[e] == if Keep(e) then multiset(xs)[e] else 0
    decreases |xs|
  {
    if |xs| > 0 {
      assert xs == [xs[0]] + xs[1..];
      FilterCounts(xs[1..]);
    }
  }

  /** `dataset.map(_map)`. */
  function MapExamples(xs: seq<Example>): (r: seq<Example>)
    ensures |r| == |xs|
    ensures forall i :: 0 <= i < |xs| ==> r[i].audio == xs[i].audio && r[i].genreLabel == RemapLabel(xs[i].genreLabel)
  {
    seq(|xs|, i requires 0 <= i < |xs| => Example(xs[i].audio, RemapLabel(xs[i].genreLabel)))
  }

  /** The label part of `gtzan_collect_genres`: filter, then remap. */
  function CollectGenres(xs: seq<Example>): (r: seq<Example>)
    ensures |r| <= |xs|
    ensures forall i :: 0 <= i < |r| ==> r[i].genreLabel in {0, 1, 3, 4}
    ensures forall i :: 0 <= i < |r| ==> r[i].genreLabel != DefaultValue
    ensures forall i :: 0 <= i < |r| ==> AudioOfKept(r[i].audio, xs)
  {
    var kept := FilterExamples(xs);
    RemappedLabelsInRange(kept);
    RemappedAudioFromInput(xs);
    MapExamples(kept)
  }

  /** Whether `a` is the audio of some input example that survives the filter. */
  ghost predicate AudioOfKept(a: Audio, xs: seq<Example>)
  {
    exists j :: 0 <= j < |xs| && Keep(xs[j]) && xs[j].audio == a
  }

  /** Every audio left by filter-then-map is the audio of a kept input example. */
  lemma RemappedAudioFromInput(xs: seq<Example>)
    ensures forall i :: 0 <= i < |FilterExamples(xs)| ==>
      AudioOfKept(MapExamples(FilterExamples(xs))[i].audio, xs)
  {
    var kept := FilterExamples(xs);
    FilteredAreKept(xs);
    forall i | 0 <= i < |kept|
      ensures AudioOfKept(MapExamples(kept)[i].audio, xs)
    {
      assert exists j :: 0 <= j < |xs| && Keep(xs[j]) && xs[j] == kept[i];
      var j :| 0 <= j < |xs| && Keep(xs[j]) && xs[j] == kept[i];
      assert xs[j].audio == MapExamples(kept)[i].audio;
    }
  }

  /** Every filtered example is a kept example of the input. */
  lemma FilteredAreKept(xs: seq<Example>)
    ensures forall i :: 0 <= i < |FilterExamples(xs)| ==>
      exists j :: 0 <= j < |xs| && Keep(xs[j]) && xs[j] == FilterExamples(xs)[i]
  {
    var kept := FilterExamples(xs);
    FilterCounts(xs);
    forall i | 0 <= i < |kept|
      ensures exists j :: 0 <= j < |xs| && Keep(xs[j]) && xs[j] == kept[i]
    {
      assert kept[i] in multiset(kept);
      assert kept[i] in xs;
      var j :| 0 <= j < |xs| && xs[j] == kept[i];
    }
  }

  /** Remapping kept examples yields labels in {0, 1, 3, 4}, with their audio unchanged. */
  lemma RemappedLabelsInRange(kept: seq<Example>)
    requires forall i :: 0 <= i < |kept| ==> Keep(kept[i])
    ensures |MapExamples(kept)| == |kept|
    ensures forall i :: 0 <= i < |kept| ==>
      && MapExamples(kept)[i].genreLabel in {0, 1, 3, 4}
      && MapExamples(kept)[i].audio == kept[i].audio
  {
    forall i | 0 <= i < |kept|
      ensures MapExamples(kept)[i].genreLabel in {0, 1, 3, 4}
    {
      var l := kept[i].genreLabel;
      assert l in {1, 4, 7, 9};
    }
  }

  /** Filtering distributes over concatenation. */
  lemma {:induction false} FilterAppend(a: seq<Example>, b: seq<Example>)
    ensures FilterExamples(a + b) == FilterExamples(a) + FilterExamples(b)
    decreases |a|
  {
    if |a| == 0 {
      assert a + b == b;
    } else {
      assert (a + b)[1..] == a[1..] + b;
      FilterAppend(a[1..], b);
    }
  }

  /** Remapping works example by example, so it distributes over concatenation. */
  lemma MapAppend(a: seq<Example>, b: seq<Example>)
    ensures MapExamples(a + b) == MapExamples(a) + MapExamples(b)
  {
    var l, r := MapExamples(a + b), MapExamples(a) + MapExamples(b);
    assert |l| == |r|;
    forall i | 0 <= i < |l|
      ensures l[i] == r[i]
    {
      if i < |a| {
        assert (a + b)[i] == a[i];
      } else {
        assert (a + b)[i] == b[i - |a|];
      }
    }
  }

  /** Order preservation and audio pass-through: the pipeline distributes over
      concatenation, so surviving examples keep their relative order. */
  lemma CollectGenresAppend(a: seq<Example>, b: seq<Example>)
    ensures CollectGenres(a + b) == CollectGenres(a) + CollectGenres(b)
  {
    FilterAppend(a, b);
    MapAppend(FilterExamples(a), FilterExamples(b));
  }

  /** On a single example, the pipeline drops it or keeps its audio and remaps its label. */
  lemma CollectGenresSingle(e: Example)
    ensures Keep(e) ==> CollectGenres([e]) == [Example(e.audio, RemapLabel(e.genreLabel))]
    ensures !Keep(e) ==> CollectGenres([e]) == []
  {
    assert [e][1..] == [];
  }

  /** The positions among the first `n` examples whose label is kept. */
  function KeptPositions(xs: seq<Example>, n: nat): set<nat>
    requires n <= |xs|
  {
    set i: nat | i < n && Keep(xs[i])
  }

  lemma KeptPositionsStep(xs: seq<Example>, n: nat)
    requires n < |xs|
    ensures |KeptPositions(xs, n + 1)| == |KeptPositions(xs, n)| + (if Keep(xs[n]) then 1 else 0)
  {
    var s := KeptPositions(xs, n);
    assert n !in s;
    if Keep(xs[n]) {
      assert KeptPositions(xs, n + 1) == s + {n};
    } else {
      assert KeptPositions(xs, n + 1) == s;
    }
  }

  lemma KeptPositionsPrefix(xs: seq<Example>, n: nat)
    requires n <= |xs|
    ensures KeptPositions(xs[..n], n) == KeptPositions(xs, n)
  {
  }

  /** Filtering keeps one example for each input example whose label is kept. */
  lemma {:induction false} FilterLength(xs: seq<Example>)
    ensures |FilterExamples(xs)| == |KeptPositions(xs, |xs|)|
    decreases |xs|
  {
    if |xs| == 0 {
      assert KeptPositions(xs, 0) == {};
    } else {
      var n := |xs| - 1;
      var init := xs[..n];
      assert xs == init + [xs[n]];
      FilterAppend(init, [xs[n]]);
      assert [xs[n]][1..] == [];
      FilterLength(init);
      KeptPositionsPrefix(xs, n);
      KeptPositionsStep(xs, n);
    }
  }

  /** The output has one example for each input example whose label is kept. */
  lemma CollectGenresLength(xs: seq<Example>)
    ensures |CollectGenres(xs)| == |KeptPositions(xs, |xs|)|
  {
    FilterLength(xs);
  }

  /** The pipeline written in terms of the genre lookup: every kept label
      becomes the code of the genre `from_gtzan_genre` gives for it. */
  function CollectViaGenres(xs: seq<Example>): seq<Example>
  {
    if |xs| == 0 then []
    else
      var rest := CollectViaGenres(xs[1..]);
      match GtzanGenres.FromGtzanGenre(GtzanGenres.Number(xs[0].genreLabel))
      case Success(g) => [Example(xs[0].audio, g.Code())] + rest
      case Failure(_) => rest
  }

  /** A label survives the filter exactly when the genre lookup accepts it. */
  lemma KeepAgreesWithGenres(e: Example)
    ensures Keep(e) <==> GtzanGenres.IsGenreGtzan(GtzanGenres.Number(e.genreLabel))
  {
  }

  /** The remap table agrees with the genre enum: an accepted label is
      rewritten to the code of the genre the lookup gives for it. */
  lemma RemapAgreesWithGenres(key: int)
    ensures GtzanGenres.FromGtzanGenre(GtzanGenres.Number(key)).Success? ==>
      RemapLabel(key) == GtzanGenres.FromGtzanGenre(GtzanGenres.Number(key)).value.Code()
  {
    if GtzanGenres.FromGtzanGenre(GtzanGenres.Number(key)).Success? {
      assert key in {1, 4, 7, 9};
      GtzanGenres.NumberMapping();
    }
  }

  /** The pipeline and its genre-lookup formulation give the same dataset. */
  lemma {:induction false} CollectGenresMatchesGenreCodes(xs: seq<Example>)
    ensures CollectGenres(xs) == CollectViaGenres(xs)
    decreases |xs|
  {
    if |xs| > 0 {
      assert xs == [xs[0]] + xs[1..];
      CollectGenresAppend([xs[0]], xs[1..]);
      CollectGenresSingle(xs[0]);
      KeepAgreesWithGenres(xs[0]);
      RemapAgreesWithGenres(xs[0].genreLabel);
      CollectGenresMatchesGenreCodes(xs[1..]);
    }
  }
}
