/** The `/quakes` handler of apps/api/main.py after the fetch: walk the
    decoded feed, normalise each feature, drop those below the magnitude
    threshold, sort newest first, keep the first `limit` and wrap them with
    their metadata. `Response` states the whole computation as one value;
    the method `Quakes` performs it the way the handler does, with a loop that
    appends, and is proved to produce that value. */
module Quakes {
  import opened Wrappers
  import opened Api
  import opened RecencySort

  /** Three nulls: the coordinates used when a feature has none. */
  const PLACEHOLDER: seq<Option<real>> := [None, None, None]

  /** The feature list; a document without one has no features. */
  function FeaturesOf(doc: FeedDocument): (fs: seq<RawFeature>)
    ensures doc.features.None? ==> fs == []
    ensures doc.features.Some? ==> fs == doc.features.value
  {
    doc.features.GetOr([])
  }

  /** A missing or null `properties` reads as the empty object. */
  function PropertiesOf(f: RawFeature): (p: RawProperties)
    ensures f.properties.None? ==> p == EMPTY_PROPERTIES && p.mag.None?
    ensures f.properties.Some? ==> p == f.properties.value
  {
    f.properties.GetOr(EMPTY_PROPERTIES)
  }

  /** The coordinate list: a missing geometry, a missing or null list and
      an empty list (which is falsy) all read as three nulls. */
  function CoordinatesOf(f: RawFeature): (c: seq<Option<real>>)
    ensures c != []
    ensures CoordinatesAbsent(f) ==> c == PLACEHOLDER
    ensures !CoordinatesAbsent(f) ==> c == f.geometry.value.coordinates.value
  {
    match f.geometry
    case None => PLACEHOLDER
    case Some(g) =>
      match g.coordinates
      case None => PLACEHOLDER
      case Some(given) => if given == [] then PLACEHOLDER else given
  }

  /** The feature carries no coordinate list, or an empty one. */
  predicate CoordinatesAbsent(f: RawFeature)
  {
    f.geometry.None? || f.geometry.value.coordinates.None? || f.geometry.value.coordinates.value == []
  }

  /** The magnitude gate: a feature is skipped when its magnitude is null or below `minMag`. */
  predicate Kept(f: RawFeature, minMag: real)
    ensures Kept(f, minMag) <==> PropertiesOf(f).mag.Some? && PropertiesOf(f).mag.value >= minMag
  {
    !(PropertiesOf(f).mag.None? || PropertiesOf(f).mag.value < minMag)
  }

  /** The record can read the first three coordinates. */
  predicate Indexable(f: RawFeature)
  {
    |CoordinatesOf(f)| >= 3
  }

  /** The record literal can be built: the magnitude is there and the
      coordinates can be indexed. */
  predicate Normalizable(f: RawFeature)
  {
    PropertiesOf(f).mag.Some? && Indexable(f)
  }

  /** The record built for a kept feature: null coordinates stay null (never
      0), a given list supplies longitude, latitude and depth in that order,
      and a missing time stays missing. */
  function Normalize(f: RawFeature, iso: int -> string): (q: Quake)
    requires Normalizable(f)
    ensures q.mag == PropertiesOf(f).mag.value
    ensures CoordinatesAbsent(f) ==> q.longitude.None? && q.latitude.None? && q.depthKm.None?
    ensures !CoordinatesAbsent(f) ==>
      var given := f.geometry.value.coordinates.value;
      q.longitude == given[0] && q.latitude == given[1] && q.depthKm == given[2]
    ensures q.id == f.id
    ensures var p := PropertiesOf(f);
      q.place == p.place && q.url == p.url && q.tsunami == p.tsunami && q.felt == p.felt && q.sig == p.sig
    ensures q.time == IsoUtc(iso, PropertiesOf(f).time) && (q.time.None? <==> PropertiesOf(f).time.None?)
    ensures q.updated == IsoUtc(iso, PropertiesOf(f).updated) && (q.updated.None? <==> PropertiesOf(f).updated.None?)
  {
    var props := PropertiesOf(f);
    var coords := CoordinatesOf(f);
    Quake(
      id := f.id,
      mag := props.mag.value,
      place := props.place,
      time := IsoUtc(iso, props.time),
      updated := IsoUtc(iso, props.updated),
      url := props.url,
      tsunami := props.tsunami,
      felt := props.felt,
      sig := props.sig,
      depthKm := coords[2],
      longitude := coords[0],
      latitude := coords[1])
  }

  /** The features that pass the magnitude gate, in feed order. */
  function Passing(fs: seq<RawFeature>, minMag: real): (ps: seq<RawFeature>)
    ensures |ps| <= |fs|
    ensures forall i :: 0 <= i < |ps| ==> Kept(ps[i], minMag)
  {
    if fs == [] then []
    else
      var last := fs[|fs| - 1];
      Passing(fs[..|fs| - 1], minMag) + (if Kept(last, minMag) then [last] else [])
  }

  predicate AllIndexable(ps: seq<RawFeature>)
  {
    forall i :: 0 <= i < |ps| ==> Indexable(ps[i])
  }

  /** The records of the kept features, one per feature, in the same order. */
  function NormalizeAll(ps: seq<RawFeature>, iso: int -> string): (qs: seq<Quake>)
    requires forall i :: 0 <= i < |ps| ==> Normalizable(ps[i])
    ensures |qs| == |ps|
    ensures forall i :: 0 <= i < |ps| ==> qs[i] == Normalize(ps[i], iso)
  {
    if ps == [] then []
    else NormalizeAll(ps[..|ps| - 1], iso) + [Normalize(ps[|ps| - 1], iso)]
  }

  /** The loop of the handler as one value: the records of the kept
      features, or the index error raised by the first kept feature whose
      coordinate list has one or two entries. */
  function Collect(fs: seq<RawFeature>, minMag: real, iso: int -> string): (r: Result<seq<Quake>, ServerError>)
    ensures r.Failure? <==> exists i :: 0 <= i < |fs| && Kept(fs[i], minMag) && !Indexable(fs[i])
    ensures r.Success? ==>
      && |r.value| == |Passing(fs, minMag)|
      && forall i :: 0 <= i < |r.value| ==> r.value[i].mag >= minMag
  {
    CollectFails(fs, minMag);
    var ps := Passing(fs, minMag);
    if AllIndexable(ps) then Success(NormalizeAll(ps, iso)) else Failure(CoordinateIndexError)
  }

  /** What `/quakes` answers for a validated query once `doc` has been fetched. */
  function Response(doc: FeedDocument, q: Query, generatedAt: string, iso: int -> string): (r: Result<Envelope, ServerError>)
    requires InBounds(q)
    ensures r.Failure? <==> !AllIndexable(Passing(FeaturesOf(doc), q.minMag))
    ensures r.Success? ==>
      && r.value.meta.source == SOURCE
      && r.value.meta.window == q.window
      && r.value.meta.minMag == q.minMag
      && r.value.meta.generatedAt == generatedAt
      && r.value.meta.count == |r.value.items| <= q.limit
  {
    match Collect(FeaturesOf(doc), q.minMag, iso)
    case Failure(e) => Failure(e)
    case Success(items) =>
      var shown := Prefix(SortByTimeDesc(items), q.limit);
      Success(Envelope(Meta(SOURCE, q.window, q.minMag, |shown|, generatedAt), shown))
  }

  /** When every kept feature can be indexed, `Response` holds the first
      `limit` sorted records of the kept features, with their metadata. */
  lemma ResponseShown(doc: FeedDocument, q: Query, generatedAt: string, iso: int -> string)
    requires InBounds(q)
    requires AllIndexable(Passing(FeaturesOf(doc), q.minMag))
    ensures var shown := Prefix(SortByTimeDesc(NormalizeAll(Passing(FeaturesOf(doc), q.minMag), iso)), q.limit);
      Response(doc, q, generatedAt, iso) == Success(Envelope(Meta(SOURCE, q.window, q.minMag, |shown|, generatedAt), shown))
  {
  }

  /** The handler's loop over `features`: it appends a record for every kept
      feature and stops at the first kept feature whose coordinates cannot be
      indexed. */
  method CollectRecords(features: seq<RawFeature>, minMag: real, iso: int -> string) returns (r: Result<seq<Quake>, ServerError>)
    ensures r == Collect(features, minMag, iso)
  {
    var items: seq<Quake> := [];
    for i := 0 to |features|
      invariant Gathered(features[..i], minMag, iso, items)
    {
      var f := features[i];
      var props := PropertiesOf(f);
      var coords := CoordinatesOf(f);
      var mag := props.mag;
      if mag.None? || mag.value < minMag {
        SkipStep(features, i, minMag, iso, items);
      } else if |coords| < 3 {
        CollectStopsAt(features, i, minMag, iso);
        return Failure(CoordinateIndexError);
      } else {
        KeepStep(features, i, minMag, iso, items);
        items := items + [Normalize(f, iso)];
      }
    }
    CollectCompletes(features, minMag, iso, items);
    r := Success(items);
  }

  /** The handler body after the fetch: the loop, then the in-place sort, the
      slice and the envelope. */
  method Quakes(doc: FeedDocument, q: Query, generatedAt: string, iso: int -> string) returns (r: Result<Envelope, ServerError>)
    requires InBounds(q)
    ensures r == Response(doc, q, generatedAt, iso)
  {
    var collected := CollectRecords(FeaturesOf(doc), q.minMag, iso);
    if collected.Failure? {
      return Failure(collected.error);
    }
    var items := collected.value;
    items := SortByTimeDesc(items);
    var shown := Prefix(items, q.limit);
    r := Success(Envelope(Meta(SOURCE, q.window, q.minMag, |shown|, generatedAt), shown));
  }

  /** A kept feature whose coordinates cannot be indexed ends the loop with the error. */
  lemma CollectStopsAt(fs: seq<RawFeature>, i: nat, minMag: real, iso: int -> string)
    requires i < |fs| && Kept(fs[i], minMag) && !Indexable(fs[i])
    ensures Collect(fs, minMag, iso) == Failure(CoordinateIndexError)
  {
    KeptUnindexableFails(fs, i, minMag);
  }

  /** The records gathered so far are those of the kept features of `fs`,
      all of which can be indexed. */
  predicate Gathered(fs: seq<RawFeature>, minMag: real, iso: int -> string, items: seq<Quake>)
  {
    AllIndexable(Passing(fs, minMag)) && items == NormalizeAll(Passing(fs, minMag), iso)
  }

  /** A loop that reaches the end has collected the records of all kept features. */
  lemma CollectCompletes(fs: seq<RawFeature>, minMag: real, iso: int -> string, items: seq<Quake>)
    requires Gathered(fs[..|fs|], minMag, iso, items)
    ensures Collect(fs, minMag, iso) == Success(items)
  {
    assert fs[..|fs|] == fs;
  }

  /** One more feature adds itself to the passing ones exactly when it is kept. */
  lemma PassingStep(fs: seq<RawFeature>, i: nat, minMag: real)
    requires i < |fs|
    ensures Passing(fs[..i + 1], minMag) == Passing(fs[..i], minMag) + (if Kept(fs[i], minMag) then [fs[i]] else [])
  {
    assert fs[..i + 1][..i] == fs[..i];
  }

  /** A skipped feature leaves the gathered records as they were. */
  lemma SkipStep(fs: seq<RawFeature>, i: nat, minMag: real, iso: int -> string, items: seq<Quake>)
    requires i < |fs| && !Kept(fs[i], minMag)
    requires Gathered(fs[..i], minMag, iso, items)
    ensures Gathered(fs[..i + 1], minMag, iso, items)
  {
    PassingStep(fs, i, minMag);
  }

  /** A kept, indexable feature adds its record at the end. */
  lemma KeepStep(fs: seq<RawFeature>, i: nat, minMag: real, iso: int -> string, items: seq<Quake>)
    requires i < |fs| && Kept(fs[i], minMag) && Indexable(fs[i])
    requires Gathered(fs[..i], minMag, iso, items)
    ensures Gathered(fs[..i + 1], minMag, iso, items + [Normalize(fs[i], iso)])
  {
    var ps := Passing(fs[..i], minMag);
    PassingStep(fs, i, minMag);
    AppendIndexable(ps, fs[i]);
    NormalizeAllStep(ps, fs[i], iso);
  }

  /** Appending an indexable feature keeps every feature indexable. */
  lemma AppendIndexable(ps: seq<RawFeature>, f: RawFeature)
    requires AllIndexable(ps) && Indexable(f)
    ensures AllIndexable(ps + [f])
  {
    forall j | 0 <= j < |ps| + 1
      ensures Indexable((ps + [f])[j])
    {
      if j < |ps| {
        assert (ps + [f])[j] == ps[j];
      }
    }
  }

  /** One more kept feature adds its record at the end. */
  lemma NormalizeAllStep(ps: seq<RawFeature>, f: RawFeature, iso: int -> string)
    requires forall i :: 0 <= i < |ps| ==> Normalizable(ps[i])
    requires Normalizable(f)
    ensures NormalizeAll(ps + [f], iso) == NormalizeAll(ps, iso) + [Normalize(f, iso)]
  {
    assert (ps + [f])[..|ps|] == ps;
  }

  /** The gate distributes over concatenation. */
  lemma {:induction false} PassingAppend(a: seq<RawFeature>, b: seq<RawFeature>, minMag: real)
    ensures Passing(a + b, minMag) == Passing(a, minMag) + Passing(b, minMag)
  {
    if b != [] {
      var n := |b| - 1;
      assert (a + b)[..|a + b| - 1] == a + b[..n];
      PassingAppend(a, b[..n], minMag);
    } else {
      assert a + b == a;
    }
  }

  /** A kept feature at position `i` whose coordinates cannot be indexed
      makes the whole request fail. */
  lemma KeptUnindexableFails(fs: seq<RawFeature>, i: nat, minMag: real)
    requires i < |fs| && Kept(fs[i], minMag) && !Indexable(fs[i])
    ensures !AllIndexable(Passing(fs, minMag))
  {
    assert fs == fs[..i + 1] + fs[i + 1..];
    PassingAppend(fs[..i + 1], fs[i + 1..], minMag);
    assert fs[..i + 1][..i] == fs[..i];
    var head := Passing(fs[..i + 1], minMag);
    assert head == Passing(fs[..i], minMag) + [fs[i]];
    assert Passing(fs, minMag)[|head| - 1] == fs[i];
  }

  /** Some kept feature cannot be indexed exactly when some feature of the
      feed is kept and cannot be indexed. */
  lemma {:induction false} CollectFails(fs: seq<RawFeature>, minMag: real)
    ensures !AllIndexable(Passing(fs, minMag)) <==> exists i :: 0 <= i < |fs| && Kept(fs[i], minMag) && !Indexable(fs[i])
  {
    if fs != [] {
      var n := |fs| - 1;
      CollectFails(fs[..n], minMag);
      if exists i :: 0 <= i < |fs| && Kept(fs[i], minMag) && !Indexable(fs[i]) {
        var i :| 0 <= i < |fs| && Kept(fs[i], minMag) && !Indexable(fs[i]);
        KeptUnindexableFails(fs, i, minMag);
      } else {
        forall i | 0 <= i < n ensures !(Kept(fs[..n][i], minMag) && !Indexable(fs[..n][i])) {
          assert fs[..n][i] == fs[i];
        }
      }
    }
  }

  /** A feature passes the gate exactly when it is in the feed and has a
      non-null magnitude of at least `minMag`; so a magnitude of 0.0 passes
      a threshold of 0.0 and a null magnitude never passes. */
  lemma {:induction false} PassingExactly(fs: seq<RawFeature>, minMag: real)
    ensures forall f :: f in Passing(fs, minMag) <==>
      f in fs && PropertiesOf(f).mag.Some? && PropertiesOf(f).mag.value >= minMag
  {
    if fs != [] {
      var init := fs[..|fs| - 1];
      PassingExactly(init, minMag);
      assert fs == init + [fs[|fs| - 1]];
    }
  }

  /** Every returned record has a magnitude of at least `minMag`. */
  lemma ItemsMeetThreshold(doc: FeedDocument, q: Query, generatedAt: string, iso: int -> string)
    requires InBounds(q)
    ensures var r := Response(doc, q, generatedAt, iso);
      r.Success? ==> forall i :: 0 <= i < |r.value.items| ==> r.value.items[i].mag >= q.minMag
  {
    var r := Response(doc, q, generatedAt, iso);
    if r.Success? {
      var ps := Passing(FeaturesOf(doc), q.minMag);
      var all := NormalizeAll(ps, iso);
      var sorted := SortByTimeDesc(all);
      forall i | 0 <= i < |r.value.items|
        ensures r.value.items[i].mag >= q.minMag
      {
        var x := r.value.items[i];
        assert x == sorted[i];
        assert x in multiset(sorted);
        assert x in multiset(all);
        var j :| 0 <= j < |all| && all[j] == x;
        assert Kept(ps[j], q.minMag);
      }
    }
  }

  /** `count` is the number of returned records: the smaller of `limit`
      and the number of features that passed the gate. */
  lemma CountIsCapped(doc: FeedDocument, q: Query, generatedAt: string, iso: int -> string)
    requires InBounds(q)
    ensures var r := Response(doc, q, generatedAt, iso);
      var passed := |Passing(FeaturesOf(doc), q.minMag)|;
      r.Success? ==>
        && r.value.meta.count == |r.value.items|
        && r.value.meta.count == if q.limit < passed then q.limit else passed
  {
  }

  /** Nothing is invented or duplicated: the returned records are, with
      multiplicity, among the records of the kept features. */
  lemma ItemsComeFromFeed(doc: FeedDocument, q: Query, generatedAt: string, iso: int -> string)
    requires InBounds(q)
    ensures var r := Response(doc, q, generatedAt, iso);
      var ps := Passing(FeaturesOf(doc), q.minMag);
      r.Success? ==> multiset(r.value.items) <= multiset(NormalizeAll(ps, iso))
  {
    var ps := Passing(FeaturesOf(doc), q.minMag);
    if AllIndexable(ps) {
      SortedPrefixFromInput(NormalizeAll(ps, iso), q.limit);
    }
  }

  /** Under a formatter that never returns "", no record has the time "". */
  lemma NormalizedTimesNonEmpty(ps: seq<RawFeature>, iso: int -> string)
    requires forall i :: 0 <= i < |ps| ==> Normalizable(ps[i])
    requires NonEmptyFormatter(iso)
    ensures forall x :: x in NormalizeAll(ps, iso) ==> x.time != Some("")
  {
  }

  /** The records are non-increasing under the key `time or ""`, which is
      newest first when the formatter preserves the order of times; with a
      formatter that never returns "", every record without a time comes
      after every record with one. */
  lemma ItemsNewestFirst(doc: FeedDocument, q: Query, generatedAt: string, iso: int -> string)
    requires InBounds(q)
    ensures var r := Response(doc, q, generatedAt, iso);
      r.Success? ==> Descending(r.value.items)
    ensures var r := Response(doc, q, generatedAt, iso);
      r.Success? && NonEmptyFormatter(iso) ==>
        forall i, j :: 0 <= i < j < |r.value.items| && r.value.items[i].time.None? ==> r.value.items[j].time.None?
  {
    var r := Response(doc, q, generatedAt, iso);
    if r.Success? {
      ResponseShown(doc, q, generatedAt, iso);
      var ps := Passing(FeaturesOf(doc), q.minMag);
      if NonEmptyFormatter(iso) {
        NormalizedTimesNonEmpty(ps, iso);
      }
      SortedPrefixNewestFirst(NormalizeAll(ps, iso), q.limit);
    }
  }

  /** The sort is stable: records with the same key (the same time, or no
      time at all) are returned in feed order, as a prefix of that key's
      records among all kept features. */
  lemma ItemsKeepFeedOrderOnTies(doc: FeedDocument, q: Query, generatedAt: string, iso: int -> string, k: string)
    requires InBounds(q)
    ensures var r := Response(doc, q, generatedAt, iso);
      var ps := Passing(FeaturesOf(doc), q.minMag);
      r.Success? ==> WithKey(r.value.items, k) <= WithKey(NormalizeAll(ps, iso), k)
  {
    var ps := Passing(FeaturesOf(doc), q.minMag);
    if AllIndexable(ps) {
      SortedPrefixKeepsTies(NormalizeAll(ps, iso), q.limit, k);
    }
  }

  /** A document without `features` is answered with an empty list and a
      count of 0, not with an error. */
  lemma MissingFeaturesGiveEmptyEnvelope(q: Query, generatedAt: string, iso: int -> string)
    requires InBounds(q)
    ensures Response(FeedDocument(None), q, generatedAt, iso)
      == Success(Envelope(Meta(SOURCE, q.window, q.minMag, 0, generatedAt), []))
  {
  }

  /** A feature with the given magnitude and nothing else. */
  function RatedFeature(mag: Option<real>): RawFeature
  {
    RawFeature(None, Some(EMPTY_PROPERTIES.(mag := mag)), None)
  }

  /** Magnitudes 5.0, 2.1 and null with a threshold of 3.0: the null one
      is skipped, 2.1 is filtered out, and one record of magnitude 5.0 is
      returned, with null coordinates. */
  lemma ThresholdScenario(generatedAt: string, iso: int -> string)
    ensures var doc := FeedDocument(Some([RatedFeature(Some(5.0)), RatedFeature(Some(2.1)), RatedFeature(None)]));
      var r := Response(doc, Query(Day, 3.0, 50), generatedAt, iso);
      && r.Success?
      && |r.value.items| == 1 == r.value.meta.count
      && r.value.items[0].mag == 5.0
      && r.value.items[0].longitude.None? && r.value.items[0].latitude.None? && r.value.items[0].depthKm.None?
  {
    var fs := [RatedFeature(Some(5.0)), RatedFeature(Some(2.1)), RatedFeature(None)];
    assert fs[..2][..1] == [fs[0]] && fs[..1][..0] == [];
    assert Passing(fs[..1], 3.0) == [fs[0]];
    assert Passing(fs[..2], 3.0) == [fs[0]];
    assert Passing(fs, 3.0) == [fs[0]];
    var all := NormalizeAll([fs[0]], iso);
    assert SortByTimeDesc(all) == all;
  }
}
