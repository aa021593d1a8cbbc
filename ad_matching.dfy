/**
 * The matching loop of `getVmap`: walk the geo-search results in order,
 * keep the ads whose own radius covers the viewer, and stop at the third.
 * The geo search and the metadata store are inputs: each candidate carries
 * its distance and the outcome of reading its metadata hash.
 */
module AdMatching {
  import opened Wrappers
  import opened Sequences

  /** An ad's metadata hash (description, budget, radiusKm, videoUrl, imageUrl, …). */
  type Meta = map<string, string>

  /** Reading the parser of `radiusKm`: the number it denotes, or None where `Double.parseDouble` throws. */
  type RadiusParser = string -> Option<real>

  const MaxAds: nat := 3

  /** The outcome of `hashOps.entries`: the store failed, or the hash (empty when the key is absent). */
  datatype MetaRead = ReadFailed | Entries(fields: Meta)

  /** One geo-search result: the ad's id, its distance in km if reported, and its metadata. */
  datatype GeoCandidate = GeoCandidate(adId: string, distanceKm: Option<real>, meta: MetaRead)

  /** The ad's radius: a missing `radiusKm` reads as 0; None when the value does not parse. */
  function AdRadius(meta: Meta, parse: RadiusParser): (r: Option<real>)
    ensures "radiusKm" !in meta ==> r == Some(0.0)
    ensures "radiusKm" in meta ==> r == parse(meta["radiusKm"])
  {
    if "radiusKm" in meta then parse(meta["radiusKm"]) else Some(0.0)
  }

  /** A candidate is kept: its metadata was read and is non-empty, its radius parses, and the viewer is within it (or the distance is unknown). */
  predicate Eligible(c: GeoCandidate, parse: RadiusParser) {
    && c.meta.Entries?
    && |c.meta.fields| > 0
    && var radius := AdRadius(c.meta.fields, parse);
    && radius.Some?
    && (c.distanceKm.None? || c.distanceKm.value <= radius.value)
  }

  /** The reference definition: every eligible candidate's metadata, in result order. */
  function Filter(cands: seq<GeoCandidate>, parse: RadiusParser): (r: seq<Meta>)
    ensures |r| <= |cands|
    decreases |cands|
  {
    if cands == [] then []
    else (if Eligible(cands[0], parse) then [cands[0].meta.fields] else []) + Filter(cands[1..], parse)
  }

  function Take<T>(s: seq<T>, n: nat): (r: seq<T>)
    ensures |r| <= n && r <= s
    ensures |s| <= n ==> r == s
  {
    if |s| <= n then s else s[..n]
  }

  predicate NoReadFailure(cands: seq<GeoCandidate>) {
    forall i :: 0 <= i < |cands| ==> !cands[i].meta.ReadFailed?
  }

  /**
   * The loop as it runs, with `acc` the ads matched so far: a failed read
   * aborts it (None), a third match stops it.
   */
  function Scan(cands: seq<GeoCandidate>, parse: RadiusParser, acc: seq<Meta>): Option<seq<Meta>>
    requires |acc| < MaxAds
    decreases |cands|
  {
    if cands == [] then Some(acc)
    else if cands[0].meta.ReadFailed? then None
    else if Eligible(cands[0], parse) then
      var acc' := acc + [cands[0].meta.fields];
      if |acc'| >= MaxAds then Some(acc') else Scan(cands[1..], parse, acc')
    else Scan(cands[1..], parse, acc)
  }

  /** The matching loop of `getVmap`. */
  method MatchAds(cands: seq<GeoCandidate>, parse: RadiusParser) returns (matched: Option<seq<Meta>>)
    ensures matched == Scan(cands, parse, [])
  {
    var acc: seq<Meta> := [];
    var i := 0;
    while i < |cands|
      invariant 0 <= i <= |cands|
      invariant |acc| < MaxAds
      invariant Scan(cands, parse, []) == Scan(cands[i..], parse, acc)
    {
      assert cands[i..][1..] == cands[i + 1..];
      var c := cands[i];
      if c.meta.ReadFailed? {
        return None;
      }
      var meta := c.meta.fields;
      if |meta| == 0 {
        i := i + 1;
        continue;
      }
      var radius: real;
      if "radiusKm" in meta {
        var parsed := parse(meta["radiusKm"]);
        if parsed.None? {
          i := i + 1;
          continue;
        }
        radius := parsed.value;
      } else {
        radius := 0.0;
      }
      if c.distanceKm.None? || c.distanceKm.value <= radius {
        acc := acc + [meta];
        if |acc| >= MaxAds {
          return Some(acc);
        }
      }
      i := i + 1;
    }
    return Some(acc);
  }

  lemma {:induction false} ScanIsTakeOfFilter(cands: seq<GeoCandidate>, parse: RadiusParser, acc: seq<Meta>)
    requires |acc| < MaxAds
    ensures Scan(cands, parse, acc).Some? ==> Scan(cands, parse, acc).value == Take(acc + Filter(cands, parse), MaxAds)
    ensures NoReadFailure(cands) ==> Scan(cands, parse, acc).Some?
    ensures Scan(cands, parse, acc).None? ==> exists i :: 0 <= i < |cands| && cands[i].meta.ReadFailed?
    decreases |cands|
  {
    if cands == [] {
      assert acc + Filter(cands, parse) == acc;
    } else if cands[0].meta.ReadFailed? {
    } else {
      var rest := cands[1..];
      if NoReadFailure(cands) {
        NoReadFailureTail(cands);
      }
      var acc' := Matched(cands[0], parse, acc);
      ScanUnfold(cands, parse, acc);
      if |acc'| < MaxAds {
        ScanIsTakeOfFilter(rest, parse, acc');
        if Scan(rest, parse, acc').None? {
          ReadFailureInTail(cands);
        }
      }
    }
  }

  /** The ads matched so far once `c` has been looked at. */
  function Matched(c: GeoCandidate, parse: RadiusParser, acc: seq<Meta>): seq<Meta> {
    if Eligible(c, parse) then acc + [c.meta.fields] else acc
  }

  /** One pass of the loop over a candidate whose metadata was read. */
  lemma ScanUnfold(cands: seq<GeoCandidate>, parse: RadiusParser, acc: seq<Meta>)
    requires |acc| < MaxAds && cands != [] && !cands[0].meta.ReadFailed?
    ensures var acc' := Matched(cands[0], parse, acc);
      && acc + Filter(cands, parse) == acc' + Filter(cands[1..], parse)
      && (|acc'| >= MaxAds ==> Scan(cands, parse, acc) == Some(acc') && Take(acc' + Filter(cands[1..], parse), MaxAds) == acc')
      && (|acc'| < MaxAds ==> Scan(cands, parse, acc) == Scan(cands[1..], parse, acc'))
  {
    FilterUnfold(cands, parse, acc);
    ScanStep(cands, parse, acc);
    TakeOfLonger(Matched(cands[0], parse, acc), Filter(cands[1..], parse), MaxAds);
  }

  lemma FilterUnfold(cands: seq<GeoCandidate>, parse: RadiusParser, acc: seq<Meta>)
    requires cands != []
    ensures acc + Filter(cands, parse) == Matched(cands[0], parse, acc) + Filter(cands[1..], parse)
  {
    if Eligible(cands[0], parse) {
      AppendAssoc(acc, [cands[0].meta.fields], Filter(cands[1..], parse));
    } else {
      assert Filter(cands, parse) == [] + Filter(cands[1..], parse);
    }
  }

  lemma ScanStep(cands: seq<GeoCandidate>, parse: RadiusParser, acc: seq<Meta>)
    requires |acc| < MaxAds && cands != [] && !cands[0].meta.ReadFailed?
    ensures var acc' := Matched(cands[0], parse, acc);
      && (|acc'| >= MaxAds ==> Scan(cands, parse, acc) == Some(acc'))
      && (|acc'| < MaxAds ==> Scan(cands, parse, acc) == Scan(cands[1..], parse, acc'))
  {
  }

  lemma TakeOfLonger<T>(a: seq<T>, b: seq<T>, n: nat)
    ensures |a| == n ==> Take(a + b, n) == a
  {
    if |a| == n {
      assert (a + b)[..n] == a;
    }
  }

  lemma NoReadFailureTail(cands: seq<GeoCandidate>)
    requires cands != [] && NoReadFailure(cands)
    ensures NoReadFailure(cands[1..])
  {
    forall i | 0 <= i < |cands| - 1 ensures !cands[1..][i].meta.ReadFailed? {
      assert cands[1..][i] == cands[i + 1];
    }
  }

  lemma ReadFailureInTail(cands: seq<GeoCandidate>)
    requires cands != [] && exists i :: 0 <= i < |cands[1..]| && cands[1..][i].meta.ReadFailed?
    ensures exists i :: 0 <= i < |cands| && cands[i].meta.ReadFailed?
  {
    var i :| 0 <= i < |cands[1..]| && cands[1..][i].meta.ReadFailed?;
    assert cands[i + 1] == cands[1..][i];
  }

  /**
   * What the loop matches: at most three ads, the first eligible ones in
   * result order; it fails only on a failed metadata read, and never when
   * every read succeeds.
   */
  lemma MatchedAreFirstEligible(cands: seq<GeoCandidate>, parse: RadiusParser)
    ensures var r := Scan(cands, parse, []);
      && (r.Some? ==> r.value == Take(Filter(cands, parse), MaxAds) && |r.value| <= MaxAds)
      && (NoReadFailure(cands) ==> r.Some?)
      && (r.None? ==> exists i :: 0 <= i < |cands| && cands[i].meta.ReadFailed?)
  {
    ScanIsTakeOfFilter(cands, parse, []);
    assert [] + Filter(cands, parse) == Filter(cands, parse);
  }

  /** Membership in the reference filter: exactly the metadata of eligible candidates. */
  lemma {:induction false} FilterMembers(cands: seq<GeoCandidate>, parse: RadiusParser, m: Meta)
    ensures m in Filter(cands, parse) <==> exists i :: 0 <= i < |cands| && Eligible(cands[i], parse) && cands[i].meta.fields == m
    decreases |cands|
  {
    if cands != [] {
      FilterMembers(cands[1..], parse, m);
      if exists i :: 0 <= i < |cands[1..]| && Eligible(cands[1..][i], parse) && cands[1..][i].meta.fields == m {
        var i :| 0 <= i < |cands[1..]| && Eligible(cands[1..][i], parse) && cands[1..][i].meta.fields == m;
        assert cands[i + 1] == cands[1..][i];
      }
      if exists i :: 0 <= i < |cands| && Eligible(cands[i], parse) && cands[i].meta.fields == m {
        var i :| 0 <= i < |cands| && Eligible(cands[i], parse) && cands[i].meta.fields == m;
        if i > 0 {
          assert cands[1..][i - 1] == cands[i];
        }
      }
    }
  }

  lemma {:induction false} ScanIgnoresRestFrom(a: seq<GeoCandidate>, b: seq<GeoCandidate>, parse: RadiusParser, acc: seq<Meta>)
    requires |acc| < MaxAds && |acc| + |Filter(a, parse)| >= MaxAds
    ensures Scan(a + b, parse, acc) == Scan(a, parse, acc)
    decreases |a|
  {
    assert a != [];
    assert (a + b)[0] == a[0];
    assert (a + b)[1..] == a[1..] + b;
    if !a[0].meta.ReadFailed? {
      if Eligible(a[0], parse) {
        var acc' := acc + [a[0].meta.fields];
        if |acc'| < MaxAds {
          ScanIgnoresRestFrom(a[1..], b, parse, acc');
        }
      } else {
        ScanIgnoresRestFrom(a[1..], b, parse, acc);
      }
    }
  }

  /**
   * The loop stops at the third match: once a prefix of the results holds
   * three eligible ads, nothing after it is read, so it cannot change the
   * outcome (not even a store failure).
   */
  lemma ScanStopsAtThirdMatch(a: seq<GeoCandidate>, b: seq<GeoCandidate>, parse: RadiusParser)
    requires |Filter(a, parse)| >= MaxAds
    ensures Scan(a + b, parse, []) == Scan(a, parse, [])
  {
    ScanIgnoresRestFrom(a, b, parse, []);
  }

  /** An ad without a radius is matched only at distance 0 or with no reported distance. */
  lemma MissingRadiusMeansZero(c: GeoCandidate, parse: RadiusParser)
    requires c.meta.Entries? && |c.meta.fields| > 0 && "radiusKm" !in c.meta.fields
    ensures Eligible(c, parse) <==> c.distanceKm.None? || c.distanceKm.value <= 0.0
  {
  }

  /**
   * The loop ends with no ad exactly when a read fails before three ads have
   * matched, or no candidate is eligible at all.
   */
  lemma NothingMatchedIff(cands: seq<GeoCandidate>, parse: RadiusParser)
    ensures var r := Scan(cands, parse, []);
      (r.None? || |r.value| == 0)
        <==> ((exists i :: 0 <= i < |cands| && cands[i].meta.ReadFailed? && |Filter(cands[..i], parse)| < MaxAds)
              || |Filter(cands, parse)| == 0)
  {
    MatchedAreFirstEligible(cands, parse);
    ScanFailsIff(cands, parse, []);
  }

  lemma FilterOfPrefix(cands: seq<GeoCandidate>, parse: RadiusParser, i: nat)
    requires 1 <= i <= |cands|
    ensures Filter(cands[..i], parse)
         == (if Eligible(cands[0], parse) then [cands[0].meta.fields] else []) + Filter(cands[1..][..i - 1], parse)
  {
    assert cands[..i][0] == cands[0];
    assert cands[..i][1..] == cands[1..][..i - 1];
  }

  /**
   * When the loop fails: exactly when some metadata read fails before
   * three matches have been made.
   */
  lemma {:induction false} ScanFailsIff(cands: seq<GeoCandidate>, parse: RadiusParser, acc: seq<Meta>)
    requires |acc| < MaxAds
    ensures Scan(cands, parse, acc).None?
        <==> exists i :: 0 <= i < |cands| && cands[i].meta.ReadFailed? && |acc| + |Filter(cands[..i], parse)| < MaxAds
    decreases |cands|
  {
    if cands == [] {
    } else if cands[0].meta.ReadFailed? {
      assert cands[..0] == [];
    } else {
      var rest := cands[1..];
      var here := if Eligible(cands[0], parse) then [cands[0].meta.fields] else [];
      var acc' := acc + here;
      assert acc + [] == acc;
      forall i | 1 <= i <= |cands|
        ensures Filter(cands[..i], parse) == here + Filter(rest[..i - 1], parse)
      {
        FilterOfPrefix(cands, parse, i);
      }
      if |acc'| >= MaxAds {
        assert Scan(cands, parse, acc).Some?;
        forall i | 0 <= i < |cands| && cands[i].meta.ReadFailed?
          ensures |acc| + |Filter(cands[..i], parse)| >= MaxAds
        {
          assert i >= 1;
        }
      } else {
        assert Scan(cands, parse, acc) == Scan(rest, parse, acc');
        ScanFailsIff(rest, parse, acc');
        if exists j :: 0 <= j < |rest| && rest[j].meta.ReadFailed? && |acc'| + |Filter(rest[..j], parse)| < MaxAds {
          var j :| 0 <= j < |rest| && rest[j].meta.ReadFailed? && |acc'| + |Filter(rest[..j], parse)| < MaxAds;
          assert cands[j + 1] == rest[j];
        }
        if exists i :: 0 <= i < |cands| && cands[i].meta.ReadFailed? && |acc| + |Filter(cands[..i], parse)| < MaxAds {
          var i :| 0 <= i < |cands| && cands[i].meta.ReadFailed? && |acc| + |Filter(cands[..i], parse)| < MaxAds;
          assert rest[i - 1] == cands[i];
        }
      }
    }
  }
}
