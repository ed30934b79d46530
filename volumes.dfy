/** Volume-source resolution: the host path that backs a volume of another
    container, read either from the legacy `{{.Volumes}}` map display or,
    failing that, from the structured `{{json .Mounts}}` list. */
module Volumes {
  import opened Results
  import opened Strings

  /** One entry of the decoded `.Mounts` list. */
  datatype Mount = Mount(source: string, destination: string, mode: string, rw: bool)

  /** What the `{{json .Mounts}}` inspection yields: the query failed, its
      output did not decode, or the decoded list. */
  datatype MountsAnswer = MountsQueryFailed | MountsUndecodable | Decoded(mounts: seq<Mount>)

  /** The fatal conditions of the resolver (each a panic in the source). */
  datatype ResolveError =
    | NoMapLiteral            // the map display does not match `map[...]`
    | MalformedPair(pair: string)  // a pair before the match has no `:`
    | NoVolumeInMap(volume: string)
    | MountsUnavailable
    | MountsUnparseable
    | NoMatchingMount(volume: string)

  /** The sentinel the runtime prints for a field the container lacks. */
  const NoValue: string := "<no value>"

  // ---------------------------------------------------------------------
  // The legacy map display, e.g. `map[/a:/host/a /b:/host/b]`.
  // ---------------------------------------------------------------------

  /** The regular expression `map[[](.*)[]]$` matches starting at `i`:
      `map[` at `i`, the text ends in `]`, and no newline lies between
      (`.` does not match a newline and `$` is the end of the text). */
  predicate MatchAt(s: string, i: nat)
  {
    i + 5 <= |s| && s[i..i + 4] == "map[" && s[|s| - 1] == ']' && '\n' !in s[i + 4..|s| - 1]
  }

  /** The leftmost position at or after `i` where the expression matches. */
  function MatchFrom(s: string, i: nat): (r: Option<nat>)
    decreases |s| - i
    ensures r.Some? ==> i <= r.value && MatchAt(s, r.value)
    ensures r.Some? ==> forall j :: i <= j < r.value ==> !MatchAt(s, j)
    ensures r.None? ==> forall j :: i <= j ==> !MatchAt(s, j)
  {
    if i + 5 > |s| then None
    else if MatchAt(s, i) then Some(i)
    else MatchFrom(s, i + 1)
  }

  /** The captured group of the leftmost match, if there is one. */
  function MapInner(output: string): (r: Option<string>)
    ensures r.Some? <==> exists i :: MatchAt(output, i)
    ensures r.Some? ==> r.value == output[MatchFrom(output, 0).value + 4..|output| - 1]
  {
    match MatchFrom(output, 0)
    case None => None
    case Some(i) => Some(output[i + 4..|output| - 1])
  }

  /** The first space-separated pair whose container path is `volume`
      gives the host path; a pair without `:` met first is fatal. */
  function LookupPairs(pairs: seq<string>, volume: string): (r: Result<string, ResolveError>)
    ensures r.Ok? ==> exists i :: 0 <= i < |pairs| && PairNames(pairs[i], volume, r.value)
    ensures r.Err? ==> r.error == NoVolumeInMap(volume) || (r.error.MalformedPair? && r.error.pair in pairs)
  {
    if |pairs| == 0 then Err(NoVolumeInMap(volume))
    else
      var x := Split(pairs[0], ':');
      if |x| < 2 then Err(MalformedPair(pairs[0]))
      else if x[0] == volume then Ok(x[1])
      else
        var r := LookupPairs(pairs[1..], volume);
        assert forall i :: 1 <= i < |pairs| ==> pairs[i] == pairs[1..][i - 1];
        r
  }

  /** `pair` splits on `:` into a container path `volume` and host path `host`
      (further segments are ignored). */
  predicate PairNames(pair: string, volume: string, host: string)
  {
    |Split(pair, ':')| >= 2 && Split(pair, ':')[0] == volume && Split(pair, ':')[1] == host
  }

  /** `getSourceForVolumeFromVolumes` as a function of the map display. */
  function LegacySource(output: string, volume: string): (r: Result<string, ResolveError>)
    ensures r == Err(NoMapLiteral) <==> MapInner(output).None?
    ensures r.Ok? ==> exists pair :: pair in Split(MapInner(output).value, ' ') && PairNames(pair, volume, r.value)
    ensures r.Err? ==> r.error.NoMapLiteral? || r.error.MalformedPair? || r.error == NoVolumeInMap(volume)
  {
    match MapInner(output)
    case None => Err(NoMapLiteral)
    case Some(inner) => LookupPairs(Split(inner, ' '), volume)
  }

  /** Pair `k` is the one the legacy parser picks for `volume`: every pair
      before it splits into at least two segments and names another path. */
  predicate FirstPairFor(pairs: seq<string>, volume: string, k: nat)
  {
    && k < |pairs|
    && |Split(pairs[k], ':')| >= 2 && Split(pairs[k], ':')[0] == volume
    && forall j :: 0 <= j < k ==> |Split(pairs[j], ':')| >= 2 && Split(pairs[j], ':')[0] != volume
  }

  lemma {:induction false} LookupPairsFindsFirst(pairs: seq<string>, volume: string, k: nat)
    requires FirstPairFor(pairs, volume, k)
    ensures LookupPairs(pairs, volume) == Ok(Split(pairs[k], ':')[1])
  {
    if k > 0 {
      assert FirstPairFor(pairs[1..], volume, k - 1) by {
        forall j | 0 <= j < k - 1
          ensures |Split(pairs[1..][j], ':')| >= 2 && Split(pairs[1..][j], ':')[0] != volume
        {
          assert pairs[1..][j] == pairs[j + 1];
        }
      }
      LookupPairsFindsFirst(pairs[1..], volume, k - 1);
    }
  }

  lemma {:induction false} LookupPairsOnlyFirst(pairs: seq<string>, volume: string)
    requires LookupPairs(pairs, volume).Ok?
    ensures exists k: nat :: FirstPairFor(pairs, volume, k) && LookupPairs(pairs, volume).value == Split(pairs[k], ':')[1]
  {
    var x := Split(pairs[0], ':');
    if x[0] == volume {
      assert FirstPairFor(pairs, volume, 0);
    } else {
      LookupPairsOnlyFirst(pairs[1..], volume);
      var k: nat :| FirstPairFor(pairs[1..], volume, k) && LookupPairs(pairs[1..], volume).value == Split(pairs[1..][k], ':')[1];
      assert pairs[1..][k] == pairs[k + 1];
      forall j | 0 <= j < k + 1
        ensures |Split(pairs[j], ':')| >= 2 && Split(pairs[j], ':')[0] != volume
      {
        if j > 0 { assert pairs[j] == pairs[1..][j - 1]; }
      }
      assert FirstPairFor(pairs, volume, k + 1);
    }
  }

  /** `getSourceForVolumeFromVolumes`: split the captured group on spaces,
      each pair on `:`, and return at the first match. */
  method SourceFromVolumes(output: string, volume: string) returns (r: Result<string, ResolveError>)
    ensures r == LegacySource(output, volume)
  {
    var inner := MapInner(output);
    if inner.None? {
      return Err(NoMapLiteral);
    }
    var pairs := Split(inner.value, ' ');
    var i := 0;
    while i < |pairs|
      invariant 0 <= i <= |pairs|
      invariant LookupPairs(pairs[i..], volume) == LookupPairs(pairs, volume)
    {
      var x := Split(pairs[i], ':');
      if |x| < 2 {
        return Err(MalformedPair(pairs[i]));
      }
      if x[0] == volume {
        return Ok(x[1]);
      }
      assert pairs[i..][1..] == pairs[i + 1..];
      i := i + 1;
    }
    r := Err(NoVolumeInMap(volume));
  }

  // ---------------------------------------------------------------------
  // The structured mount list.
  // ---------------------------------------------------------------------

  /** The source of the first mount whose destination is `volume`. */
  function LookupMounts(mounts: seq<Mount>, volume: string): (r: Result<string, ResolveError>)
    ensures r.Ok? <==> exists k :: 0 <= k < |mounts| && mounts[k].destination == volume
    ensures r.Err? ==> r.error == NoMatchingMount(volume)
  {
    if |mounts| == 0 then Err(NoMatchingMount(volume))
    else if mounts[0].destination == volume then Ok(mounts[0].source)
    else
      var r := LookupMounts(mounts[1..], volume);
      assert forall k :: 1 <= k < |mounts| ==> mounts[k] == mounts[1..][k - 1];
      r
  }

  /** What the mount scan returns is the source of the FIRST matching mount. */
  lemma {:induction false} LookupMountsFirst(mounts: seq<Mount>, volume: string, k: nat)
    requires k < |mounts| && mounts[k].destination == volume
    requires forall j :: 0 <= j < k ==> mounts[j].destination != volume
    ensures LookupMounts(mounts, volume) == Ok(mounts[k].source)
  {
    if k > 0 {
      assert forall j :: 0 <= j < k - 1 ==> mounts[1..][j] == mounts[j + 1];
      LookupMountsFirst(mounts[1..], volume, k - 1);
    }
  }

  /** `getSourceForVolumeFromMounts` as a function of the query's answer. */
  function MountsSource(answer: MountsAnswer, volume: string): (r: Result<string, ResolveError>)
    ensures answer.MountsQueryFailed? ==> r == Err(MountsUnavailable)
    ensures answer.MountsUndecodable? ==> r == Err(MountsUnparseable)
    ensures r.Ok? <==> answer.Decoded? && exists k :: 0 <= k < |answer.mounts| && answer.mounts[k].destination == volume
  {
    match answer
    case MountsQueryFailed => Err(MountsUnavailable)
    case MountsUndecodable => Err(MountsUnparseable)
    case Decoded(mounts) => LookupMounts(mounts, volume)
  }

  /** `getSourceForVolumeFromMounts`: a linear scan with early return. */
  method SourceFromMounts(answer: MountsAnswer, volume: string) returns (r: Result<string, ResolveError>)
    ensures r == MountsSource(answer, volume)
  {
    if answer.MountsQueryFailed? {
      return Err(MountsUnavailable);
    }
    if answer.MountsUndecodable? {
      return Err(MountsUnparseable);
    }
    var mounts := answer.mounts;
    var i := 0;
    while i < |mounts|
      invariant 0 <= i <= |mounts|
      invariant LookupMounts(mounts[i..], volume) == LookupMounts(mounts, volume)
    {
      if mounts[i].destination == volume {
        return Ok(mounts[i].source);
      }
      assert mounts[i..][1..] == mounts[i + 1..];
      i := i + 1;
    }
    r := Err(NoMatchingMount(volume));
  }

  // ---------------------------------------------------------------------
  // The resolver.
  // ---------------------------------------------------------------------

  /** `getSourceForVolume`: the legacy display is used unless its query
      failed (`None`) or printed the no-value sentinel. */
  function SourceForVolume(volumesOutput: Option<string>, mounts: MountsAnswer, volume: string): (r: Result<string, ResolveError>)
    ensures volumesOutput.None? || volumesOutput.value == NoValue ==> r == MountsSource(mounts, volume)
    ensures volumesOutput.Some? && volumesOutput.value != NoValue ==> r == LegacySource(volumesOutput.value, volume)
  {
    if volumesOutput.None? || volumesOutput.value == NoValue then MountsSource(mounts, volume)
    else LegacySource(volumesOutput.value, volume)
  }

  method GetSourceForVolume(volumesOutput: Option<string>, mounts: MountsAnswer, volume: string) returns (r: Result<string, ResolveError>)
    ensures r == SourceForVolume(volumesOutput, mounts, volume)
  {
    if volumesOutput.None? || volumesOutput.value == NoValue {
      r := SourceFromMounts(mounts, volume);
    } else {
      r := SourceFromVolumes(volumesOutput.value, volume);
    }
  }

  // ---------------------------------------------------------------------
  // The two formats agree.
  // ---------------------------------------------------------------------

  /** A path that survives the legacy display unambiguously. */
  predicate PlainPath(p: string)
  {
    ':' !in p && ' ' !in p && '\n' !in p
  }

  /** The `destination:source` pairs the legacy display shows for `mounts`. */
  function Pairs(mounts: seq<Mount>): (r: seq<string>)
    ensures |r| == |mounts|
    ensures forall i :: 0 <= i < |mounts| ==> r[i] == mounts[i].destination + ":" + mounts[i].source
  {
    if |mounts| == 0 then [] else [mounts[0].destination + ":" + mounts[0].source] + Pairs(mounts[1..])
  }

  /** The legacy display of the same bindings a mount list describes. */
  function LegacyDisplay(mounts: seq<Mount>): string
  {
    "map[" + Join(Pairs(mounts), ' ') + "]"
  }

  lemma {:induction false} PairSplits(d: string, s: string)
    requires PlainPath(d) && PlainPath(s)
    ensures Split(d + ":" + s, ':') == [d, s]
  {
    assert Join([d, s], ':') == d + ":" + s;
    SplitJoin([d, s], ':');
  }

  lemma {:induction false} LookupPairsOfMounts(mounts: seq<Mount>, volume: string)
    requires forall i :: 0 <= i < |mounts| ==> PlainPath(mounts[i].source) && PlainPath(mounts[i].destination)
    requires |mounts| > 0
    ensures SameAnswer(LookupPairs(Pairs(mounts), volume), LookupMounts(mounts, volume))
  {
    var ps := Pairs(mounts);
    PairSplits(mounts[0].destination, mounts[0].source);
    if mounts[0].destination != volume {
      if |mounts| == 1 {
        assert ps[1..] == [];
      } else {
        assert ps[1..] == Pairs(mounts[1..]);
        LookupPairsOfMounts(mounts[1..], volume);
      }
    }
  }

  /** Two resolutions agree: both succeed with the same path, or both fail. */
  predicate SameAnswer(a: Result<string, ResolveError>, b: Result<string, ResolveError>)
  {
    a.Ok? == b.Ok? && (a.Ok? ==> a.value == b.value)
  }

  /** Format equivalence: for the same list of bindings, the legacy display
      and the decoded mount list resolve every volume to the same host path,
      or both fail. An empty list fails on both sides: the legacy display
      `map[]` holds one empty, malformed pair. */
  lemma {:induction false} FormatsAgree(mounts: seq<Mount>, volume: string, anyMounts: MountsAnswer)
    requires forall i :: 0 <= i < |mounts| ==> PlainPath(mounts[i].source) && PlainPath(mounts[i].destination)
    ensures SameAnswer(SourceForVolume(Some(LegacyDisplay(mounts)), anyMounts, volume), SourceForVolume(None, Decoded(mounts), volume))
  {
    if |mounts| == 0 {
      var s := LegacyDisplay(mounts);
      assert s == "map[]";
      assert MatchAt(s, 0);
      assert MapInner(s) == Some("");
      assert s != NoValue;
      return;
    }
    var ps := Pairs(mounts);
    var inner := Join(ps, ' ');
    var s := LegacyDisplay(mounts);
    forall i | 0 <= i < |ps| ensures ' ' !in ps[i] && '\n' !in ps[i] {
      assert ps[i] == mounts[i].destination + ":" + mounts[i].source;
    }
    JoinFree(ps, ' ', '\n');
    assert s[0..4] == "map[" && s[4..|s| - 1] == inner;
    assert MatchAt(s, 0);
    assert MapInner(s) == Some(inner);
    assert s[0] == 'm';
    assert s != NoValue;
    SplitJoin(ps, ' ');
    LookupPairsOfMounts(mounts, volume);
  }
}
