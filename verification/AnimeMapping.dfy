/** Absolute episode numbers against confirmed season ranges. */
module AnimeMapping {
  import opened Wrappers

  datatype RangeFields = RangeFields(season: int, start: int, count: int, source: string, rule: string)

  type SeasonRange = r: RangeFields | r.season > 0 && r.start > 0 && r.count > 0
    witness RangeFields(1, 1, 1, "s", "r")

  datatype EpisodeKey = EpisodeKey(absolute: Option<int>, season: Option<int>, episode: Option<int>)

  datatype Evidence = ExplicitConflict | Explicit | Overlap | OutOfRange | Offset(rule: string)

  datatype Resolution =
    | Mapped(key: EpisodeKey, source: string, evidence: Evidence)
    | NeedsReview(evidence: Evidence)
    | Conflict(evidence: Evidence)
    | Rejected

  predicate Contains(r: SeasonRange, absolute: int) {
    r.start <= absolute <= r.start + r.count - 1
  }

  function ToKey(r: SeasonRange, absolute: int): EpisodeKey
    requires Contains(r, absolute)
  {
    EpisodeKey(Some(absolute), Some(r.season), Some(absolute - r.start + 1))
  }

  function Matches(ranges: seq<SeasonRange>, absolute: int): seq<SeasonRange> {
    if ranges == [] then []
    else (if Contains(ranges[0], absolute) then [ranges[0]] else []) + Matches(ranges[1..], absolute)
  }

  function Resolve(absolute: int, ranges: seq<SeasonRange>, explicit: map<int, EpisodeKey>): Resolution {
    if absolute <= 0 then Rejected
    else if absolute in explicit then
      var key := explicit[absolute];
      if key.absolute.Some? && key.absolute.value != absolute then Conflict(ExplicitConflict)
      else Mapped(EpisodeKey(Some(absolute), key.season, key.episode), "explicit", Explicit)
    else
      var matches := Matches(ranges, absolute);
      if |matches| > 1 then Conflict(Overlap)
      else if matches == [] then NeedsReview(OutOfRange)
      else
        assert Contains(matches[0], absolute) by {
          MatchesContain(ranges, absolute);
        }
        Mapped(ToKey(matches[0], absolute), matches[0].source, Offset(matches[0].rule))
  }

  lemma {:induction false} MatchesContain(ranges: seq<SeasonRange>, absolute: int)
    ensures forall r | r in Matches(ranges, absolute) :: r in ranges && Contains(r, absolute)
  {
    if ranges != [] {
      MatchesContain(ranges[1..], absolute);
    }
  }

  lemma {:induction false} FirstMatch(ranges: seq<SeasonRange>, absolute: int) returns (i: nat)
    requires Matches(ranges, absolute) != []
    ensures i < |ranges| && ranges[i] == Matches(ranges, absolute)[0] && Contains(ranges[i], absolute)
  {
    if Contains(ranges[0], absolute) {
      i := 0;
    } else {
      i := FirstMatch(ranges[1..], absolute);
      i := i + 1;
    }
  }

  /** Matching keeps how often each range that contains the number is listed. */
  lemma {:induction false} MatchesCounted(ranges: seq<SeasonRange>, absolute: int, r: SeasonRange)
    ensures multiset(Matches(ranges, absolute))[r] == if Contains(r, absolute) then multiset(ranges)[r] else 0
  {
    if ranges != [] {
      MatchesCounted(ranges[1..], absolute, r);
      assert ranges == [ranges[0]] + ranges[1..];
    }
  }

  /** The order in which the ranges are given makes no difference, whatever they are. */
  lemma OrderDoesNotMatter(absolute: int, a: seq<SeasonRange>, b: seq<SeasonRange>, explicit: map<int, EpisodeKey>)
    requires multiset(a) == multiset(b)
    ensures Resolve(absolute, a, explicit) == Resolve(absolute, b, explicit)
  {
    SameMatches(a, b, absolute);
    SameResolution(Matches(a, absolute), Matches(b, absolute));
    hide Matches;
  }

  lemma SameMatches(a: seq<SeasonRange>, b: seq<SeasonRange>, absolute: int)
    requires multiset(a) == multiset(b)
    ensures multiset(Matches(a, absolute)) == multiset(Matches(b, absolute))
  {
    forall r: SeasonRange ensures multiset(Matches(a, absolute))[r] == multiset(Matches(b, absolute))[r] {
      MatchesCounted(a, absolute, r);
      MatchesCounted(b, absolute, r);
    }
  }

  lemma SameResolution(a: seq<SeasonRange>, b: seq<SeasonRange>)
    requires multiset(a) == multiset(b)
    ensures |a| == |b| && (|a| == 1 ==> a == b)
  {
    assert |a| == |multiset(a)| == |multiset(b)| == |b|;
    if |a| == 1 {
      assert a == [a[0]] && b == [b[0]];
      assert a[0] in multiset(b);
    }
  }

  lemma {:induction false} OneOrMoreMatches(ranges: seq<SeasonRange>, absolute: int, i: nat)
    requires i < |ranges| && Contains(ranges[i], absolute)
    ensures ranges[i] in Matches(ranges, absolute)
    ensures |Matches(ranges, absolute)| > 1 <==> exists j :: 0 <= j < |ranges| && j != i && Contains(ranges[j], absolute)
  {
    if i == 0 {
      var rest := ranges[1..];
      if Matches(rest, absolute) != [] {
        var j := FirstMatch(rest, absolute);
        assert Contains(ranges[j + 1], absolute);
      } else if exists j :: 0 <= j < |ranges| && j != 0 && Contains(ranges[j], absolute) {
        var j :| 0 <= j < |ranges| && j != 0 && Contains(ranges[j], absolute);
        OneOrMoreMatches(rest, absolute, j - 1);
      }
    } else {
      OneOrMoreMatches(ranges[1..], absolute, i - 1);
      assert ranges[1..][i - 1] == ranges[i];
      if exists j :: 0 <= j < |ranges| && j != i && Contains(ranges[j], absolute) {
        var j :| 0 <= j < |ranges| && j != i && Contains(ranges[j], absolute);
        if j > 0 {
          assert ranges[1..][j - 1] == ranges[j];
        }
      }
      if |Matches(ranges, absolute)| > 1 && !Contains(ranges[0], absolute) {
        var j :| 0 <= j < |ranges| - 1 && j != i - 1 && Contains(ranges[1..][j], absolute);
        assert Contains(ranges[j + 1], absolute);
      }
    }
  }

  /** Without an explicit mapping: a conflict exactly where two ranges overlap, a review exactly
      where none reaches, and otherwise the one season there is. */
  lemma ResolvesExactly(absolute: int, ranges: seq<SeasonRange>, explicit: map<int, EpisodeKey>)
    requires absolute > 0 && absolute !in explicit
    ensures
      var r := Resolve(absolute, ranges, explicit);
      && (r.Conflict? <==> exists i, j :: 0 <= i < j < |ranges| && Contains(ranges[i], absolute) && Contains(ranges[j], absolute))
      && (r.NeedsReview? <==> forall i | 0 <= i < |ranges| :: !Contains(ranges[i], absolute))
      && (r.Mapped? ==> exists i :: 0 <= i < |ranges| && Contains(ranges[i], absolute) && r.key == ToKey(ranges[i], absolute))
  {
    if Matches(ranges, absolute) == [] {
      forall i | 0 <= i < |ranges| ensures !Contains(ranges[i], absolute) {
        if Contains(ranges[i], absolute) {
          OneOrMoreMatches(ranges, absolute, i);
        }
      }
    } else {
      var i := FirstMatch(ranges, absolute);
      OneOrMoreMatches(ranges, absolute, i);
      if |Matches(ranges, absolute)| > 1 {
        var j :| 0 <= j < |ranges| && j != i && Contains(ranges[j], absolute);
        var low, high := if i < j then i else j, if i < j then j else i;
        assert 0 <= low < high < |ranges| && Contains(ranges[low], absolute) && Contains(ranges[high], absolute);
      } else {
        OneMatchOnly(ranges, absolute, i);
      }
    }
  }

  lemma OneMatchOnly(ranges: seq<SeasonRange>, absolute: int, k: nat)
    requires k < |ranges| && Contains(ranges[k], absolute) && |Matches(ranges, absolute)| <= 1
    ensures !exists i, j :: 0 <= i < j < |ranges| && Contains(ranges[i], absolute) && Contains(ranges[j], absolute)
  {
    OneOrMoreMatches(ranges, absolute, k);
    assert forall j | 0 <= j < |ranges| && j != k :: !Contains(ranges[j], absolute);
  }

  ghost predicate Disjoint(ranges: seq<SeasonRange>) {
    forall i, j, absolute: int | 0 <= i < j < |ranges| :: !(Contains(ranges[i], absolute) && Contains(ranges[j], absolute))
  }

  predicate DistinctSeasons(ranges: seq<SeasonRange>) {
    forall i, j | 0 <= i < j < |ranges| :: ranges[i].season != ranges[j].season
  }

  /** With disjoint ranges every episode of every season is reached, from the number that is
      start + episode - 1. */
  lemma EveryEpisodeIsReached(ranges: seq<SeasonRange>, i: nat, episode: int)
    requires Disjoint(ranges) && i < |ranges| && 1 <= episode <= ranges[i].count
    ensures
      var absolute := ranges[i].start + episode - 1;
      Resolve(absolute, ranges, map[]) ==
        Mapped(EpisodeKey(Some(absolute), Some(ranges[i].season), Some(episode)), ranges[i].source, Offset(ranges[i].rule))
  {
    var absolute := ranges[i].start + episode - 1;
    OneOrMoreMatches(ranges, absolute, i);
    assert forall j | 0 <= j < |ranges| && j != i :: !Contains(ranges[j], absolute);
    assert Matches(ranges, absolute) == [ranges[i]];
  }

  /** And two numbers never share an episode. */
  lemma ResolutionIsInjective(a: int, b: int, ranges: seq<SeasonRange>)
    requires Disjoint(ranges) && DistinctSeasons(ranges) && a > 0 && b > 0
    requires Resolve(a, ranges, map[]).Mapped? && Resolve(b, ranges, map[]).Mapped?
    requires Resolve(a, ranges, map[]).key.season == Resolve(b, ranges, map[]).key.season
    requires Resolve(a, ranges, map[]).key.episode == Resolve(b, ranges, map[]).key.episode
    ensures a == b
  {
    ResolvesExactly(a, ranges, map[]);
    ResolvesExactly(b, ranges, map[]);
    var i :| 0 <= i < |ranges| && Contains(ranges[i], a) && Resolve(a, ranges, map[]).key == ToKey(ranges[i], a);
    var j :| 0 <= j < |ranges| && Contains(ranges[j], b) && Resolve(b, ranges, map[]).key == ToKey(ranges[j], b);
    assert i == j;
  }
}
