/** Which of the tracks that stand for the same recording supplies the merged row. */
module PreferredTrack {
  import opened TrackTables

  /** Better sources first, then the tracks that know more. `rank` is 0 for local files, 1 for torrents, 2 for
      Soulseek, 3 for others, and 0 for a track without sources. */
  function Score(track: Track, rank: nat): int {
    (4 - rank) * 100 + (if track.durationMs > 0 then 10 else 0) + (if track.coverArtId != "" then 4 else 0)
    + (if track.genre != "" then 2 else 0) + (if track.year != 0 then 1 else 0)
  }

  /** The first track with the highest score. */
  ghost predicate IsPreferred(tracks: seq<Track>, ranks: seq<nat>, best: nat)
    requires |tracks| == |ranks|
  {
    && best < |tracks|
    && (forall k :: 0 <= k < |tracks| ==> Score(tracks[k], ranks[k]) <= Score(tracks[best], ranks[best]))
    && (forall k :: 0 <= k < best ==> Score(tracks[k], ranks[k]) < Score(tracks[best], ranks[best]))
  }

  lemma PreferredIsUnique(tracks: seq<Track>, ranks: seq<nat>, a: nat, b: nat)
    requires |tracks| == |ranks| && IsPreferred(tracks, ranks, a) && IsPreferred(tracks, ranks, b)
    ensures a == b
  {
    assert Score(tracks[a], ranks[a]) <= Score(tracks[b], ranks[b]);
    assert Score(tracks[b], ranks[b]) <= Score(tracks[a], ranks[a]);
  }

  function BestOf(tracks: seq<Track>, ranks: seq<nat>, n: nat): (best: nat)
    requires 0 < n <= |tracks| == |ranks|
    ensures best < n
  {
    if n == 1 then 0
    else
      var best := BestOf(tracks, ranks, n - 1);
      if Score(tracks[n - 1], ranks[n - 1]) > Score(tracks[best], ranks[best]) then n - 1 else best
  }

  lemma {:induction false} BestIsPreferred(tracks: seq<Track>, ranks: seq<nat>, n: nat)
    requires 0 < n <= |tracks| == |ranks|
    ensures IsPreferred(tracks[..n], ranks[..n], BestOf(tracks, ranks, n))
  {
    if n > 1 {
      BestIsPreferred(tracks, ranks, n - 1);
      assert forall k :: 0 <= k < n - 1 ==> tracks[..n - 1][k] == tracks[..n][k] && ranks[..n - 1][k] == ranks[..n][k];
    }
  }

  /** The first value that is not blank, or blank. */
  function FirstSet<T(==)>(values: seq<T>, blank: T): T {
    if values == [] then blank else if values[0] != blank then values[0] else FirstSet(values[1..], blank)
  }

  lemma {:induction false} FirstSetAppend<T>(values: seq<T>, last: T, blank: T)
    ensures FirstSet(values + [last], blank) == if FirstSet(values, blank) == blank then last
            else FirstSet(values, blank)
  {
    if values != [] && values[0] == blank {
      FirstSetAppend(values[1..], last, blank);
      assert (values + [last])[1..] == values[1..] + [last];
    }
  }

  function Genres(tracks: seq<Track>): seq<string> {
    seq(|tracks|, k requires 0 <= k < |tracks| => tracks[k].genre)
  }

  function Covers(tracks: seq<Track>): seq<string> {
    seq(|tracks|, k requires 0 <= k < |tracks| => tracks[k].coverArtId)
  }

  function Years(tracks: seq<Track>): seq<int> {
    seq(|tracks|, k requires 0 <= k < |tracks| => tracks[k].year)
  }

  function Durations(tracks: seq<Track>): seq<int> {
    seq(|tracks|, k requires 0 <= k < |tracks| => tracks[k].durationMs)
  }

  /** A track whose blanks are filled from the group, in order. */
  function Filled(best: Track, tracks: seq<Track>): Track {
    best.(genre := FirstSet([best.genre] + Genres(tracks), ""),
          coverArtId := FirstSet([best.coverArtId] + Covers(tracks), ""),
          year := FirstSet([best.year] + Years(tracks), 0),
          durationMs := FirstSet([best.durationMs] + Durations(tracks), 0))
  }

  function Preferred(tracks: seq<Track>, ranks: seq<nat>): Track
    requires 0 < |tracks| == |ranks|
  {
    Filled(tracks[BestOf(tracks, ranks, |tracks|)], tracks)
  }

  lemma FilledByOneMore(best: Track, tracks: seq<Track>, n: nat)
    requires n < |tracks|
    ensures var before := Filled(best, tracks[..n]);
            Filled(best, tracks[..n + 1]) == before.(
              genre := if before.genre == "" then tracks[n].genre else before.genre,
              coverArtId := if before.coverArtId == "" then tracks[n].coverArtId else before.coverArtId,
              year := if before.year == 0 then tracks[n].year else before.year,
              durationMs := if before.durationMs == 0 then tracks[n].durationMs else before.durationMs)
  {
    var few, more := tracks[..n], tracks[..n + 1];
    assert [best.genre] + Genres(more) == [best.genre] + Genres(few) + [tracks[n].genre];
    FirstSetAppend([best.genre] + Genres(few), tracks[n].genre, "");
    assert [best.coverArtId] + Covers(more) == [best.coverArtId] + Covers(few) + [tracks[n].coverArtId];
    FirstSetAppend([best.coverArtId] + Covers(few), tracks[n].coverArtId, "");
    assert [best.year] + Years(more) == [best.year] + Years(few) + [tracks[n].year];
    FirstSetAppend([best.year] + Years(few), tracks[n].year, 0);
    assert [best.durationMs] + Durations(more) == [best.durationMs] + Durations(few) + [tracks[n].durationMs];
    FirstSetAppend([best.durationMs] + Durations(few), tracks[n].durationMs, 0);
  }

  lemma FirstSetOfOne<T>(value: T, blank: T)
    ensures FirstSet([value], blank) == value
  {
    assert [value][1..] == [];
  }

  lemma FilledByNone(best: Track)
    ensures Filled(best, []) == best
  {
    assert [best.genre] + Genres([]) == [best.genre];
    assert [best.coverArtId] + Covers([]) == [best.coverArtId];
    assert [best.year] + Years([]) == [best.year];
    assert [best.durationMs] + Durations([]) == [best.durationMs];
    FirstSetOfOne(best.genre, "");
    FirstSetOfOne(best.coverArtId, "");
    FirstSetOfOne(best.year, 0);
    FirstSetOfOne(best.durationMs, 0);
  }

  method PreferredMigrationTrack(tracks: seq<Track>, ranks: seq<nat>) returns (best: Track)
    requires 0 < |tracks| == |ranks|
    ensures best == Preferred(tracks, ranks)
    ensures exists k: nat :: IsPreferred(tracks, ranks, k) && best == Filled(tracks[k], tracks)
  {
    hide Filled;
    var chosen := 0;
    best := tracks[0];
    var bestScore := Score(best, ranks[0]);
    var n := 1;
    while n < |tracks|
      invariant 1 <= n <= |tracks| && chosen == BestOf(tracks, ranks, n)
      invariant best == tracks[chosen] && bestScore == Score(best, ranks[chosen])
    {
      var score := Score(tracks[n], ranks[n]);
      if score > bestScore {
        chosen, best, bestScore := n, tracks[n], score;
      }
      n := n + 1;
    }
    ghost var winner := best;
    best := FillBlanks(best, tracks);
    assert tracks[..|tracks|] == tracks && ranks[..|ranks|] == ranks;
    BestIsPreferred(tracks, ranks, |tracks|);
  }

  /** The second loop: each blank takes the first set value of the group. */
  method FillBlanks(winner: Track, tracks: seq<Track>) returns (best: Track)
    ensures best == Filled(winner, tracks)
  {
    hide Filled;
    best := winner;
    FilledByNone(winner);
    assert tracks[..0] == [];
    var n := 0;
    while n < |tracks|
      invariant n <= |tracks| && best == Filled(winner, tracks[..n])
    {
      FilledByOneMore(winner, tracks, n);
      if best.genre == "" {
        best := best.(genre := tracks[n].genre);
      }
      if best.coverArtId == "" {
        best := best.(coverArtId := tracks[n].coverArtId);
      }
      if best.year == 0 {
        best := best.(year := tracks[n].year);
      }
      if best.durationMs == 0 {
        best := best.(durationMs := tracks[n].durationMs);
      }
      n := n + 1;
    }
    assert tracks[..n] == tracks;
  }
}
