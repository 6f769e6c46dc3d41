/** Merging the annotations of media that turn out to be one: both catalog migrations do it the same way.

    Rows are joined under a text key made of owner, media type and media id. */
module Annotations {
  import opened Common

  datatype Media = Artist | Album | Song

  /** Times are RFC 3339 text, compared as text. */
  datatype Annotation = Annotation(
    owner: string, media: Media, mediaId: string, starredAt: string, rating: int, playCount: int, lastPlayedAt: string)

  // Text order.

  predicate TextLeq(a: string, b: string) {
    a == [] || (b != [] && (a[0] < b[0] || (a[0] == b[0] && TextLeq(a[1..], b[1..]))))
  }

  lemma {:induction false} TextReflexive(a: string)
    ensures TextLeq(a, a)
  {
    if a != [] {
      TextReflexive(a[1..]);
    }
  }

  lemma {:induction false} TextTotal(a: string, b: string)
    ensures TextLeq(a, b) || TextLeq(b, a)
  {
    if a != [] && b != [] {
      TextTotal(a[1..], b[1..]);
    }
  }

  lemma {:induction false} TextTransitive(a: string, b: string, c: string)
    requires TextLeq(a, b) && TextLeq(b, c)
    ensures TextLeq(a, c)
  {
    if a != [] && b != [] && c != [] {
      if a[0] == b[0] == c[0] {
        TextTransitive(a[1..], b[1..], c[1..]);
      }
    }
  }

  function MaxText(a: string, b: string): string {
    if TextLeq(a, b) then b else a
  }

  lemma MaxTextIsMax(a: string, b: string)
    ensures TextLeq(a, MaxText(a, b)) && TextLeq(b, MaxText(a, b))
  {
    TextReflexive(a);
    TextReflexive(b);
    TextTotal(a, b);
  }

  // Merging.

  function Join(a: Annotation, b: Annotation): Annotation {
    a.(starredAt := MaxText(a.starredAt, b.starredAt), rating := Max(a.rating, b.rating),
       playCount := a.playCount + b.playCount, lastPlayedAt := MaxText(a.lastPlayedAt, b.lastPlayedAt))
  }

  function Merged(rows: seq<Annotation>, key: Annotation -> string): map<string, Annotation> {
    if rows == [] then map[]
    else
      var before, row := Merged(rows[..|rows| - 1], key), rows[|rows| - 1];
      before[key(row) := if key(row) in before then Join(before[key(row)], row) else row]
  }

  /** Plays recorded under a key. */
  function Plays(rows: seq<Annotation>, key: Annotation -> string, k: string): int {
    if rows == [] then 0
    else Plays(rows[..|rows| - 1], key, k) + (if key(rows[|rows| - 1]) == k then rows[|rows| - 1].playCount else 0)
  }

  function StarredAt(a: Annotation): string { a.starredAt }
  function LastPlayedAt(a: Annotation): string { a.lastPlayedAt }

  /** `v` is the greatest text in a column, over the rows under key `k`. */
  ghost predicate Greatest(rows: seq<Annotation>, key: Annotation -> string, k: string, column: Annotation -> string,
                           v: string) {
    && (forall row :: row in rows && key(row) == k ==> TextLeq(column(row), v))
    && (exists row :: row in rows && key(row) == k && column(row) == v)
  }

  ghost predicate GreatestRating(rows: seq<Annotation>, key: Annotation -> string, k: string, rating: int) {
    && (forall row :: row in rows && key(row) == k ==> row.rating <= rating)
    && (exists row :: row in rows && key(row) == k && row.rating == rating)
  }

  /** `r` is what the rows under key `k` come to: all plays, and the greatest of each other field. */
  ghost predicate Sums(rows: seq<Annotation>, key: Annotation -> string, k: string, r: Annotation) {
    && r.playCount == Plays(rows, key, k)
    && GreatestRating(rows, key, k, r.rating)
    && Greatest(rows, key, k, StarredAt, r.starredAt)
    && Greatest(rows, key, k, LastPlayedAt, r.lastPlayedAt)
    && exists row ::
         row in rows && key(row) == k && (row.owner, row.media, row.mediaId) == (r.owner, r.media, r.mediaId)
  }

  lemma {:induction false} MergedKeys(rows: seq<Annotation>, key: Annotation -> string, k: string)
    ensures k in Merged(rows, key) <==> exists row :: row in rows && key(row) == k
  {
    if rows != [] {
      MergedKeys(rows[..|rows| - 1], key, k);
      assert rows == rows[..|rows| - 1] + [rows[|rows| - 1]];
    }
  }

  lemma {:induction false} PlaysOfNone(rows: seq<Annotation>, key: Annotation -> string, k: string)
    requires forall row :: row in rows ==> key(row) != k
    ensures Plays(rows, key, k) == 0
  {
    if rows != [] {
      assert rows == rows[..|rows| - 1] + [rows[|rows| - 1]];
      PlaysOfNone(rows[..|rows| - 1], key, k);
    }
  }

  lemma GreatestOfOne(rows: seq<Annotation>, key: Annotation -> string, column: Annotation -> string, row: Annotation)
    requires forall r :: r in rows ==> key(r) != key(row)
    ensures Greatest(rows + [row], key, key(row), column, column(row))
  {
    TextReflexive(column(row));
    assert row in rows + [row];
  }

  lemma GreatestStays(rows: seq<Annotation>, key: Annotation -> string, k: string, column: Annotation -> string,
                      v: string, row: Annotation)
    requires Greatest(rows, key, k, column, v) && key(row) != k
    ensures Greatest(rows + [row], key, k, column, v)
  {
    var a :| a in rows && key(a) == k && column(a) == v;
    assert a in rows + [row];
  }

  lemma GreatestGrows(rows: seq<Annotation>, key: Annotation -> string, column: Annotation -> string, v: string,
                      row: Annotation)
    requires Greatest(rows, key, key(row), column, v)
    ensures Greatest(rows + [row], key, key(row), column, MaxText(v, column(row)))
  {
    MaxTextIsMax(v, column(row));
    forall a | a in rows + [row] && key(a) == key(row) ensures TextLeq(column(a), MaxText(v, column(row))) {
      if a in rows {
        TextTransitive(column(a), v, MaxText(v, column(row)));
      }
    }
    var a :| a in rows && key(a) == key(row) && column(a) == v;
    assert a in rows + [row] && row in rows + [row];
  }

  lemma SumsOfOne(rows: seq<Annotation>, key: Annotation -> string, row: Annotation)
    requires forall r :: r in rows ==> key(r) != key(row)
    ensures Sums(rows + [row], key, key(row), row)
  {
    assert (rows + [row])[..|rows|] == rows;
    PlaysOfNone(rows, key, key(row));
    assert row in rows + [row];
    assert GreatestRating(rows + [row], key, key(row), row.rating);
    hide Greatest, GreatestRating;
    GreatestOfOne(rows, key, StarredAt, row);
    GreatestOfOne(rows, key, LastPlayedAt, row);
  }

  lemma SumsStay(rows: seq<Annotation>, key: Annotation -> string, k: string, r: Annotation, row: Annotation)
    requires Sums(rows, key, k, r) && key(row) != k
    ensures Sums(rows + [row], key, k, r)
  {
    assert (rows + [row])[..|rows|] == rows;
    var a :| a in rows && key(a) == k && a.rating == r.rating;
    var d :| d in rows && key(d) == k && (d.owner, d.media, d.mediaId) == (r.owner, r.media, r.mediaId);
    assert a in rows + [row] && d in rows + [row];
    assert GreatestRating(rows + [row], key, k, r.rating);
    hide Greatest, GreatestRating;
    GreatestStays(rows, key, k, StarredAt, r.starredAt, row);
    GreatestStays(rows, key, k, LastPlayedAt, r.lastPlayedAt, row);
  }

  lemma SumsJoin(rows: seq<Annotation>, key: Annotation -> string, r: Annotation, row: Annotation)
    requires Sums(rows, key, key(row), r)
    ensures Sums(rows + [row], key, key(row), Join(r, row))
  {
    var k, more := key(row), rows + [row];
    assert more[..|rows|] == rows;
    var a :| a in rows && key(a) == k && a.rating == r.rating;
    var d :| d in rows && key(d) == k && (d.owner, d.media, d.mediaId) == (r.owner, r.media, r.mediaId);
    assert a in more && d in more && row in more;
    assert GreatestRating(more, key, k, Max(r.rating, row.rating));
    hide Greatest, GreatestRating;
    GreatestGrows(rows, key, StarredAt, r.starredAt, row);
    GreatestGrows(rows, key, LastPlayedAt, r.lastPlayedAt, row);
  }

  /** Every merged row is the sum and the maxima of the rows under its key. */
  lemma {:induction false} MergedSums(rows: seq<Annotation>, key: Annotation -> string, k: string)
    requires k in Merged(rows, key)
    ensures Sums(rows, key, k, Merged(rows, key)[k])
  {
    var few, row := rows[..|rows| - 1], rows[|rows| - 1];
    assert rows == few + [row];
    hide Sums;
    MergedKeys(few, key, k);
    if k != key(row) {
      MergedSums(few, key, k);
      SumsStay(few, key, k, Merged(few, key)[k], row);
    } else if k in Merged(few, key) {
      MergedSums(few, key, k);
      SumsJoin(few, key, Merged(few, key)[k], row);
    } else {
      SumsOfOne(few, key, row);
    }
  }

  // The order of the rows.

  lemma {:induction false} PlaysOfParts(first: seq<Annotation>, second: seq<Annotation>, key: Annotation -> string,
                                        k: string)
    ensures Plays(first + second, key, k) == Plays(first, key, k) + Plays(second, key, k)
  {
    if second == [] {
      assert first + second == first;
    } else {
      assert (first + second)[..|first + second| - 1] == first + second[..|second| - 1];
      PlaysOfParts(first, second[..|second| - 1], key, k);
    }
  }

  lemma PlaysWithoutRow(rows: seq<Annotation>, i: nat, key: Annotation -> string, k: string)
    requires i < |rows|
    ensures Plays(rows, key, k)
            == Plays(rows[..i] + rows[i + 1..], key, k) + (if key(rows[i]) == k then rows[i].playCount else 0)
  {
    assert rows == rows[..i] + [rows[i]] + rows[i + 1..];
    assert [rows[i]][..0] == [];
    PlaysOfParts(rows[..i] + [rows[i]], rows[i + 1..], key, k);
    PlaysOfParts(rows[..i], [rows[i]], key, k);
    PlaysOfParts(rows[..i], rows[i + 1..], key, k);
  }

  lemma WithoutOneRow(few: seq<Annotation>, row: Annotation, other: seq<Annotation>, i: nat)
    requires i < |other| && other[i] == row && multiset(few + [row]) == multiset(other)
    ensures multiset(few) == multiset(other[..i] + other[i + 1..])
  {
    assert other == other[..i] + [row] + other[i + 1..];
    var first, second := other[..i], other[i + 1..];
    assert multiset(first + [row] + second) == multiset(first) + multiset{row} + multiset(second);
    assert multiset(few + [row]) == multiset(few) + multiset{row};
    assert multiset(first + second) == multiset(first) + multiset(second);
    assert multiset(few) == multiset(few) + multiset{row} - multiset{row};
    assert multiset(first) + multiset(second) == multiset(first) + multiset{row} + multiset(second) - multiset{row};
  }

  /** Rows in another order have as many plays under each key: take away one row at a time. */
  lemma {:induction false} PlaysIgnoreOrder(rows: seq<Annotation>, other: seq<Annotation>, key: Annotation -> string,
                                            k: string)
    requires multiset(rows) == multiset(other)
    ensures Plays(rows, key, k) == Plays(other, key, k)
    decreases |rows|
  {
    if rows == [] {
      assert |multiset(other)| == 0;
      assert other == [];
    } else {
      var few, row := rows[..|rows| - 1], rows[|rows| - 1];
      assert rows == few + [row];
      assert row in multiset(other);
      var i :| 0 <= i < |other| && other[i] == row;
      WithoutOneRow(few, row, other, i);
      PlaysIgnoreOrder(few, other[..i] + other[i + 1..], key, k);
      PlaysWithoutRow(other, i, key, k);
    }
  }

  lemma {:induction false} TextAntisymmetric(a: string, b: string)
    ensures TextLeq(a, b) && TextLeq(b, a) ==> a == b
  {
    if a != [] && b != [] && a[0] == b[0] {
      TextAntisymmetric(a[1..], b[1..]);
    }
  }

  lemma SumsAgree(rows: seq<Annotation>, other: seq<Annotation>, key: Annotation -> string, k: string, a: Annotation,
                  b: Annotation)
    requires multiset(rows) == multiset(other) && Sums(rows, key, k, a) && Sums(other, key, k, b)
    ensures (a.rating, a.playCount, a.starredAt, a.lastPlayedAt) == (b.rating, b.playCount, b.starredAt, b.lastPlayedAt)
    ensures (exists row ::
               row in rows && key(row) == k && (row.owner, row.media, row.mediaId) == (a.owner, a.media, a.mediaId))
    ensures (exists row ::
               row in rows && key(row) == k && (row.owner, row.media, row.mediaId) == (b.owner, b.media, b.mediaId))
  {
    PlaysIgnoreOrder(rows, other, key, k);
    assert forall row :: row in rows <==> row in multiset(rows);
    assert forall row :: row in other <==> row in multiset(other);
    hide Plays;
    TextAntisymmetric(a.starredAt, b.starredAt);
    TextAntisymmetric(a.lastPlayedAt, b.lastPlayedAt);
  }

  /** The merge does not depend on the order in which the query returned the rows, as far as numbers and times go. */
  lemma SumsAreUnique(rows: seq<Annotation>, other: seq<Annotation>, key: Annotation -> string, k: string)
    requires multiset(rows) == multiset(other) && k in Merged(rows, key)
    ensures k in Merged(other, key)
    ensures var a, b := Merged(rows, key)[k], Merged(other, key)[k];
            (a.rating, a.playCount, a.starredAt, a.lastPlayedAt) == (b.rating, b.playCount, b.starredAt, b.lastPlayedAt)
  {
    MergedKeys(rows, key, k);
    MergedKeys(other, key, k);
    assert forall row :: row in rows <==> row in multiset(rows);
    assert forall row :: row in other <==> row in multiset(other);
    hide Sums, Merged, Plays;
    MergedSums(rows, key, k);
    MergedSums(other, key, k);
    SumsAgree(rows, other, key, k, Merged(rows, key)[k], Merged(other, key)[k]);
  }

  /** Rows with one key are about one medium of one owner. */
  ghost predicate Exact(rows: seq<Annotation>, key: Annotation -> string) {
    forall a, b :: a in rows && b in rows && key(a) == key(b) ==>
      (a.owner, a.media, a.mediaId) == (b.owner, b.media, b.mediaId)
  }

  /** And if the keys are exact, not at all. */
  lemma MergeIgnoresOrder(rows: seq<Annotation>, other: seq<Annotation>, key: Annotation -> string)
    requires multiset(rows) == multiset(other) && Exact(rows, key)
    ensures Merged(rows, key) == Merged(other, key)
  {
    hide Sums, Merged, Plays;
    forall k ensures Lookup(Merged(rows, key), k) == Lookup(Merged(other, key), k) {
      if k in Merged(rows, key) {
        SumsAreUnique(rows, other, key, k);
        MergedSums(rows, key, k);
        MergedSums(other, key, k);
        SumsAgree(rows, other, key, k, Merged(rows, key)[k], Merged(other, key)[k]);
      } else if k in Merged(other, key) {
        SumsAreUnique(other, rows, key, k);
      }
    }
    SameLookups(Merged(rows, key), Merged(other, key));
  }

  // Conservation over the whole table.

  function AllPlays(rows: seq<Annotation>): int {
    if rows == [] then 0 else AllPlays(rows[..|rows| - 1]) + rows[|rows| - 1].playCount
  }

  /** The rows the migration inserts: the merged ones, in some order. */
  ghost predicate Lists(rows: seq<Annotation>, merged: map<string, Annotation>, keys: seq<string>) {
    && |rows| == |keys|
    && Distinct(keys)
    && (forall k :: 0 <= k < |keys| ==> keys[k] in merged && merged[keys[k]] == rows[k])
    && (forall k :: k in merged ==> k in keys)
  }

  function PlaysUnder(rows: seq<Annotation>, key: Annotation -> string, keys: seq<string>): int {
    if keys == [] then 0 else PlaysUnder(rows, key, keys[..|keys| - 1]) + Plays(rows, key, keys[|keys| - 1])
  }

  lemma {:induction false} OneMoreRowUnder(rows: seq<Annotation>, key: Annotation -> string, keys: seq<string>,
                                           row: Annotation)
    requires Distinct(keys)
    ensures PlaysUnder(rows + [row], key, keys)
            == PlaysUnder(rows, key, keys) + (if key(row) in keys then row.playCount else 0)
  {
    if keys != [] {
      var few, last := keys[..|keys| - 1], keys[|keys| - 1];
      assert keys == few + [last];
      assert (rows + [row])[..|rows|] == rows;
      OneMoreRowUnder(rows, key, few, row);
    }
  }

  lemma {:induction false} NoRowsUnder(key: Annotation -> string, keys: seq<string>)
    ensures PlaysUnder([], key, keys) == 0
  {
    if keys != [] {
      NoRowsUnder(key, keys[..|keys| - 1]);
    }
  }

  lemma {:induction false} AllRowsUnder(rows: seq<Annotation>, key: Annotation -> string, keys: seq<string>)
    requires Distinct(keys)
    requires forall row :: row in rows ==> key(row) in keys
    ensures PlaysUnder(rows, key, keys) == AllPlays(rows)
  {
    if rows == [] {
      NoRowsUnder(key, keys);
    } else {
      var few, row := rows[..|rows| - 1], rows[|rows| - 1];
      assert rows == few + [row];
      AllRowsUnder(few, key, keys);
      OneMoreRowUnder(few, key, keys, row);
    }
  }

  lemma {:induction false} ListedPlays(rows: seq<Annotation>, key: Annotation -> string, listed: seq<Annotation>,
                                       keys: seq<string>)
    requires |listed| == |keys| && forall k :: 0 <= k < |keys| ==> listed[k].playCount == Plays(rows, key, keys[k])
    ensures AllPlays(listed) == PlaysUnder(rows, key, keys)
  {
    if keys != [] {
      ListedPlays(rows, key, listed[..|keys| - 1], keys[..|keys| - 1]);
    }
  }

  /** No play is lost and none is counted twice, whatever the renaming merges. */
  lemma PlaysAreConserved(rows: seq<Annotation>, key: Annotation -> string, listed: seq<Annotation>, keys: seq<string>)
    requires Lists(listed, Merged(rows, key), keys)
    ensures AllPlays(listed) == AllPlays(rows)
  {
    forall k | 0 <= k < |keys| ensures listed[k].playCount == Plays(rows, key, keys[k]) {
      MergedSums(rows, key, keys[k]);
    }
    ListedPlays(rows, key, listed, keys);
    forall row | row in rows ensures key(row) in keys {
      MergedKeys(rows, key, key(row));
    }
    AllRowsUnder(rows, key, keys);
  }

  // The keys.

  const NUL: char := '\0'

  predicate NulFree(s: string) {
    NUL !in s
  }

  function MediaName(media: Media): string {
    match media
    case Artist => "artist"
    case Album => "album"
    case Song => "song"
  }

  /** The key of the track migration, whose rows are all songs. */
  function SongKey(a: Annotation): string {
    a.owner + [NUL] + a.mediaId
  }

  function IdentityKey(a: Annotation): string {
    a.owner + [NUL] + MediaName(a.media) + [NUL] + a.mediaId
  }

  /** One text read in two ways: a part of `x`, up to one of its own separators, is taken for a part of `b`. */
  ghost predicate Shifted(a: string, x: string, b: string, y: string) {
    exists w: string :: b == a + [NUL] + w && x == w + [NUL] + y
  }

  /** Two pairs joined by a separator give one text only if they are equal, or one is the other shifted. */
  lemma SplitsExactly(a: string, x: string, b: string, y: string)
    ensures a + [NUL] + x == b + [NUL] + y <==> (a == b && x == y) || Shifted(a, x, b, y) || Shifted(b, y, a, x)
  {
    if a + [NUL] + x == b + [NUL] + y {
      if |a| <= |b| {
        ShorterFirst(a, x, b, y);
      } else {
        ShorterFirst(b, y, a, x);
      }
    }
    if Shifted(a, x, b, y) {
      ShiftedIsEqual(a, x, b, y);
    }
    if Shifted(b, y, a, x) {
      ShiftedIsEqual(b, y, a, x);
    }
  }

  lemma ShorterFirst(a: string, x: string, b: string, y: string)
    requires a + [NUL] + x == b + [NUL] + y && |a| <= |b|
    ensures (a == b && x == y) || Shifted(a, x, b, y)
  {
    var text, other := a + [NUL] + x, b + [NUL] + y;
    assert text[|a|] == NUL && text[..|a|] == a && text[|a| + 1..] == x;
    assert other[..|b|] == b && other[|b| + 1..] == y;
    if |a| < |b| {
      var w := b[|a| + 1..];
      assert b[|a|] == other[|a|] && b[..|a|] == other[..|a|];
      assert b == a + [NUL] + w;
      assert x == w + [NUL] + y;
    }
  }

  lemma ShiftedIsEqual(a: string, x: string, b: string, y: string)
    requires Shifted(a, x, b, y)
    ensures a + [NUL] + x == b + [NUL] + y
  {
    var w :| b == a + [NUL] + w && x == w + [NUL] + y;
    assert a + [NUL] + x == a + [NUL] + w + [NUL] + y;
  }

  /** A shift takes a separator in both parts. */
  lemma ShiftHasSeparators(a: string, x: string, b: string, y: string)
    ensures Shifted(a, x, b, y) ==> !NulFree(b) && !NulFree(x)
  {
    if Shifted(a, x, b, y) {
      var w :| b == a + [NUL] + w && x == w + [NUL] + y;
      assert b[|a|] == NUL && x[|w|] == NUL;
    }
  }

  /** Two rows that share a song key are about one track of one owner, or one row's key is the other's shifted. */
  lemma SongKeysCollideExactly(a: Annotation, b: Annotation)
    ensures SongKey(a) == SongKey(b) <==>
            || (a.owner == b.owner && a.mediaId == b.mediaId)
            || Shifted(a.owner, a.mediaId, b.owner, b.mediaId) || Shifted(b.owner, b.mediaId, a.owner, a.mediaId)
  {
    SplitsExactly(a.owner, a.mediaId, b.owner, b.mediaId);
  }

  ghost predicate OwnersNulFree(rows: seq<Annotation>) {
    forall row :: row in rows ==> NulFree(row.owner)
  }

  ghost predicate IdsNulFree(rows: seq<Annotation>) {
    forall row :: row in rows ==> NulFree(row.mediaId)
  }

  /** If neither owner, or neither id, has a NUL the keys tell rows apart exactly by owner and id. */
  lemma SongKeysAreExact(a: Annotation, b: Annotation)
    requires OwnersNulFree([a, b]) || IdsNulFree([a, b])
    ensures SongKey(a) == SongKey(b) <==> a.owner == b.owner && a.mediaId == b.mediaId
  {
    assert a in [a, b] && b in [a, b];
    SongKeysCollideExactly(a, b);
    ShiftHasSeparators(a.owner, a.mediaId, b.owner, b.mediaId);
    ShiftHasSeparators(b.owner, b.mediaId, a.owner, a.mediaId);
  }

  /** What stands behind the owner in the key of the identity migration. */
  function Tail(a: Annotation): string {
    MediaName(a.media) + [NUL] + a.mediaId
  }

  lemma TailsAreExact(a: Annotation, b: Annotation)
    ensures Tail(a) == Tail(b) <==> a.media == b.media && a.mediaId == b.mediaId
  {
    SplitsExactly(MediaName(a.media), a.mediaId, MediaName(b.media), b.mediaId);
    ShiftHasSeparators(MediaName(a.media), a.mediaId, MediaName(b.media), b.mediaId);
    ShiftHasSeparators(MediaName(b.media), b.mediaId, MediaName(a.media), a.mediaId);
    MediaNamesDiffer(a.media, b.media);
  }

  /** A text that starts with a name and has two more separators has one in what stands behind its first. */
  lemma LongerHasSeparators(name: string, x: string, w: string, other: string, y: string)
    requires NulFree(name) && name + [NUL] + x == (w + [NUL] + other) + [NUL] + y
    ensures !NulFree(x)
  {
    hide Shifted;
    var longer := w + [NUL] + other;
    assert longer[|w|] == NUL;
    SplitsExactly(name, x, longer, y);
    ShiftHasSeparators(name, x, longer, y);
    ShiftHasSeparators(longer, y, name, x);
  }

  /** A tail is only shifted out of a longer one, and that takes a NUL in its id. */
  lemma TailShiftHasSeparators(a: Annotation, b: Annotation)
    ensures Shifted(a.owner, Tail(a), b.owner, Tail(b)) ==> !NulFree(b.owner) && !NulFree(a.mediaId)
  {
    MediaNamesDiffer(a.media, b.media);
    hide MediaName;
    ShiftHasSeparators(a.owner, Tail(a), b.owner, Tail(b));
    if Shifted(a.owner, Tail(a), b.owner, Tail(b)) {
      var w :| b.owner == a.owner + [NUL] + w && Tail(a) == w + [NUL] + Tail(b);
      var name := MediaName(b.media);
      Regroup(w, [NUL], name, [NUL], b.mediaId);
      LongerHasSeparators(MediaName(a.media), a.mediaId, w, name, b.mediaId);
    }
  }

  lemma Regroup(a: string, b: string, c: string, d: string, e: string)
    ensures a + b + (c + d + e) == a + b + c + d + e
  {
  }

  lemma IdentityKeysCollideExactly(a: Annotation, b: Annotation)
    ensures IdentityKey(a) == IdentityKey(b) <==>
            || (a.owner == b.owner && a.media == b.media && a.mediaId == b.mediaId)
            || Shifted(a.owner, Tail(a), b.owner, Tail(b)) || Shifted(b.owner, Tail(b), a.owner, Tail(a))
  {
    assert IdentityKey(a) == a.owner + [NUL] + Tail(a) && IdentityKey(b) == b.owner + [NUL] + Tail(b);
    SplitsExactly(a.owner, Tail(a), b.owner, Tail(b));
    TailsAreExact(a, b);
  }

  lemma IdentityKeysAreExact(a: Annotation, b: Annotation)
    requires OwnersNulFree([a, b]) || IdsNulFree([a, b])
    ensures IdentityKey(a) == IdentityKey(b) <==> a.owner == b.owner && a.media == b.media && a.mediaId == b.mediaId
  {
    assert a in [a, b] && b in [a, b];
    IdentityKeysCollideExactly(a, b);
    TailShiftHasSeparators(a, b);
    TailShiftHasSeparators(b, a);
  }

  /** So the merge of songs does not depend on the order of the rows, unless some owner and some id hold a NUL. */
  lemma SongMergeIgnoresOrder(rows: seq<Annotation>, other: seq<Annotation>)
    requires multiset(rows) == multiset(other) && forall row :: row in rows ==> row.media == Song
    requires OwnersNulFree(rows) || IdsNulFree(rows)
    ensures Merged(rows, SongKey) == Merged(other, SongKey)
  {
    forall a, b | a in rows && b in rows && SongKey(a) == SongKey(b)
      ensures (a.owner, a.media, a.mediaId) == (b.owner, b.media, b.mediaId)
    {
      SongKeysAreExact(a, b);
    }
    hide Merged;
    MergeIgnoresOrder(rows, other, SongKey);
  }

  lemma IdentityMergeIgnoresOrder(rows: seq<Annotation>, other: seq<Annotation>)
    requires multiset(rows) == multiset(other) && (OwnersNulFree(rows) || IdsNulFree(rows))
    ensures Merged(rows, IdentityKey) == Merged(other, IdentityKey)
  {
    forall a, b | a in rows && b in rows && IdentityKey(a) == IdentityKey(b)
      ensures (a.owner, a.media, a.mediaId) == (b.owner, b.media, b.mediaId)
    {
      IdentityKeysAreExact(a, b);
    }
    hide Merged;
    MergeIgnoresOrder(rows, other, IdentityKey);
  }

  lemma MediaNamesDiffer(a: Media, b: Media)
    ensures NulFree(MediaName(a)) && NulFree(MediaName(b))
    ensures MediaName(a) == MediaName(b) ==> a == b
  {
    assert "artist"[1] != "album"[1] && "artist"[0] != "song"[0] && "album"[0] != "song"[0];
  }

  /** With a NUL in an owner's name and one in a media id two users' annotations can fall together. */
  lemma KeysCanCollide()
    ensures exists a: Annotation, b: Annotation ::
              a.owner != b.owner && a.mediaId != b.mediaId && SongKey(a) == SongKey(b)
  {
    var a := Annotation("u", Song, ['x', NUL, 'y'], "", 0, 0, "");
    var b := Annotation(['u', NUL, 'x'], Song, "y", "", 0, 0, "");
    assert SongKey(a) == SongKey(b);
  }

  // The loop.

  function Renamed(row: Annotation, names: map<string, string>): Annotation {
    if row.mediaId in names && names[row.mediaId] != "" then row.(mediaId := names[row.mediaId]) else row
  }

  function RenamedRows(rows: seq<Annotation>, names: Annotation -> map<string, string>): seq<Annotation> {
    seq(|rows|, k requires 0 <= k < |rows| => Renamed(rows[k], names(rows[k])))
  }

  lemma NothingMerged(rows: seq<Annotation>, key: Annotation -> string)
    ensures Merged(rows[..0], key) == map[]
  {
  }

  lemma RenamedAs(row: Annotation, names: map<string, string>)
    ensures Renamed(row, names)
            == if row.mediaId in names && names[row.mediaId] != "" then row.(mediaId := names[row.mediaId]) else row
  {
  }

  lemma MergedByOne(rows: seq<Annotation>, n: nat, key: Annotation -> string)
    requires n < |rows|
    ensures var before, row := Merged(rows[..n], key), rows[n];
            Merged(rows[..n + 1], key)
            == before[key(row) := if key(row) in before then Join(before[key(row)], row) else row]
  {
    assert rows[..n + 1][..n] == rows[..n];
  }

  /** The merge loop of both migrations: each row is renamed and joined into the map. */
  method MergeRows(rows: seq<Annotation>, names: Annotation -> map<string, string>, key: Annotation -> string)
    returns (merged: map<string, Annotation>)
    ensures merged == Merged(RenamedRows(rows, names), key)
    ensures forall k :: k in merged ==> Sums(RenamedRows(rows, names), key, k, merged[k])
  {
    hide Merged, Sums, Renamed, MaxText;
    merged := map[];
    var n := 0;
    ghost var all := RenamedRows(rows, names);
    NothingMerged(all, key);
    while n < |rows|
      invariant n <= |rows| && merged == Merged(all[..n], key)
    {
      var row := rows[n];
      var found := names(row);
      if row.mediaId in found && found[row.mediaId] != "" {
        row := row.(mediaId := found[row.mediaId]);
      }
      assert row == all[n] by { RenamedAs(rows[n], names(rows[n])); }
      MergedByOne(all, n, key);
      var k := key(row);
      if k in merged {
        var current := merged[k];
        current := current.(starredAt := MaxText(current.starredAt, row.starredAt));
        current := current.(rating := Max(current.rating, row.rating));
        current := current.(playCount := current.playCount + row.playCount);
        current := current.(lastPlayedAt := MaxText(current.lastPlayedAt, row.lastPlayedAt));
        merged := merged[k := current];
      } else {
        merged := merged[k := row];
      }
      n := n + 1;
    }
    assert all[..n] == all;
    forall k | k in merged ensures Sums(all, key, k, merged[k]) {
      MergedSums(all, key, k);
    }
  }

  lemma {:induction false} RenamingKeepsPlays(rows: seq<Annotation>, names: Annotation -> map<string, string>)
    ensures AllPlays(RenamedRows(rows, names)) == AllPlays(rows)
  {
    if rows != [] {
      RenamingKeepsPlays(rows[..|rows| - 1], names);
      assert RenamedRows(rows, names)[..|rows| - 1] == RenamedRows(rows[..|rows| - 1], names);
    }
  }

  // Replacing the rows.

  function IdentityRows(rows: seq<Annotation>): seq<Annotation> {
    if rows == [] then []
    else IdentityRows(rows[..|rows| - 1]) + (if rows[|rows| - 1].media == Song then [] else [rows[|rows| - 1]])
  }

  function SongRows(rows: seq<Annotation>): seq<Annotation> {
    if rows == [] then []
    else SongRows(rows[..|rows| - 1]) + (if rows[|rows| - 1].media == Song then [rows[|rows| - 1]] else [])
  }

  ghost predicate Enumerates(keys: seq<string>, merged: map<string, Annotation>) {
    (forall k :: k in keys <==> k in merged) && Distinct(keys)
  }

  method InsertAll(merged: map<string, Annotation>, keys: seq<string>) returns (inserted: seq<Annotation>)
    requires Enumerates(keys, merged)
    ensures Lists(inserted, merged, keys)
  {
    inserted := [];
    var n := 0;
    while n < |keys|
      invariant n <= |keys| && |inserted| == n
      invariant forall k :: 0 <= k < n ==> keys[k] in merged && inserted[k] == merged[keys[k]]
    {
      assert keys[n] in keys;
      inserted := inserted + [merged[keys[n]]];
      n := n + 1;
    }
  }
}
