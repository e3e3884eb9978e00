/**
 * The AQI history (database.js): an append-only table `aqi_records` whose
 * rows get increasing AUTOINCREMENT ids, and the same-day average of one
 * city's readings. Timestamps are abstract ordered values: the caller passes
 * the insertion time (SQLite's CURRENT_TIMESTAMP) and the start-of-day cutoff.
 */
module History {
  import opened Wrappers
  import opened JsMath
  import opened Pollutants

  /** A point in time; only the order matters. */
  type Timestamp = int

  /** One row of `aqi_records`. */
  datatype Record = Record(
    id: nat,
    city: string,
    aqi: int,
    openweatherAqi: int,
    components: Components,
    createdAt: Timestamp)

  /** The failure a SQLite callback reports; its message is not modelled. */
  datatype DbError = DbError

  /** `WHERE city = ? AND datetime(created_at) >= datetime(?)`. */
  predicate Matches(r: Record, city: string, cutoff: Timestamp)
    ensures Matches(r, city, cutoff) ==> r.city == city
    ensures r.createdAt < cutoff ==> !Matches(r, city, cutoff)
  {
    r.city == city && r.createdAt >= cutoff
  }

  /** No row has the city and a timestamp at or after the cutoff. */
  predicate NoneMatch(rs: seq<Record>, city: string, cutoff: Timestamp)
  {
    forall i :: 0 <= i < |rs| ==> !Matches(rs[i], city, cutoff)
  }

  /** Every matching row has an aqi between lo and hi. */
  predicate MatchingWithin(rs: seq<Record>, city: string, cutoff: Timestamp, lo: int, hi: int)
  {
    forall i :: 0 <= i < |rs| && Matches(rs[i], city, cutoff) ==> lo <= rs[i].aqi <= hi
  }

  /** `COUNT(*)` and the sum behind `AVG(aqi)` of the matching rows. */
  datatype Tally = Tally(count: nat, total: int)
  {
    /** The tally of two disjoint groups of rows taken together. */
    function Plus(other: Tally): Tally
    {
      Tally(count + other.count, total + other.total)
    }
  }

  /** What one row adds to the tally. */
  function Contribution(r: Record, city: string, cutoff: Timestamp): (t: Tally)
    ensures t.count <= 1
    ensures t.count == 1 <==> Matches(r, city, cutoff)
    ensures t.count == 1 ==> t.total == r.aqi
    ensures t.count == 0 ==> t.total == 0
  {
    if Matches(r, city, cutoff) then Tally(1, r.aqi) else Tally(0, 0)
  }

  /** The tally of the rows that match a city and cutoff. */
  function TallyOf(rs: seq<Record>, city: string, cutoff: Timestamp): (t: Tally)
    ensures t.count == 0 ==> t.total == 0
  {
    if |rs| == 0 then Tally(0, 0)
    else
      var init := TallyOf(rs[..|rs| - 1], city, cutoff);
      var last := Contribution(rs[|rs| - 1], city, cutoff);
      Tally(init.count + last.count, init.total + last.total)
  }

  /**
   * The value getDailyAverage resolves: null when no row matches, otherwise
   * Math.round of the mean aqi of the matching rows.
   */
  function Average(rs: seq<Record>, city: string, cutoff: Timestamp): (a: Option<int>)
    ensures a.None? <==> TallyOf(rs, city, cutoff).count == 0
    ensures a.Some? ==> var t := TallyOf(rs, city, cutoff);
      a.value as real - 0.5 <= t.total as real / t.count as real < a.value as real + 0.5
  {
    var t := TallyOf(rs, city, cutoff);
    if t.count == 0 then None else Some(Round(t.total as real / t.count as real))
  }

  /** The tally of a concatenation is the sum of the tallies. */
  lemma {:induction false} TallyAppend(a: seq<Record>, b: seq<Record>, city: string, cutoff: Timestamp)
    ensures TallyOf(a + b, city, cutoff) == TallyOf(a, city, cutoff).Plus(TallyOf(b, city, cutoff))
    decreases |b|
  {
    if |b| == 0 {
      assert a + b == a;
    } else {
      var n := |b| - 1;
      var ab := a + b;
      assert ab[..|ab| - 1] == a + b[..n];
      assert ab[|ab| - 1] == b[n];
      TallyAppend(a, b[..n], city, cutoff);
      assert TallyOf(ab, city, cutoff) == TallyOf(a + b[..n], city, cutoff).Plus(Contribution(b[n], city, cutoff));
    }
  }

  /** No matching row exactly when the count is zero. */
  lemma {:induction false} TallyCountZero(rs: seq<Record>, city: string, cutoff: Timestamp)
    ensures TallyOf(rs, city, cutoff).count == 0 <==> NoneMatch(rs, city, cutoff)
  {
    if rs != [] {
      var n := |rs| - 1;
      var init := rs[..n];
      TallyCountZero(init, city, cutoff);
      assert forall i :: 0 <= i < n ==> rs[i] == init[i];
      assert NoneMatch(rs, city, cutoff) <==> NoneMatch(init, city, cutoff) && !Matches(rs[n], city, cutoff);
    }
  }

  /** A single row's tally is its contribution. */
  lemma TallySingleton(x: Record, city: string, cutoff: Timestamp)
    ensures TallyOf([x], city, cutoff) == Contribution(x, city, cutoff)
  {
    assert [x][..0] == [];
  }

  /** Taking one row out of a sequence takes its contribution out of the tally. */
  lemma TallyRemove(pre: seq<Record>, x: Record, post: seq<Record>, city: string, cutoff: Timestamp)
    ensures TallyOf(pre + [x] + post, city, cutoff) == TallyOf(pre + post, city, cutoff).Plus(Contribution(x, city, cutoff))
  {
    TallySingleton(x, city, cutoff);
    TallyAppend(pre + [x], post, city, cutoff);
    TallyAppend(pre, [x], city, cutoff);
    TallyAppend(pre, post, city, cutoff);
  }

  /** The tally, and so the average, depends only on the multiset of rows, not on their order. */
  lemma {:induction false} TallyPermutation(a: seq<Record>, b: seq<Record>, city: string, cutoff: Timestamp)
    requires multiset(a) == multiset(b)
    ensures TallyOf(a, city, cutoff) == TallyOf(b, city, cutoff)
    decreases |a|
  {
    if a == [] {
      assert |b| == |multiset(b)| == 0;
    } else {
      var n := |a| - 1;
      var x := a[n];
      assert a == a[..n] + [x];
      assert x in multiset(b);
      var i :| 0 <= i < |b| && b[i] == x;
      var rest := b[..i] + b[i + 1..];
      assert b == b[..i] + [x] + b[i + 1..];
      assert multiset(rest) == multiset(b) - multiset{x};
      assert multiset(a[..n]) == multiset(a) - multiset{x};
      TallyPermutation(a[..n], rest, city, cutoff);
      TallyRemove(b[..i], x, b[i + 1..], city, cutoff);
    }
  }

  /** n * k, by repeated addition (keeps the tally proofs linear). */
  function Times(n: nat, k: int): int
  {
    if n == 0 then 0 else Times(n - 1, k) + k
  }

  /** Times is multiplication, read over the reals. */
  lemma {:induction false} TimesAsReal(n: nat, k: int)
    ensures Times(n, k) as real == n as real * k as real
  {
    if n > 0 {
      TimesAsReal(n - 1, k);
      assert (n - 1) as real * k as real + k as real == n as real * k as real;
    }
  }

  /** If the matching rows' aqi lie between lo and hi, the total lies between count * lo and count * hi. */
  lemma {:induction false} TallyBounds(rs: seq<Record>, city: string, cutoff: Timestamp, lo: int, hi: int)
    requires MatchingWithin(rs, city, cutoff, lo, hi)
    ensures var t := TallyOf(rs, city, cutoff); Times(t.count, lo) <= t.total <= Times(t.count, hi)
  {
    if rs != [] {
      var n := |rs| - 1;
      var init := rs[..n];
      assert forall i :: 0 <= i < n ==> init[i] == rs[i];
      assert MatchingWithin(init, city, cutoff, lo, hi);
      TallyBounds(init, city, cutoff, lo, hi);
    }
  }

  /** A mean of values within [lo, hi] lies within [lo, hi]. */
  lemma MeanWithin(total: real, count: real, lo: real, hi: real)
    requires count > 0.0
    requires count * lo <= total <= count * hi
    ensures lo <= total / count <= hi
  {
    var m := total / count;
    assert total == m * count;
  }

  /** The rounded mean of `count` values totalling `total`, each within [lo, hi], is within [lo, hi]. */
  lemma RoundedMeanWithin(total: int, count: nat, lo: int, hi: int)
    requires count > 0
    requires Times(count, lo) <= total <= Times(count, hi)
    ensures lo <= Round(total as real / count as real) <= hi
  {
    TimesAsReal(count, lo);
    TimesAsReal(count, hi);
    MeanWithin(total as real, count as real, lo as real, hi as real);
    RoundWithin(total as real / count as real, lo, hi);
  }

  /** A non-null average is Math.round of the exact mean of the matching aqi values. */
  lemma AverageIsRoundedMean(rs: seq<Record>, city: string, cutoff: Timestamp)
    requires Average(rs, city, cutoff).Some?
    ensures var t := TallyOf(rs, city, cutoff); var v := Average(rs, city, cutoff).value;
      t.count > 0 && v as real - 0.5 <= t.total as real / t.count as real < v as real + 0.5
  {
  }

  /** null exactly when no row has the city and a timestamp at or after the cutoff. */
  lemma AverageNullIffNoMatch(rs: seq<Record>, city: string, cutoff: Timestamp)
    ensures Average(rs, city, cutoff).None? <==> NoneMatch(rs, city, cutoff)
  {
    TallyCountZero(rs, city, cutoff);
  }

  /** A non-null average lies within any range holding every matching aqi, such as [min, max]. */
  lemma AverageWithinBounds(rs: seq<Record>, city: string, cutoff: Timestamp, lo: int, hi: int)
    requires MatchingWithin(rs, city, cutoff, lo, hi)
    requires Average(rs, city, cutoff).Some?
    ensures lo <= Average(rs, city, cutoff).value <= hi
  {
    var t := TallyOf(rs, city, cutoff);
    TallyBounds(rs, city, cutoff, lo, hi);
    RoundedMeanWithin(t.total, t.count, lo, hi);
  }

  /** Reordering the rows leaves the average unchanged. */
  lemma AverageOrderIndependent(a: seq<Record>, b: seq<Record>, city: string, cutoff: Timestamp)
    requires multiset(a) == multiset(b)
    ensures Average(a, city, cutoff) == Average(b, city, cutoff)
  {
    TallyPermutation(a, b, city, cutoff);
  }

  /** A row for another city, or from before the cutoff, does not change the average. */
  lemma AppendOtherUnchanged(rs: seq<Record>, r: Record, city: string, cutoff: Timestamp)
    requires !Matches(r, city, cutoff)
    ensures Average(rs + [r], city, cutoff) == Average(rs, city, cutoff)
  {
  }

  /** After a matching row is appended the average is not null. */
  lemma AppendMatchingNotNull(rs: seq<Record>, r: Record, city: string, cutoff: Timestamp)
    requires Matches(r, city, cutoff)
    ensures Average(rs + [r], city, cutoff).Some?
  {
  }

  /** The open `aqi_records` table behind the module-level `db` handle. */
  class HistoryStore {
    /** The rows, in insertion order. */
    var records: seq<Record>
    /** The id the next insertion receives (AUTOINCREMENT starts at 1). */
    var nextId: nat

    /** Ids increase along the table and all lie below the next id. */
    ghost predicate Valid()
      reads this
    {
      nextId >= 1 &&
      (forall i, j :: 0 <= i < j < |records| ==> records[i].id < records[j].id) &&
      (forall i :: 0 <= i < |records| ==> records[i].id < nextId)
    }

    /** A freshly created, empty table. */
    constructor ()
      ensures Valid()
      ensures records == [] && nextId == 1
    {
      records := [];
      nextId := 1;
    }

    /**
     * saveAQIData(city, aqi, openweatherAQI, components), with the insertion
     * time passed in as `now`. If SQLite reports an error (`writeFails`) the
     * promise rejects and nothing changes; otherwise exactly one row is
     * appended and its id, larger than every earlier id, is returned.
     */
    method Save(city: string, aqi: int, openweatherAqi: int, components: Components, now: Timestamp, writeFails: bool)
      returns (r: Result<nat, DbError>)
      requires Valid()
      modifies this
      ensures Valid()
      ensures writeFails ==> r == Failure(DbError) && records == old(records) && nextId == old(nextId)
      ensures !writeFails ==> r == Success(old(nextId))
      ensures !writeFails ==>
        records == old(records) + [Record(old(nextId), city, aqi, openweatherAqi, components, now)] &&
        nextId == old(nextId) + 1
      ensures r.Success? ==> forall i :: 0 <= i < |old(records)| ==> old(records)[i].id < r.value
      ensures r.Success? ==> forall cutoff: Timestamp :: cutoff <= now ==> DailyAverage(city, cutoff).Some?
      ensures forall c: string, cutoff: Timestamp :: c != city || now < cutoff ==>
        DailyAverage(c, cutoff) == old(DailyAverage(c, cutoff))
    {
      if writeFails {
        return Failure(DbError);
      }
      var row := Record(nextId, city, aqi, openweatherAqi, components, now);
      forall c: string, cutoff: Timestamp
        ensures Average(records + [row], c, cutoff) ==
          (if Matches(row, c, cutoff) then Average(records + [row], c, cutoff) else Average(records, c, cutoff))
        ensures Matches(row, c, cutoff) ==> Average(records + [row], c, cutoff).Some?
      {
        if Matches(row, c, cutoff) {
          AppendMatchingNotNull(records, row, c, cutoff);
        } else {
          AppendOtherUnchanged(records, row, c, cutoff);
        }
      }
      records := records + [row];
      r := Success(nextId);
      nextId := nextId + 1;
    }

    /**
     * getDailyAverage(city) for the start-of-day `cutoff`: null exactly when
     * no row has that city and a timestamp at or after the cutoff.
     */
    function DailyAverage(city: string, cutoff: Timestamp): (avg: Option<int>)
      reads this
      ensures avg.None? <==> NoneMatch(records, city, cutoff)
    {
      AverageNullIffNoMatch(records, city, cutoff);
      Average(records, city, cutoff)
    }
  }
}
