/** What the event log of one logical database looks like when a single migration worker writes it,
    and what follows: how often a version runs, and for how long its record stays. Two stores have to
    agree, the `schema_migrations` table and the effects of the SQL, and no transaction spans them. */
module MigrationLog {
  import opened Api
  import opened Server

  predicate Runs(e: Event, v: string) {
    e.Executed? && e.version == v
  }

  predicate Records(e: Event, v: string) {
    e.Recorded? && e.version == v
  }

  /** The event takes the record of `v` away. */
  predicate Wipes(e: Event, v: string) {
    e == Removed(v) || e == Dropped
  }

  /** A version runs only while it is not on record, is recorded only directly after it ran, and its
      record is removed only directly after a rollback that had something to do. A logical database may
      be dropped, and made again, in between. */
  predicate Fits(log: seq<Event>, i: nat, checksum: string -> string)
    requires i < |log|
  {
    match log[i]
    case Executed(v, _, _, _) => !HasRow(log[..i], v)
    case Recorded(v, sum) =>
      && i > 0 && Runs(log[i - 1], v) && checksum(log[i - 1].sql) == sum
      && Rows(log[..i - 1]).Some? && !HasRow(log[..i - 1], v)
    case Removed(v) =>
      i > 0 && log[i - 1].RolledBack? && log[i - 1].version == v && log[i - 1].sql != ""
    case _ => true
  }

  ghost predicate Shape(log: seq<Event>, checksum: string -> string) {
    forall i :: 0 <= i < |log| ==> Fits(log, i, checksum)
  }

  lemma ShapeAppend(log: seq<Event>, e: Event, checksum: string -> string)
    requires Shape(log, checksum) && Fits(log + [e], |log|, checksum)
    ensures Shape(log + [e], checksum)
  {
    forall i | 0 <= i < |log + [e]| ensures Fits(log + [e], i, checksum) {
      if i < |log| {
        assert Fits(log, i, checksum);
        assert (log + [e])[..i] == log[..i];
        if i > 0 {
          assert (log + [e])[..i - 1] == log[..i - 1];
        }
      }
    }
  }

  lemma RowsOfPrefix(log: seq<Event>, n: nat)
    requires n < |log|
    ensures Rows(log[..n + 1]) ==
              var rows := Rows(log[..n]);
              match log[n]
              case TableCreated => if rows.None? then Some(map[]) else rows
              case Recorded(v, c) => if rows.None? then None else Some(rows.value[v := c])
              case Removed(v) => if rows.None? then None else Some(rows.value - {v})
              case Dropped => None
              case _ => rows
  {
    assert log[..n + 1][..n] == log[..n];
  }

  // ---------------------------------------------------------------- records

  /** While a version is on record it is neither run nor recorded again, and only a wipe ends that. */
  lemma OnRecord(log: seq<Event>, checksum: string -> string, v: string, n: nat)
    requires n < |log| && Fits(log, n, checksum) && HasRow(log[..n], v)
    ensures !Runs(log[n], v) && !Records(log[n], v)
    ensures !Wipes(log[n], v) ==> HasRow(log[..n + 1], v) && Rows(log[..n + 1]).value[v] == Rows(log[..n]).value[v]
  {
    RowsOfPrefix(log, n);
    if Records(log[n], v) {
      RowsOfPrefix(log, n - 1);
      assert false;
    }
  }

  /** A record stays, with its checksum, until it is wiped. */
  lemma {:induction false} RecordStays(log: seq<Event>, checksum: string -> string, v: string, lo: nat, hi: nat)
    requires Shape(log, checksum) && lo <= hi <= |log| && HasRow(log[..lo], v)
    requires forall i :: lo <= i < hi ==> !Wipes(log[i], v)
    ensures HasRow(log[..hi], v) && Rows(log[..hi]).value[v] == Rows(log[..lo]).value[v]
    ensures forall i :: lo <= i < hi ==> !Runs(log[i], v) && !Records(log[i], v)
  {
    hide Rows, Fits;
    if lo < hi {
      RecordStays(log, checksum, v, lo, hi - 1);
      OnRecord(log, checksum, v, hi - 1);
    }
  }

  ghost predicate RecordedAt(log: seq<Event>, v: string, i: nat) {
    && 0 < i < |log|
    && Records(log[i], v)
    && (forall j :: i < j < |log| ==> !Wipes(log[j], v))
  }

  /** A version is on record exactly when it was recorded at some point and never wiped since, and
      the checksum is that of the SQL that ran immediately before. */
  lemma {:induction false} RecordMeans(log: seq<Event>, checksum: string -> string, v: string)
    requires Shape(log, checksum)
    ensures HasRow(log, v) <==> exists i: nat :: RecordedAt(log, v, i)
    ensures forall i: nat :: RecordedAt(log, v, i) ==>
              HasRow(log, v) && Runs(log[i - 1], v) && Rows(log).value[v] == checksum(log[i - 1].sql)
  {
    if HasRow(log, v) {
      var i := LastRecord(log, checksum, v);
    }
    forall i: nat | RecordedAt(log, v, i)
      ensures HasRow(log, v) && Runs(log[i - 1], v) && Rows(log).value[v] == checksum(log[i - 1].sql)
    {
      assert Fits(log, i, checksum);
      RowsOfPrefix(log, i);
      RowsOfPrefix(log, i - 1);
      RecordStays(log, checksum, v, i + 1, |log|);
      assert log[..|log|] == log;
    }
  }

  lemma {:induction false} LastRecord(log: seq<Event>, checksum: string -> string, v: string) returns (i: nat)
    requires Shape(log, checksum) && HasRow(log, v)
    ensures RecordedAt(log, v, i)
    decreases |log|
  {
    var n := |log| - 1;
    assert Fits(log, n, checksum);
    if Records(log[n], v) {
      return n;
    }
    var front := log[..n];
    forall j | 0 <= j < n ensures Fits(front, j, checksum) {
      assert Fits(log, j, checksum);
      assert front[..j] == log[..j];
      if j > 0 {
        assert front[..j - 1] == log[..j - 1];
      }
    }
    i := LastRecord(front, checksum, v);
  }

  // ---------------------------------------------------------------- how often a version runs

  function Executions(log: seq<Event>, lo: nat, hi: nat, v: string): nat
    requires hi <= |log|
    decreases hi
  {
    if hi <= lo then 0 else Executions(log, lo, hi - 1, v) + if Runs(log[hi - 1], v) then 1 else 0
  }

  /** The version ran, and the record that should have followed did not make it. */
  predicate Lapsed(log: seq<Event>, i: nat, v: string)
    requires i < |log|
  {
    Runs(log[i], v) && !(i + 1 < |log| && Records(log[i + 1], v))
  }

  function Lapses(log: seq<Event>, lo: nat, hi: nat, v: string): nat
    requires hi <= |log|
    decreases hi
  {
    if hi <= lo then 0 else Lapses(log, lo, hi - 1, v) + if Lapsed(log, hi - 1, v) then 1 else 0
  }

  /** As long as nothing wipes its record, a version runs at most once more than its record lapses;
      and not at all if it was on record to begin with. */
  lemma {:induction false} AtMostOncePerLapse(log: seq<Event>, checksum: string -> string, v: string, lo: nat, hi: nat)
    requires Shape(log, checksum) && lo <= hi <= |log|
    requires forall i :: lo <= i < hi ==> !Wipes(log[i], v)
    ensures Executions(log, lo, hi, v) <= Lapses(log, lo, hi, v) + 1
    ensures HasRow(log[..hi], v) || (hi > lo && hi < |log| && Records(log[hi], v) && Runs(log[hi - 1], v))
            || Executions(log, lo, hi, v) == Lapses(log, lo, hi, v)
    ensures HasRow(log[..lo], v) ==> Executions(log, lo, hi, v) == 0
  {
    if lo < hi {
      AtMostOncePerLapse(log, checksum, v, lo, hi - 1);
      RowsOfPrefix(log, hi - 1);
      assert Fits(log, hi - 1, checksum);
      if Records(log[hi - 1], v) {
        RowsOfPrefix(log, hi - 2);
      }
      if HasRow(log[..lo], v) {
        RecordStays(log, checksum, v, lo, hi);
      }
    }
  }

  lemma {:induction false} LapsesAgree(log: seq<Event>, log': seq<Event>, lo: nat, hi: nat, v: string)
    requires hi <= |log| && hi <= |log'|
    requires forall i :: 0 <= i < hi ==> Lapsed(log, i, v) == Lapsed(log', i, v)
    ensures Lapses(log, lo, hi, v) == Lapses(log', lo, hi, v)
    decreases hi
  {
    if lo < hi {
      LapsesAgree(log, log', lo, hi - 1, v);
    }
  }

  /** How one more event changes the count of lapses. */
  lemma LapsesAppend(log: seq<Event>, e: Event, lo: nat, v: string)
    requires lo <= |log|
    requires Records(e, v) ==> |log| > lo && Runs(log[|log| - 1], v)
    ensures Lapses(log + [e], lo, |log| + 1, v) ==
              Lapses(log, lo, |log|, v) + (if Runs(e, v) then 1 else 0) - (if Records(e, v) then 1 else 0)
  {
    var log', n := log + [e], |log|;
    assert log'[n] == e;
    if n == lo {
      assert Lapses(log', lo, n, v) == 0;
    } else {
      LapsesAgree(log, log', lo, n - 1, v);
      assert log'[n - 1] == log[n - 1];
    }
  }
}
