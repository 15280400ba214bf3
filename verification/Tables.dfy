// The print_runs table as a sequence in queue_sequence order, and the per-target histories
// inside it. Statements of the form UPDATE ... WHERE map one function over every row.
module Tables {
  import opened Domain

  // The rows of one target, oldest first.
  function RunsOf(rows: seq<Run>, k: Key): seq<Run> {
    if rows == [] then []
    else
      var last := rows[|rows| - 1];
      RunsOf(rows[..|rows| - 1], k) + (if last.key == k then [last] else [])
  }

  lemma {:induction false} InRunsOf(rows: seq<Run>, k: Key)
    ensures forall r :: r in RunsOf(rows, k) <==> r in rows && r.key == k
  {
    if rows != [] {
      InRunsOf(rows[..|rows| - 1], k);
      assert rows == rows[..|rows| - 1] + [rows[|rows| - 1]];
    }
  }

  function MapRows(f: Run -> Run, rows: seq<Run>): (out: seq<Run>)
    ensures |out| == |rows|
    ensures forall i | 0 <= i < |rows| :: out[i] == f(rows[i])
  {
    seq(|rows|, i requires 0 <= i < |rows| => f(rows[i]))
  }

  // DELETE ... CASCADE for the jobs in `gone`.
  function WithoutJobs(rows: seq<Run>, gone: set<Uid>): seq<Run> {
    if rows == [] then []
    else
      var last := rows[|rows| - 1];
      WithoutJobs(rows[..|rows| - 1], gone) + (if last.key.job !in gone then [last] else [])
  }

  lemma {:induction false} InWithoutJobs(rows: seq<Run>, gone: set<Uid>)
    ensures forall r :: r in WithoutJobs(rows, gone) <==> r in rows && r.key.job !in gone
  {
    if rows != [] {
      InWithoutJobs(rows[..|rows| - 1], gone);
      assert rows == rows[..|rows| - 1] + [rows[|rows| - 1]];
    }
  }

  // SELECT ... WHERE uid = ?
  function Lookup(rows: seq<Run>, uid: Uid): (r: Option<Run>)
    ensures r.Some? ==> r.value in rows && r.value.uid == uid
    ensures r.None? ==> forall x | x in rows :: x.uid != uid
  {
    if rows == [] then None
    else if rows[0].uid == uid then Some(rows[0])
    else Lookup(rows[1..], uid)
  }

  // SELECT COALESCE(MAX(run_number), 0) for one target.
  function MaxNumber(rows: seq<Run>, k: Key): nat {
    if rows == [] then 0
    else
      var rest := MaxNumber(rows[1..], k);
      if rows[0].key == k && rows[0].number > rest then rows[0].number else rest
  }

  lemma MaxNumberBounds(rows: seq<Run>, k: Key)
    ensures forall r | r in rows && r.key == k :: r.number <= MaxNumber(rows, k)
    ensures MaxNumber(rows, k) > 0 ==> exists r :: r in rows && r.key == k && r.number == MaxNumber(rows, k)
  {
    if rows != [] {
      MaxNumberBounds(rows[1..], k);
    }
  }

  ghost predicate Sorted(rows: seq<Run>) {
    forall i, j | 0 <= i < j < |rows| :: rows[i].sequence < rows[j].sequence
  }

  ghost predicate UniqueUids(rows: seq<Run>) {
    forall a, b | a in rows && b in rows && a.uid == b.uid :: a == b
  }

  lemma LookupFinds(rows: seq<Run>, r: Run)
    requires UniqueUids(rows) && r in rows
    ensures Lookup(rows, r.uid) == Some(r)
  {
  }

  // A row keeps its place in its target's history when the table is updated in place.
  lemma {:induction false} RunsOfMapped(f: Run -> Run, rows: seq<Run>, k: Key)
    requires forall r | r in rows :: f(r).key == r.key
    ensures RunsOf(MapRows(f, rows), k) == MapRows(f, RunsOf(rows, k))
  {
    if rows == [] {
    } else {
      var front := rows[..|rows| - 1];
      RunsOfMapped(f, front, k);
      assert MapRows(f, rows)[..|rows| - 1] == MapRows(f, front);
      assert rows[|rows| - 1] in rows;
    }
  }

  lemma RunsOfAppended(rows: seq<Run>, r: Run, k: Key)
    ensures RunsOf(rows + [r], k) == if r.key == k then RunsOf(rows, k) + [r] else RunsOf(rows, k)
  {
    assert (rows + [r])[..|rows|] == rows;
  }

  lemma {:induction false} RunsOfWithoutJobs(rows: seq<Run>, gone: set<Uid>, k: Key)
    ensures RunsOf(WithoutJobs(rows, gone), k) == if k.job in gone then [] else RunsOf(rows, k)
  {
    if rows == [] {
    } else {
      var front, last := rows[..|rows| - 1], rows[|rows| - 1];
      RunsOfWithoutJobs(front, gone, k);
      assert rows == front + [last];
      RunsOfAppended(front, last, k);
      if last.key.job !in gone {
        assert WithoutJobs(rows, gone) == WithoutJobs(front, gone) + [last];
        RunsOfAppended(WithoutJobs(front, gone), last, k);
      } else {
        assert WithoutJobs(rows, gone) == WithoutJobs(front, gone);
      }
    }
  }

  lemma {:induction false} WithoutJobsSorted(rows: seq<Run>, gone: set<Uid>)
    requires Sorted(rows)
    ensures Sorted(WithoutJobs(rows, gone))
  {
    if rows != [] {
      var front, last := rows[..|rows| - 1], rows[|rows| - 1];
      WithoutJobsSorted(front, gone);
      InWithoutJobs(front, gone);
      forall r | r in front ensures r.sequence < last.sequence {
        var i :| 0 <= i < |front| && front[i] == r;
        assert rows[i] == r;
      }
    }
  }

  lemma {:induction false} RunsOfSorted(rows: seq<Run>, k: Key)
    requires Sorted(rows)
    ensures Sorted(RunsOf(rows, k))
  {
    if rows != [] {
      var front, last := rows[..|rows| - 1], rows[|rows| - 1];
      RunsOfSorted(front, k);
      InRunsOf(front, k);
      forall r | r in front ensures r.sequence < last.sequence {
        var i :| 0 <= i < |front| && front[i] == r;
        assert rows[i] == r;
      }
    }
  }

  lemma {:induction false} NoRunsOf(rows: seq<Run>, k: Key)
    requires forall r | r in rows :: r.key != k
    ensures RunsOf(rows, k) == []
  {
    if rows != [] {
      NoRunsOf(rows[..|rows| - 1], k);
      assert rows[|rows| - 1] in rows;
    }
  }

  // Membership after an in-place update: every new row is the image of an old one.
  lemma MappedRow(f: Run -> Run, rows: seq<Run>, r': Run) returns (r: Run)
    requires r' in MapRows(f, rows)
    ensures r in rows && r' == f(r)
  {
    var i :| 0 <= i < |rows| && MapRows(f, rows)[i] == r';
    r := rows[i];
  }

  lemma MappedIn(f: Run -> Run, rows: seq<Run>, r: Run)
    requires r in rows
    ensures f(r) in MapRows(f, rows)
  {
    var i :| 0 <= i < |rows| && rows[i] == r;
    assert MapRows(f, rows)[i] == f(r);
  }
}
