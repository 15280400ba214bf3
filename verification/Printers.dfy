// The list of printers a request names: sorted, without blanks or repetitions.
module Printers {
  import opened Domain

  const MaxPrinters: nat := 20

  datatype Problem = WrongCount | EmptyId | DuplicateId(id: PrinterId)
  datatype Canonical = Canonical(ids: seq<PrinterId>) | Rejected(problem: Problem)

  ghost predicate Ascending(s: seq<PrinterId>) {
    s == [] || ((forall y | y in s[1..] :: s[0] <= y) && Ascending(s[1..]))
  }

  ghost predicate StrictlyAscending(s: seq<PrinterId>) {
    forall i, j | 0 <= i < j < |s| :: s[i] < s[j]
  }

  function Insert(x: PrinterId, s: seq<PrinterId>): seq<PrinterId> {
    if s == [] || x <= s[0] then [x] + s else [s[0]] + Insert(x, s[1..])
  }

  // sort.Strings
  function SortIds(s: seq<PrinterId>): seq<PrinterId> {
    if s == [] then [] else Insert(s[0], SortIds(s[1..]))
  }

  lemma {:induction false} InsertKeepsIds(x: PrinterId, s: seq<PrinterId>)
    ensures multiset(Insert(x, s)) == multiset(s) + multiset{x}
    ensures forall y :: y in Insert(x, s) <==> y == x || y in s
  {
    if s == [] || x <= s[0] {
    } else {
      InsertKeepsIds(x, s[1..]);
      assert s == [s[0]] + s[1..];
    }
  }

  lemma {:induction false} InsertSorts(x: PrinterId, s: seq<PrinterId>)
    requires Ascending(s)
    ensures Ascending(Insert(x, s))
  {
    if s == [] || x <= s[0] {
      assert Insert(x, s)[1..] == s;
      assert s != [] ==> s == [s[0]] + s[1..];
    } else {
      InsertSorts(x, s[1..]);
      InsertKeepsIds(x, s[1..]);
      assert Insert(x, s)[1..] == Insert(x, s[1..]);
    }
  }

  lemma {:induction false} SortSorts(s: seq<PrinterId>)
    ensures Ascending(SortIds(s)) && multiset(SortIds(s)) == multiset(s) && |SortIds(s)| == |s|
  {
    if s != [] {
      SortSorts(s[1..]);
      InsertSorts(s[0], SortIds(s[1..]));
      InsertKeepsIds(s[0], SortIds(s[1..]));
      assert s == [s[0]] + s[1..];
    }
    assert |multiset(SortIds(s))| == |multiset(s)|;
  }

  // Two strictly ascending lists of the same ids are the same list.
  lemma {:induction false} AscendingUnique(a: seq<PrinterId>, b: seq<PrinterId>)
    requires StrictlyAscending(a) && StrictlyAscending(b) && forall x :: x in a <==> x in b
    ensures a == b
  {
    if a != [] {
      HasMember(a);
    }
    if b != [] {
      HasMember(b);
    }
    if a != [] && b != [] {
      SameHead(a, b);
      AscendingUnique(a[1..], b[1..]);
      assert a == [a[0]] + a[1..] && b == [b[0]] + b[1..];
    }
  }

  lemma HasMember(a: seq<PrinterId>)
    requires a != []
    ensures exists x :: x in a
  {
    assert a[0] in a;
  }

  lemma HeadIsLeast(a: seq<PrinterId>)
    requires StrictlyAscending(a) && a != []
    ensures StrictlyAscending(a[1..])
    ensures forall x :: x in a[1..] <==> x in a && x != a[0]
    ensures forall x | x in a :: a[0] <= x
  {
    assert a == [a[0]] + a[1..];
  }

  lemma SameHead(a: seq<PrinterId>, b: seq<PrinterId>)
    requires StrictlyAscending(a) && StrictlyAscending(b) && a != [] && b != []
    requires forall x :: x in a <==> x in b
    ensures a[0] == b[0] && forall x :: x in a[1..] <==> x in b[1..]
    ensures StrictlyAscending(a[1..]) && StrictlyAscending(b[1..])
  {
    HeadIsLeast(a);
    HeadIsLeast(b);
    hide StrictlyAscending;
    assert a[0] in a && b[0] in b;
  }

  lemma {:induction false} AscendingSteps(s: seq<PrinterId>, i: nat)
    requires Ascending(s) && i + 1 < |s|
    ensures s[i] <= s[i + 1]
  {
    if i > 0 {
      AscendingSteps(s[1..], i - 1);
    } else {
      assert s[1..][0] == s[1] && s[1] in s[1..];
    }
  }

  ghost predicate NoRepeats(ids: seq<PrinterId>) {
    forall p :: multiset(ids)[p] <= 1
  }

  // canonicalPrinterIDs.
  method CanonicalPrinterIds(ids: seq<PrinterId>) returns (c: Canonical)
    ensures c.Canonical? <==> 1 <= |ids| <= 20 && 0 !in ids && NoRepeats(ids)
    ensures c.Canonical? ==> StrictlyAscending(c.ids) && multiset(c.ids) == multiset(ids) && c.ids == SortIds(ids)
    ensures c.Rejected? && c.problem.DuplicateId? ==>
              multiset(ids)[c.problem.id] > 1 && forall p | p < c.problem.id :: multiset(ids)[p] <= 1
    ensures c == Rejected(WrongCount) <==> |ids| == 0 || |ids| > 20
    ensures c == Rejected(EmptyId) <==> 1 <= |ids| <= 20 && 0 in ids
  {
    if |ids| == 0 || |ids| > MaxPrinters {
      return Rejected(WrongCount);
    }
    hide SortIds, Ascending, StrictlyAscending, NoRepeats;
    var out := SortIds(ids);
    SortSorts(ids);
    var problem, at := FirstProblem(out);
    if problem == Some(EmptyId) {
      Member(out, at, ids);
      return Rejected(EmptyId);
    }
    NoneEmpty(ids, out);
    if problem.Some? {
      TwiceInMultiset(out, at - 1, at, ids);
      OnceBefore(out, at - 1, ids);
      return Rejected(problem.value);
    }
    OnceInMultiset(out, ids);
    return Canonical(out);
  }

  // The loop over the sorted list: what is wrong first, and where.
  method FirstProblem(out: seq<PrinterId>) returns (problem: Option<Problem>, at: nat)
    requires Ascending(out) && out != []
    ensures problem.None? ==> StrictlyAscending(out) && out[0] != 0
    ensures problem.Some? ==> at < |out| && (at > 0 ==> StrictlyAscending(out[..at]))
    ensures problem.Some? ==>
              if out[0] == 0 then problem.value == EmptyId && at == 0
              else at > 0 && out[at] == out[at - 1] && problem.value == DuplicateId(out[at])
  {
    hide Ascending, StrictlyAscending;
    for i := 0 to |out|
      invariant i > 0 ==> out[0] != 0
      invariant forall j | 0 <= j < i - 1 :: out[j] < out[j + 1]
    {
      if i > 0 {
        AscendingSteps(out, i - 1);
      }
      if out[i] == 0 {
        LeastIsFirst(out, i);
        return Some(EmptyId), i;
      }
      if i > 0 && out[i] == out[i - 1] {
        StepsAscend(out[..i]);
        return Some(DuplicateId(out[i])), i;
      }
    }
    StepsAscend(out);
    return None, 0;
  }

  lemma {:induction false} LeastIsFirst(out: seq<PrinterId>, i: nat)
    requires Ascending(out) && i < |out|
    ensures out[0] <= out[i]
  {
    if i > 0 {
      assert out[1..][i - 1] == out[i] && out[i] in out[1..];
    }
  }

  lemma Member(out: seq<PrinterId>, i: nat, ids: seq<PrinterId>)
    requires i < |out| && multiset(out) == multiset(ids)
    ensures out[i] in ids
  {
    assert out[i] in multiset(ids);
  }

  lemma NoneEmpty(ids: seq<PrinterId>, out: seq<PrinterId>)
    requires Ascending(out) && multiset(out) == multiset(ids) && out != [] && out[0] != 0
    ensures 0 !in ids
  {
    forall p | p in ids ensures p != 0 {
      assert p in multiset(out);
      assert p == out[0] || p in out[1..];
    }
  }

  lemma TwiceInMultiset(s: seq<PrinterId>, i: nat, j: nat, ids: seq<PrinterId>)
    requires i < j < |s| && s[i] == s[j] && multiset(s) == multiset(ids)
    ensures multiset(ids)[s[i]] > 1 && !NoRepeats(ids)
  {
    assert s == s[..j] + [s[j]] + s[j + 1..];
    assert s[..j][i] in s[..j];
    assert multiset(ids)[s[i]] > 1;
  }

  // No id less than the one at position i stands in the sorted list twice.
  lemma OnceBefore(s: seq<PrinterId>, i: nat, ids: seq<PrinterId>)
    requires Ascending(s) && i < |s| && StrictlyAscending(s[..i + 1]) && multiset(s) == multiset(ids)
    ensures forall p | p < s[i] :: multiset(ids)[p] <= 1
  {
    StrictIsOnce(s[..i + 1]);
    assert s == s[..i + 1] + s[i + 1..];
    forall j | i < j < |s| ensures s[i] <= s[j] {
      Ascends(s, i, j);
    }
    var rest := s[i + 1..];
    assert forall p | p in rest :: s[i] <= p;
    hide Ascending, StrictlyAscending;
    forall p | p < s[i] ensures multiset(ids)[p] <= 1 {
      assert p !in multiset(rest);
    }
  }

  lemma {:induction false} Ascends(s: seq<PrinterId>, i: nat, j: nat)
    requires Ascending(s) && i <= j < |s|
    ensures s[i] <= s[j]
  {
    if i == 0 {
      LeastIsFirst(s, j);
    } else {
      Ascends(s[1..], i - 1, j - 1);
    }
  }

  lemma {:induction false} StepsAscend(s: seq<PrinterId>)
    requires forall j | 0 <= j < |s| - 1 :: s[j] < s[j + 1]
    ensures StrictlyAscending(s)
  {
    if s != [] {
      var n := |s| - 1;
      StepsAscend(s[..n]);
      forall i | 0 <= i < n ensures s[i] < s[n] {
        assert i < n - 1 ==> s[..n][i] < s[..n][n - 1];
      }
      assert forall i, j | 0 <= i < j < n :: s[..n][i] < s[..n][j];
    }
  }

  lemma OnceInMultiset(s: seq<PrinterId>, ids: seq<PrinterId>)
    requires StrictlyAscending(s) && multiset(s) == multiset(ids)
    ensures NoRepeats(ids)
  {
    StrictIsOnce(s);
  }

  lemma {:induction false} StrictIsOnce(s: seq<PrinterId>)
    requires StrictlyAscending(s)
    ensures NoRepeats(s)
  {
    if s != [] {
      var n := |s| - 1;
      StrictIsOnce(s[..n]);
      assert s == s[..n] + [s[n]];
      assert s[n] !in s[..n];
    }
  }

  // Requests that name the same printers in another order have the same canonical list.
  lemma OrderIsIrrelevant(a: seq<PrinterId>, b: seq<PrinterId>)
    requires StrictlyAscending(SortIds(a)) && StrictlyAscending(SortIds(b))
    ensures SortIds(a) == SortIds(b) <==> forall p :: p in a <==> p in b
  {
    SortedMembers(a);
    SortedMembers(b);
    hide StrictlyAscending, SortIds;
    if forall p :: p in a <==> p in b {
      AscendingUnique(SortIds(a), SortIds(b));
    }
  }

  lemma SortedMembers(s: seq<PrinterId>)
    ensures forall p :: p in SortIds(s) <==> p in s
  {
    SortSorts(s);
    hide SortIds, Ascending;
    forall p ensures p in SortIds(s) <==> p in s {
      assert p in multiset(SortIds(s)) <==> p in multiset(s);
    }
  }
}
