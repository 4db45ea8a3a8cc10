/** Choosing a session for a request: collect the eligible ones, sort them by load
    and id, take the first that has capacity (cargo/src/hub.rs). */
module Routing {

  /** A candidate as collected: its load and id, whether it has a free stream and
      a free id, and how its command queue answers the reservation. */
  datatype Queue = HasRoom | Full | Lost

  datatype Candidate = Candidate(load: nat, id: string, open: bool, queue: Queue)

  datatype Route = Chosen(candidate: Candidate) | AllBusy | Nobody

  // ---- The order ----------------------------------------------------------------

  /** Byte order of strings. */
  predicate StringLess(a: string, b: string) {
    if b == [] then false
    else if a == [] then true
    else a[0] < b[0] || (a[0] == b[0] && StringLess(a[1..], b[1..]))
  }

  /** `a` is a strict prefix of `b`, or has the smaller character where they first
      differ. */
  predicate Precedes(a: string, b: string) {
    exists n :: 0 <= n <= |a| && n <= |b| && a[..n] == b[..n] && SmallerAt(a, b, n)
  }

  predicate SmallerAt(a: string, b: string, n: nat)
    requires n <= |a| && n <= |b|
  {
    n < |b| && (n == |a| || a[n] < b[n])
  }

  lemma {:induction false} StringLessIs(a: string, b: string)
    ensures StringLess(a, b) <==> Precedes(a, b)
  {
    if a != [] && b != [] && a[0] == b[0] {
      StringLessIs(a[1..], b[1..]);
      PrecedesBehind(a, b);
    } else {
      assert a[..0] == b[..0] && (SmallerAt(a, b, 0) <==> StringLess(a, b));
      forall n | 0 < n <= |a| && n <= |b| ensures a[..n] != b[..n] {
        assert a[..n][0] == a[0] && b[..n][0] == b[0];
      }
    }
  }

  /** A first character in common decides nothing. */
  lemma PrecedesBehind(a: string, b: string)
    requires a != [] && b != [] && a[0] == b[0]
    ensures Precedes(a, b) <==> Precedes(a[1..], b[1..])
  {
    if n :| 0 <= n <= |a| && n <= |b| && a[..n] == b[..n] && SmallerAt(a, b, n) {
      assert n > 0;
      assert a[1..][..n - 1] == a[..n][1..] && b[1..][..n - 1] == b[..n][1..];
      assert SmallerAt(a[1..], b[1..], n - 1);
    }
    if n :| 0 <= n <= |a[1..]| && n <= |b[1..]| && a[1..][..n] == b[1..][..n] && SmallerAt(a[1..], b[1..], n) {
      assert a[..n + 1] == [a[0]] + a[1..][..n] && b[..n + 1] == [b[0]] + b[1..][..n];
      assert SmallerAt(a, b, n + 1);
    }
  }

  predicate Before(a: Candidate, b: Candidate) {
    a.load < b.load || (a.load == b.load && StringLess(a.id, b.id))
  }

  lemma {:induction false} StringTotal(a: string, b: string)
    ensures StringLess(a, b) || StringLess(b, a) || a == b
    ensures !(StringLess(a, b) && StringLess(b, a)) && !StringLess(a, a)
  {
    if a != [] && b != [] {
      StringTotal(a[1..], b[1..]);
      assert a == [a[0]] + a[1..] && b == [b[0]] + b[1..];
    }
    if a != [] {
      StringTotal(a[1..], a[1..]);
    }
  }

  lemma {:induction false} StringTransitive(a: string, b: string, c: string)
    requires StringLess(a, b) && StringLess(b, c)
    ensures StringLess(a, c)
  {
    if a != [] && a[0] == b[0] == c[0] {
      StringTransitive(a[1..], b[1..], c[1..]);
    }
  }

  // ---- Sorting --------------------------------------------------------------------

  /** The list with `c` placed in front of the first candidate it precedes. */
  function Insert(c: Candidate, sorted: seq<Candidate>): (r: seq<Candidate>)
    ensures multiset(r) == multiset(sorted) + multiset{c}
  {
    if sorted == [] then [c]
    else if Before(c, sorted[0]) then [c] + sorted
    else
      assert sorted == [sorted[0]] + sorted[1..];
      [sorted[0]] + Insert(c, sorted[1..])
  }

  /** `sort_by` on load and id. */
  function Sort(cs: seq<Candidate>): (r: seq<Candidate>)
    ensures multiset(r) == multiset(cs)
  {
    if cs == [] then []
    else
      assert cs == [cs[0]] + cs[1..];
      Insert(cs[0], Sort(cs[1..]))
  }

  /** No candidate stands behind one it precedes. */
  predicate Sorted(cs: seq<Candidate>) {
    forall i, j :: 0 <= i < j < |cs| ==> !Before(cs[j], cs[i])
  }

  lemma NotBeforeTransitive(a: Candidate, b: Candidate, c: Candidate)
    requires !Before(b, a) && !Before(c, b)
    ensures !Before(c, a)
  {
    StringTotal(a.id, b.id);
    StringTotal(b.id, c.id);
    if StringLess(c.id, a.id) {
      if StringLess(a.id, b.id) {
        StringTransitive(c.id, a.id, b.id);
      }
    }
  }

  lemma {:induction false} InsertSorts(c: Candidate, sorted: seq<Candidate>)
    requires Sorted(sorted)
    ensures Sorted(Insert(c, sorted))
  {
    if sorted != [] {
      var head, tail := sorted[0], sorted[1..];
      if Before(c, head) {
        StringTotal(c.id, head.id);
        forall j | 0 <= j < |sorted| ensures !Before(sorted[j], c) {
          if j > 0 {
            NotBeforeTransitive(c, head, sorted[j]);
          }
        }
      } else {
        InsertSorts(c, tail);
        var rest := Insert(c, tail);
        forall j | 0 <= j < |rest| ensures !Before(rest[j], head) {
          assert rest[j] in multiset(rest);
          if rest[j] != c {
            assert rest[j] in multiset(tail);
            assert rest[j] in tail;
          }
        }
      }
    }
  }

  lemma {:induction false} SortIsSorted(cs: seq<Candidate>)
    ensures Sorted(Sort(cs))
  {
    if cs != [] {
      SortIsSorted(cs[1..]);
      InsertSorts(cs[0], Sort(cs[1..]));
    }
  }

  /** Least load first, and among equals the id that comes first. */
  predicate LightestFirst(cs: seq<Candidate>) {
    forall i, j :: 0 <= i < j < |cs| ==>
      || cs[i].load < cs[j].load
      || (cs[i].load == cs[j].load && (cs[i].id == cs[j].id || Precedes(cs[i].id, cs[j].id)))
  }

  lemma SortSorts(cs: seq<Candidate>)
    ensures LightestFirst(Sort(cs)) && multiset(Sort(cs)) == multiset(cs)
  {
    SortIsSorted(cs);
    var sorted := Sort(cs);
    forall i, j | 0 <= i < j < |sorted|
      ensures sorted[i].load < sorted[j].load
        || (sorted[i].load == sorted[j].load
            && (sorted[i].id == sorted[j].id || Precedes(sorted[i].id, sorted[j].id)))
    {
      assert !Before(sorted[j], sorted[i]);
      StringTotal(sorted[i].id, sorted[j].id);
      StringLessIs(sorted[i].id, sorted[j].id);
    }
  }

  // ---- The scan --------------------------------------------------------------------

  predicate Usable(c: Candidate) {
    c.open && c.queue == HasRoom
  }

  /** Known to be connected but without capacity. */
  predicate Saturated(c: Candidate) {
    !c.open || c.queue == Full
  }

  method Select(cs: seq<Candidate>) returns (r: Route)
    requires forall i, j :: 0 <= i < j < |cs| ==> cs[i].id != cs[j].id
    ensures r.Chosen? ==>
      && r.candidate in cs && Usable(r.candidate)
      && forall c :: c in cs && Usable(c) && c != r.candidate ==>
           || r.candidate.load < c.load
           || (r.candidate.load == c.load && Precedes(r.candidate.id, c.id))
    ensures !r.Chosen? ==> forall c :: c in cs ==> !Usable(c)
    ensures !r.Chosen? ==> (r == AllBusy <==> exists c :: c in cs && Saturated(c))
    ensures r == Nobody ==> forall c :: c in cs ==> c.queue == Lost
  {
    var candidates := Sort(cs);
    SortIsSorted(cs);
    SameElements(cs, candidates);
    var busy := false;
    for i := 0 to |candidates|
      invariant forall j :: 0 <= j < i ==> !Usable(candidates[j])
      invariant busy <==> exists j :: 0 <= j < i && Saturated(candidates[j])
    {
      var c := candidates[i];
      if !c.open {
        busy := true;
        continue;
      }
      match c.queue
      case HasRoom =>
        LeastIsFirst(cs, candidates, i);
        return Chosen(c);
      case Full => busy := true;
      case Lost =>
    }
    forall c | c in cs ensures !Usable(c) && (Saturated(c) ==> busy) {
      var j :| 0 <= j < |candidates| && candidates[j] == c;
    }
    return if busy then AllBusy else Nobody;
  }

  lemma SameElements(cs: seq<Candidate>, sorted: seq<Candidate>)
    requires multiset(cs) == multiset(sorted)
    ensures forall c :: c in cs <==> c in sorted
  {
    forall c ensures c in cs <==> c in sorted {
      assert c in cs <==> c in multiset(cs);
      assert c in sorted <==> c in multiset(sorted);
    }
  }

  lemma LeastIsFirst(cs: seq<Candidate>, sorted: seq<Candidate>, i: nat)
    requires Sorted(sorted) && i < |sorted| && (forall c :: c in cs <==> c in sorted)
    requires forall j :: 0 <= j < i ==> !Usable(sorted[j])
    requires forall i, j :: 0 <= i < j < |cs| ==> cs[i].id != cs[j].id
    ensures forall c :: c in cs && Usable(c) && c != sorted[i] ==>
      sorted[i].load < c.load || (sorted[i].load == c.load && Precedes(sorted[i].id, c.id))
  {
    forall c | c in cs && Usable(c) && c != sorted[i]
      ensures sorted[i].load < c.load || (sorted[i].load == c.load && Precedes(sorted[i].id, c.id))
    {
      var j :| 0 <= j < |sorted| && sorted[j] == c;
      assert j > i && !Before(c, sorted[i]);
      assert sorted[i] in cs;
      StringTotal(c.id, sorted[i].id);
      StringLessIs(sorted[i].id, c.id);
    }
  }
}
