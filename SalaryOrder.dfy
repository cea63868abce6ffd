/**
 * Sorting employees by parsed salary, highest first, keeping the input order
 * among equal salaries: what `sorted(comparator)` does on an ordered stream.
 */
module SalaryOrder {
  import opened Model

  /** An employee together with the salary parsed from its record. */
  datatype Earner = Earner(salary: int, employee: Employee)

  predicate NonIncreasing(s: seq<Earner>) {
    forall i, j :: 0 <= i < j < |s| ==> s[i].salary >= s[j].salary
  }

  /** The elements of `s` that earn exactly `v`, in the order of `s`. */
  function WithSalary(s: seq<Earner>, v: int): (r: seq<Earner>)
    ensures |r| <= |s|
    ensures forall i :: 0 <= i < |r| ==> r[i].salary == v
  {
    if s == [] then [] else (if s[0].salary == v then [s[0]] else []) + WithSalary(s[1..], v)
  }

  /** Every element of a salary group comes from the sequence it was taken from. */
  lemma {:induction false} WithSalaryMember(s: seq<Earner>, v: int, e: Earner)
    requires e in WithSalary(s, v)
    ensures e in s && e.salary == v
  {
    if s[0] != e {
      WithSalaryMember(s[1..], v, e);
    }
  }

  /**
   * `r` is a stable descending sort of `s`: salaries never increase along `r`,
   * and for every salary the employees earning it appear in `r` exactly as in `s`.
   */
  ghost predicate StablySortedFrom(r: seq<Earner>, s: seq<Earner>) {
    NonIncreasing(r) && forall v :: WithSalary(r, v) == WithSalary(s, v)
  }

  /** Places `x` in sorted `s` after the elements earning more than `x`, before the others. */
  function Insert(x: Earner, s: seq<Earner>): (r: seq<Earner>)
    ensures |r| == |s| + 1
    ensures multiset(r) == multiset{x} + multiset(s)
    ensures r[0] == x || (|s| > 0 && r[0] == s[0])
  {
    if s == [] || s[0].salary <= x.salary then [x] + s
    else
      assert s == [s[0]] + s[1..];
      [s[0]] + Insert(x, s[1..])
  }

  lemma {:induction false} InsertKeepsOrder(x: Earner, s: seq<Earner>)
    requires NonIncreasing(s)
    ensures NonIncreasing(Insert(x, s))
  {
    if s != [] && s[0].salary > x.salary {
      var r := Insert(x, s[1..]);
      InsertKeepsOrder(x, s[1..]);
      assert Insert(x, s) == [s[0]] + r;
      assert forall j :: 0 <= j < |r| ==> r[j].salary <= r[0].salary;
    }
  }

  /**
   * Insertion sort from the back: each element goes in front of the sorted rest,
   * after those earning more and before those earning the same or less.
   */
  function Sort(s: seq<Earner>): (r: seq<Earner>)
    ensures |r| == |s|
    ensures multiset(r) == multiset(s)
    ensures NonIncreasing(r)
  {
    if s == [] then []
    else
      assert s == [s[0]] + s[1..];
      InsertKeepsOrder(s[0], Sort(s[1..]));
      Insert(s[0], Sort(s[1..]))
  }

  lemma {:induction false} WithSalaryConcat(a: seq<Earner>, b: seq<Earner>, v: int)
    ensures WithSalary(a + b, v) == WithSalary(a, v) + WithSalary(b, v)
  {
    if a != [] {
      var head := if a[0].salary == v then [a[0]] else [];
      assert (a + b)[0] == a[0] && (a + b)[1..] == a[1..] + b;
      calc {
        WithSalary(a + b, v);
        head + WithSalary(a[1..] + b, v);
        { WithSalaryConcat(a[1..], b, v); }
        head + (WithSalary(a[1..], v) + WithSalary(b, v));
        (head + WithSalary(a[1..], v)) + WithSalary(b, v);
        WithSalary(a, v) + WithSalary(b, v);
      }
    } else {
      assert a + b == b;
    }
  }

  /** Inserting `x` puts it before the others of its salary and changes no other salary's group. */
  lemma {:induction false} WithSalaryInsert(x: Earner, s: seq<Earner>, v: int)
    ensures WithSalary(Insert(x, s), v) == (if x.salary == v then [x] else []) + WithSalary(s, v)
  {
    var r := Insert(x, s);
    if s == [] || s[0].salary <= x.salary {
      assert r == [x] + s;
      assert r[0] == x && r[1..] == s;
    } else {
      var rest := Insert(x, s[1..]);
      assert r == [s[0]] + rest;
      assert r[0] == s[0] && r[1..] == rest;
      WithSalaryInsert(x, s[1..], v);
      if s[0].salary == v {
        assert WithSalary(r, v) == [s[0]] + WithSalary(rest, v);
      } else {
        assert WithSalary(r, v) == WithSalary(rest, v);
      }
    }
  }

  /** Sort keeps, for every salary, the input order of the employees earning it. */
  lemma {:induction false} SortIsStable(s: seq<Earner>, v: int)
    ensures WithSalary(Sort(s), v) == WithSalary(s, v)
  {
    if s != [] {
      WithSalaryInsert(s[0], Sort(s[1..]), v);
      SortIsStable(s[1..], v);
    }
  }

  lemma SortIsStableSort(s: seq<Earner>)
    ensures StablySortedFrom(Sort(s), s)
  {
    forall v ensures WithSalary(Sort(s), v) == WithSalary(s, v) {
      SortIsStable(s, v);
    }
  }

  /**
   * A stable descending order is unique: two sequences that are both stably
   * sorted from the same input are equal, so any stable sort (Java's TimSort
   * included) yields exactly `Sort(s)`.
   */
  lemma {:induction false} StableSortIsUnique(a: seq<Earner>, b: seq<Earner>)
    requires NonIncreasing(a) && NonIncreasing(b)
    requires forall v :: WithSalary(a, v) == WithSalary(b, v)
    ensures a == b
  {
    if a == [] {
      if b != [] {
        HeadGroup(b);
      }
    } else if b == [] {
      HeadGroup(a);
    } else {
      SameHead(a, b);
      forall v ensures WithSalary(a[1..], v) == WithSalary(b[1..], v) {
        SameHeadSameTailGroup(a, b, v);
      }
      StableSortIsUnique(a[1..], b[1..]);
      assert a == [a[0]] + a[1..] && b == [b[0]] + b[1..];
    }
  }

  /** Both start with the first employee of the top salary's group. */
  lemma SameHead(a: seq<Earner>, b: seq<Earner>)
    requires a != [] && b != [] && NonIncreasing(a) && NonIncreasing(b)
    requires forall v :: WithSalary(a, v) == WithSalary(b, v)
    ensures a[0] == b[0]
  {
    var m, n := a[0].salary, b[0].salary;
    var ga, gb := WithSalary(a, m), WithSalary(b, n);
    assert ga == [a[0]] + WithSalary(a[1..], m);
    assert gb == [b[0]] + WithSalary(b[1..], n);
    assert WithSalary(b, m) == ga;
    assert ga[0] in WithSalary(b, m);
    WithSalaryMember(b, m, ga[0]);
    HeadBound(b, ga[0]);
    assert WithSalary(a, n) == gb;
    assert gb[0] in WithSalary(a, n);
    WithSalaryMember(a, n, gb[0]);
    HeadBound(a, gb[0]);
    assert m == n;
  }

  /** Equal groups with equal heads leave equal groups once the heads are dropped. */
  lemma SameHeadSameTailGroup(a: seq<Earner>, b: seq<Earner>, v: int)
    requires a != [] && b != [] && a[0] == b[0]
    requires WithSalary(a, v) == WithSalary(b, v)
    ensures WithSalary(a[1..], v) == WithSalary(b[1..], v)
  {
    var ta, tb := WithSalary(a[1..], v), WithSalary(b[1..], v);
    if a[0].salary == v {
      assert WithSalary(a, v) == [a[0]] + ta;
      assert WithSalary(b, v) == [a[0]] + tb;
      assert ([a[0]] + ta)[1..] == ta;
      assert ([a[0]] + tb)[1..] == tb;
    } else {
      assert [] + ta == ta && [] + tb == tb;
      assert WithSalary(a, v) == ta;
      assert WithSalary(b, v) == tb;
    }
  }

  lemma HeadGroup(s: seq<Earner>)
    requires s != []
    ensures WithSalary(s, s[0].salary) != []
  {
  }

  /** In a non-increasing sequence the head earns at least as much as any element. */
  lemma HeadBound(s: seq<Earner>, e: Earner)
    requires NonIncreasing(s) && e in s
    ensures s[0].salary >= e.salary
  {
    var i :| 0 <= i < |s| && s[i] == e;
  }

  /** The stable descending sort is the only one: whatever satisfies the definition equals `Sort`. */
  lemma StablySortedIsSort(r: seq<Earner>, s: seq<Earner>)
    requires StablySortedFrom(r, s)
    ensures r == Sort(s)
  {
    SortIsStableSort(s);
    StableSortIsUnique(r, Sort(s));
  }

  /** A prefix of the sorted sequence holds, per salary, the first of its input group, in input order. */
  lemma PrefixKeepsGroupOrder(s: seq<Earner>, k: nat)
    requires k <= |s|
    ensures forall v :: WithSalary(Sort(s)[..k], v) <= WithSalary(s, v)
  {
    var sorted := Sort(s);
    assert sorted == sorted[..k] + sorted[k..];
    forall v ensures WithSalary(sorted[..k], v) <= WithSalary(s, v) {
      SortIsStable(s, v);
      WithSalaryConcat(sorted[..k], sorted[k..], v);
    }
  }

  /** Cutting a non-increasing sequence leaves no element of the second part above one of the first. */
  lemma SplitNonIncreasing(r: seq<Earner>, k: nat)
    requires NonIncreasing(r) && k <= |r|
    ensures multiset(r[..k]) + multiset(r[k..]) == multiset(r)
    ensures forall e, left :: e in r[..k] && left in r[k..] ==> left.salary <= e.salary
  {
    assert r == r[..k] + r[k..];
    forall e, left | e in r[..k] && left in r[k..]
      ensures left.salary <= e.salary
    {
      var i :| 0 <= i < k && r[..k][i] == e;
      var j :| 0 <= j < |r| - k && r[k..][j] == left;
      assert r[i] == e && r[k + j] == left;
    }
  }

  /**
   * Cutting the sorted sequence at `k` splits the input in two: everyone in the
   * first part earns at least as much as everyone in the second.
   */
  lemma PrefixIsTop(s: seq<Earner>, k: nat)
    requires k <= |s|
    ensures multiset(Sort(s)[..k]) + multiset(Sort(s)[k..]) == multiset(s)
    ensures forall e, left :: e in Sort(s)[..k] && left in Sort(s)[k..] ==> left.salary <= e.salary
  {
    SplitNonIncreasing(Sort(s), k);
  }
}
