/** The list operations that the pages and data hooks apply to their record
    arrays: `filter`, `map` by id, spread-append, `find`, `[...new Set(...)]`
    and the `{...prev, ...next}` filter merge. Records are identified through a
    key function (their `id` field). */
module RecordList {
  import opened Wrappers

  /** `a` can be obtained from `b` by deleting elements: order is kept. */
  predicate IsSubsequence<T(==)>(a: seq<T>, b: seq<T>)
    decreases |b|
  {
    a == [] || (b != [] && ((a[0] == b[0] && IsSubsequence(a[1..], b[1..])) || IsSubsequence(a, b[1..])))
  }

  lemma {:induction false} SubsequenceRefl<T>(a: seq<T>)
    ensures IsSubsequence(a, a)
    decreases |a|
  {
    if a != [] { SubsequenceRefl(a[1..]); }
  }

  lemma {:induction false} SubsequenceLength<T>(a: seq<T>, b: seq<T>)
    requires IsSubsequence(a, b)
    ensures |a| <= |b|
    decreases |b|
  {
    if a != [] {
      if a[0] == b[0] && IsSubsequence(a[1..], b[1..]) {
        SubsequenceLength(a[1..], b[1..]);
      } else {
        SubsequenceLength(a, b[1..]);
      }
    }
  }

  lemma {:induction false} SubsequenceTrans<T>(a: seq<T>, b: seq<T>, c: seq<T>)
    requires IsSubsequence(a, b) && IsSubsequence(b, c)
    ensures IsSubsequence(a, c)
    decreases |c|
  {
    if a != [] {
      assert b != [] && c != [];
      if b[0] == c[0] && IsSubsequence(b[1..], c[1..]) {
        if a[0] == b[0] && IsSubsequence(a[1..], b[1..]) {
          SubsequenceTrans(a[1..], b[1..], c[1..]);
        } else {
          SubsequenceTrans(a, b[1..], c[1..]);
        }
      } else {
        SubsequenceTrans(a, b, c[1..]);
      }
    }
  }

  /** `s.filter(p)` */
  function Filter<T(!new)>(s: seq<T>, p: T -> bool): (r: seq<T>)
    ensures |r| <= |s|
    ensures forall x :: x in r <==> x in s && p(x)
    decreases |s|
  {
    if s == [] then []
    else if p(s[0]) then [s[0]] + Filter(s[1..], p)
    else Filter(s[1..], p)
  }

  /** The filtered list is an order-preserving subsequence of the input. */
  lemma {:induction false} FilterIsSubsequence<T(!new)>(s: seq<T>, p: T -> bool)
    ensures IsSubsequence(Filter(s, p), s)
    decreases |s|
  {
    if s != [] {
      FilterIsSubsequence(s[1..], p);
      if !p(s[0]) {
        var f := Filter(s[1..], p);
        if f != [] {
          assert !(f[0] == s[0]) || IsSubsequence(f, s[1..]);
        }
      }
    }
  }

  /** A predicate that holds of every element keeps the whole list. */
  lemma {:induction false} FilterKeepsAll<T(!new)>(s: seq<T>, p: T -> bool)
    requires forall x :: x in s ==> p(x)
    ensures Filter(s, p) == s
    decreases |s|
  {
    if s != [] {
      assert s == [s[0]] + s[1..];
      FilterKeepsAll(s[1..], p);
    }
  }

  /** A stricter predicate keeps a subsequence of what a weaker one keeps. */
  lemma {:induction false} FilterMonotone<T(!new)>(s: seq<T>, strict: T -> bool, weak: T -> bool)
    requires forall x :: x in s && strict(x) ==> weak(x)
    ensures IsSubsequence(Filter(s, strict), Filter(s, weak))
    decreases |s|
  {
    if s != [] {
      FilterMonotone(s[1..], strict, weak);
      var a, b := Filter(s[1..], strict), Filter(s[1..], weak);
      if strict(s[0]) {
        assert Filter(s, strict) == [s[0]] + a && Filter(s, weak) == [s[0]] + b;
        assert ([s[0]] + a)[1..] == a && ([s[0]] + b)[1..] == b;
      } else if weak(s[0]) {
        assert Filter(s, weak) == [s[0]] + b;
        assert ([s[0]] + b)[1..] == b;
        if a != [] {
          SubsequenceCons(a, b, s[0]);
        }
      }
    }
  }

  lemma SubsequenceCons<T>(a: seq<T>, b: seq<T>, x: T)
    requires IsSubsequence(a, b)
    ensures IsSubsequence(a, [x] + b)
  {
    assert ([x] + b)[1..] == b;
  }

  /** Filtering a list extended by one element extends the result by at most that element. */
  lemma {:induction false} FilterSnoc<T(!new)>(s: seq<T>, x: T, p: T -> bool)
    ensures Filter(s + [x], p) == Filter(s, p) + (if p(x) then [x] else [])
    decreases |s|
  {
    if s == [] {
      assert [x][1..] == [];
    } else {
      assert (s + [x])[1..] == s[1..] + [x];
      FilterSnoc(s[1..], x, p);
    }
  }

  /** `s.map(f)` */
  function Map<T, U>(s: seq<T>, f: T -> U): (r: seq<U>)
    ensures |r| == |s|
    ensures forall i :: 0 <= i < |s| ==> r[i] == f(s[i])
    decreases |s|
  {
    if s == [] then [] else [f(s[0])] + Map(s[1..], f)
  }

  /** `s.map(x => key(x) === id ? f(x) : x)`: the records with that id become
      `f` of themselves, every other record and the order are unchanged. */
  function UpdateById<T>(s: seq<T>, key: T -> string, id: string, f: T -> T): (r: seq<T>)
    ensures |r| == |s|
    ensures forall i :: 0 <= i < |s| && key(s[i]) == id ==> r[i] == f(s[i])
    ensures forall i :: 0 <= i < |s| && key(s[i]) != id ==> r[i] == s[i]
    decreases |s|
  {
    if s == [] then []
    else [if key(s[0]) == id then f(s[0]) else s[0]] + UpdateById(s[1..], key, id, f)
  }

  /** `s.map(x => key(x) === id ? rec : x)` */
  function ReplaceById<T>(s: seq<T>, key: T -> string, id: string, rec: T): (r: seq<T>)
    ensures |r| == |s|
    ensures forall i :: 0 <= i < |s| && key(s[i]) == id ==> r[i] == rec
    ensures forall i :: 0 <= i < |s| && key(s[i]) != id ==> r[i] == s[i]
  {
    UpdateById(s, key, id, (_: T) => rec)
  }

  /** Replacing by an id nobody has changes nothing. */
  lemma ReplaceAbsentId<T>(s: seq<T>, key: T -> string, id: string, rec: T)
    requires forall x :: x in s ==> key(x) != id
    ensures ReplaceById(s, key, id, rec) == s
  {
    var r := ReplaceById(s, key, id, rec);
    assert forall i :: 0 <= i < |s| ==> r[i] == s[i] by {
      forall i | 0 <= i < |s| ensures r[i] == s[i] { assert s[i] in s; }
    }
  }

  /** Replacing twice with the same record by a record carrying that id is replacing once. */
  lemma ReplaceIdempotent<T>(s: seq<T>, key: T -> string, id: string, rec: T)
    requires key(rec) == id
    ensures ReplaceById(ReplaceById(s, key, id, rec), key, id, rec) == ReplaceById(s, key, id, rec)
  {
  }

  /** `s.filter(x => key(x) !== id)` */
  function RemoveById<T(!new)>(s: seq<T>, key: T -> string, id: string): (r: seq<T>)
    ensures forall x :: x in r ==> key(x) != id
    ensures forall x :: x in s && key(x) != id ==> x in r
    ensures forall x :: x in r ==> x in s
  {
    Filter(s, (x: T) => key(x) != id)
  }

  /** Removing keeps the other records in their order. */
  lemma RemoveKeepsOrder<T(!new)>(s: seq<T>, key: T -> string, id: string)
    ensures IsSubsequence(RemoveById(s, key, id), s)
  {
    FilterIsSubsequence(s, (x: T) => key(x) != id);
  }

  /** `[...s, x]` */
  function Append<T>(s: seq<T>, x: T): (r: seq<T>)
    ensures |r| == |s| + 1 && r[..|s|] == s && r[|s|] == x
  {
    s + [x]
  }

  /** `s.find(x => key(x) === id) || null`: the first record with that id. */
  function FindById<T>(s: seq<T>, key: T -> string, id: string): (r: Option<T>)
    ensures r.None? <==> forall i :: 0 <= i < |s| ==> key(s[i]) != id
    ensures r.Some? ==> exists i :: 0 <= i < |s| && s[i] == r.value && key(s[i]) == id &&
                          forall j :: 0 <= j < i ==> key(s[j]) != id
    decreases |s|
  {
    if s == [] then None
    else if key(s[0]) == id then Some(s[0])
    else
      var r := FindById(s[1..], key, id);
      assert r.Some? ==> exists i :: 0 <= i < |s| - 1 && s[1..][i] == r.value && key(s[1..][i]) == id &&
                          forall j :: 0 <= j < i ==> key(s[1..][j]) != id;
      assert r.Some? ==> exists i :: 1 <= i < |s| && s[i] == r.value && key(s[i]) == id &&
                          forall j :: 0 <= j < i ==> key(s[j]) != id by {
        if r.Some? {
          var i :| 0 <= i < |s| - 1 && s[1..][i] == r.value && key(s[1..][i]) == id &&
                   forall j :: 0 <= j < i ==> key(s[1..][j]) != id;
          assert forall j :: 0 <= j < i + 1 ==> key(s[j]) != id by {
            forall j | 0 <= j < i + 1 ensures key(s[j]) != id {
              if j > 0 { assert s[j] == s[1..][j - 1]; }
            }
          }
        }
      }
      r
  }

  /** One step of `find`: the head if it has the id, else the tail's answer. */
  lemma FindByIdStep<T>(s: seq<T>, key: T -> string, id: string)
    requires s != []
    ensures FindById(s, key, id) == if key(s[0]) == id then Some(s[0]) else FindById(s[1..], key, id)
  {
  }

  /** A record appended under a fresh id is what a lookup of that id finds. */
  lemma {:induction false} FindAppended<T>(s: seq<T>, key: T -> string, x: T)
    requires forall y :: y in s ==> key(y) != key(x)
    ensures FindById(Append(s, x), key, key(x)) == Some(x)
    decreases |s|
  {
    if s != [] {
      assert Append(s, x)[1..] == Append(s[1..], x);
      FindAppended(s[1..], key, x);
    }
  }

  /** After replacing the records with an id by a record carrying that id, a
      lookup of the id finds the new record whenever one was there. */
  lemma {:induction false} FindReplaced<T>(s: seq<T>, key: T -> string, id: string, rec: T)
    requires key(rec) == id
    requires exists y :: y in s && key(y) == id
    ensures FindById(ReplaceById(s, key, id, rec), key, id) == Some(rec)
    decreases |s|
  {
    var r := ReplaceById(s, key, id, rec);
    if key(s[0]) != id {
      assert r[1..] == ReplaceById(s[1..], key, id, rec);
      var y :| y in s && key(y) == id;
      assert y in s[1..];
      FindReplaced(s[1..], key, id, rec);
    }
  }

  /** No element occurs twice. */
  predicate NoDuplicates<T(==)>(s: seq<T>) {
    forall i, j :: 0 <= i < j < |s| ==> s[i] != s[j]
  }

  /** `[...new Set(s)]`: each distinct value once, in order of first occurrence. */
  function Distinct<T(==,!new)>(s: seq<T>): (r: seq<T>)
    ensures NoDuplicates(r)
    ensures forall x :: x in r <==> x in s
    ensures IsSubsequence(r, s)
    decreases |s|
  {
    if s == [] then []
    else
      var rest := Distinct(s[1..]);
      if s[0] in s[1..] then
        var d := RemoveValue(rest, s[0]);
        SubsequenceTrans(d, rest, s[1..]);
        assert ([s[0]] + d)[1..] == d;
        [s[0]] + d
      else
        assert ([s[0]] + rest)[1..] == rest;
        [s[0]] + rest
  }

  /** Dropping one value from a duplicate-free subsequence; helper of `Distinct`. */
  function RemoveValue<T(==,!new)>(s: seq<T>, v: T): (r: seq<T>)
    ensures NoDuplicates(s) ==> NoDuplicates(r)
    ensures forall x :: x in r <==> x in s && x != v
    ensures IsSubsequence(r, s)
    decreases |s|
  {
    if s == [] then []
    else if s[0] == v then
      var r := RemoveValue(s[1..], v);
      SubsequenceCons(r, s[1..], s[0]);
      assert [s[0]] + s[1..] == s;
      r
    else
      var r := RemoveValue(s[1..], v);
      assert ([s[0]] + r)[1..] == r;
      assert NoDuplicates(s) ==> s[0] !in s[1..];
      [s[0]] + r
  }

  /** `[...new Set(s.map(f))]`: each value of `f` over `s` once, in order of
      first occurrence. */
  function DistinctOf<T, U(==,!new)>(s: seq<T>, f: T -> U): (r: seq<U>)
    ensures NoDuplicates(r)
    ensures forall u :: u in r <==> exists i :: 0 <= i < |s| && f(s[i]) == u
  {
    var values := Map(s, f);
    assert forall u :: u in values <==> exists i :: 0 <= i < |s| && f(s[i]) == u by {
      forall u ensures u in values <==> exists i :: 0 <= i < |s| && f(s[i]) == u {
        if u in values {
          var i :| 0 <= i < |values| && values[i] == u;
        }
      }
    }
    Distinct(values)
  }

  /** `{...prev, ...next}`: keys of `next` take its values, all other keys keep theirs. */
  function MergeFilters<K, V>(prev: map<K, V>, next: map<K, V>): (r: map<K, V>)
    ensures r.Keys == prev.Keys + next.Keys
    ensures forall k :: k in next ==> r[k] == next[k]
    ensures forall k :: k in prev && k !in next ==> r[k] == prev[k]
  {
    prev + next
  }

  /** Merging in nothing is the identity, and merging the same object twice is merging it once. */
  lemma MergeIdentityAndIdempotence<K, V>(prev: map<K, V>, next: map<K, V>)
    ensures MergeFilters(prev, map[]) == prev
    ensures MergeFilters(MergeFilters(prev, next), next) == MergeFilters(prev, next)
  {
  }
}
