/** The three list operations the store is built from, generic in the record
    type and in the string key a record is matched on (its owner for the
    tenant partition, its id for lookups and deletion):
    `xs.filter(x => f(x) === k)`, `xs.filter(x => f(x) !== k)` and
    `xs.find(x => f(x) === k)`. */
module Selection {
  import opened Wrappers

  /** Every element has key `k`. */
  predicate AllMatch<T>(xs: seq<T>, f: T -> string, k: string) {
    forall i :: 0 <= i < |xs| ==> f(xs[i]) == k
  }

  /** No element has key `k`. */
  predicate NoneMatch<T>(xs: seq<T>, f: T -> string, k: string) {
    forall i :: 0 <= i < |xs| ==> f(xs[i]) != k
  }

  /** The elements with key `k`, in their original order. */
  function Select<T(==)>(xs: seq<T>, f: T -> string, k: string): (r: seq<T>)
    ensures AllMatch(r, f, k)
    ensures forall j :: 0 <= j < |r| ==> r[j] in xs
    ensures forall i :: 0 <= i < |xs| && f(xs[i]) == k ==> xs[i] in r
    ensures |r| <= |xs|
  {
    if xs == [] then []
    else (if f(xs[0]) == k then [xs[0]] else []) + Select(xs[1..], f, k)
  }

  /** The elements whose key is not `k`, in their original order. */
  function Reject<T(==)>(xs: seq<T>, f: T -> string, k: string): (r: seq<T>)
    ensures NoneMatch(r, f, k)
    ensures forall j :: 0 <= j < |r| ==> r[j] in xs
    ensures forall i :: 0 <= i < |xs| && f(xs[i]) != k ==> xs[i] in r
    ensures |r| <= |xs|
  {
    if xs == [] then []
    else (if f(xs[0]) != k then [xs[0]] else []) + Reject(xs[1..], f, k)
  }

  /** The first element with key `k`, if any. */
  function FindFirst<T(==)>(xs: seq<T>, f: T -> string, k: string): (r: Option<T>)
    ensures r.None? <==> NoneMatch(xs, f, k)
    ensures r.Some? ==> exists i :: 0 <= i < |xs| && xs[i] == r.value && f(xs[i]) == k && NoneMatch(xs[..i], f, k)
  {
    if xs == [] then None
    else if f(xs[0]) == k then Some(xs[0])
    else
      var r := FindFirst(xs[1..], f, k);
      assert r.Some? ==> exists i :: 0 <= i < |xs[1..]| && xs[1..][i] == r.value && f(xs[1..][i]) == k && NoneMatch(xs[1..][..i], f, k);
      if r.Some? then
        var i :| 0 <= i < |xs[1..]| && xs[1..][i] == r.value && f(xs[1..][i]) == k && NoneMatch(xs[1..][..i], f, k);
        assert xs[..i + 1] == [xs[0]] + xs[1..][..i];
        r
      else r
  }

  /** Merge-by-replacement: drop every stored record of tenant `k` and append
      the tenant's current collection `mine` after the other tenants' records. */
  function Merge<T(==)>(stored: seq<T>, f: T -> string, k: string, mine: seq<T>): (r: seq<T>)
    ensures |r| >= |mine| && r[|r| - |mine|..] == mine
    ensures NoneMatch(r[..|r| - |mine|], f, k)
  {
    var others := Reject(stored, f, k);
    assert (others + mine)[..|others|] == others;
    others + mine
  }

  /** Filtering distributes over concatenation. */
  lemma {:induction false} SelectAppend<T>(a: seq<T>, b: seq<T>, f: T -> string, k: string)
    ensures Select(a + b, f, k) == Select(a, f, k) + Select(b, f, k)
  {
    if a == [] {
      assert a + b == b;
    } else {
      assert (a + b)[0] == a[0];
      assert (a + b)[1..] == a[1..] + b;
      SelectAppend(a[1..], b, f, k);
    }
  }

  lemma {:induction false} RejectAppend<T>(a: seq<T>, b: seq<T>, f: T -> string, k: string)
    ensures Reject(a + b, f, k) == Reject(a, f, k) + Reject(b, f, k)
  {
    if a == [] {
      assert a + b == b;
    } else {
      assert (a + b)[0] == a[0];
      assert (a + b)[1..] == a[1..] + b;
      RejectAppend(a[1..], b, f, k);
    }
  }

  lemma AllMatchOne<T>(x: T, f: T -> string, k: string)
    ensures AllMatch([x], f, k) <==> f(x) == k
  {
    assert [x][0] == x;
  }

  /** Selecting keeps the whole sequence exactly when every element matches. */
  lemma {:induction false} SelectAllIff<T>(xs: seq<T>, f: T -> string, k: string)
    ensures Select(xs, f, k) == xs <==> AllMatch(xs, f, k)
  {
    if xs != [] {
      SelectAllIff(xs[1..], f, k);
      if f(xs[0]) != k {
        assert |Select(xs, f, k)| < |xs|;
      }
    }
  }

  /** Rejecting keeps the whole sequence exactly when no element matches. */
  lemma {:induction false} RejectNoneIff<T>(xs: seq<T>, f: T -> string, k: string)
    ensures Reject(xs, f, k) == xs <==> NoneMatch(xs, f, k)
  {
    if xs != [] {
      RejectNoneIff(xs[1..], f, k);
      if f(xs[0]) == k {
        assert |Reject(xs, f, k)| < |xs|;
      }
    }
  }

  /** Rejecting removes everything exactly when every element matches. */
  lemma RejectEmptyIff<T>(xs: seq<T>, f: T -> string, k: string)
    ensures Reject(xs, f, k) == [] <==> AllMatch(xs, f, k)
  {
    var r := Reject(xs, f, k);
    if !AllMatch(xs, f, k) {
      var i :| 0 <= i < |xs| && f(xs[i]) != k;
      assert xs[i] in r;
    }
  }

  /** Selecting finds nothing exactly when no element matches. */
  lemma SelectEmptyIff<T>(xs: seq<T>, f: T -> string, k: string)
    ensures Select(xs, f, k) == [] <==> NoneMatch(xs, f, k)
  {
    var r := Select(xs, f, k);
    if r != [] {
      assert r[0] in xs;
    }
    if !NoneMatch(xs, f, k) {
      var i :| 0 <= i < |xs| && f(xs[i]) == k;
      assert xs[i] in r;
    }
  }

  /** Rejecting one key keeps, for every other key, exactly the records with
      that key: the partition of a different tenant is untouched. */
  lemma {:induction false} SelectOfReject<T>(xs: seq<T>, f: T -> string, k: string, k': string)
    ensures k' != k ==> Select(Reject(xs, f, k), f, k') == Select(xs, f, k')
    ensures Select(Reject(xs, f, k), f, k) == []
  {
    if xs != [] {
      SelectOfReject(xs[1..], f, k, k');
      var head := if f(xs[0]) != k then [xs[0]] else [];
      SelectAppend(head, Reject(xs[1..], f, k), f, k');
      SelectAppend(head, Reject(xs[1..], f, k), f, k);
    }
  }

  /** Rejecting twice rejects once. */
  lemma {:induction false} RejectIdempotent<T>(xs: seq<T>, f: T -> string, k: string)
    ensures Reject(Reject(xs, f, k), f, k) == Reject(xs, f, k)
  {
    if xs != [] {
      RejectIdempotent(xs[1..], f, k);
      var head := if f(xs[0]) != k then [xs[0]] else [];
      RejectAppend(head, Reject(xs[1..], f, k), f, k);
    }
  }

  /** After a merge, tenant `k`'s part is exactly its own records of `mine`. */
  lemma MergeOwnPart<T>(stored: seq<T>, f: T -> string, k: string, mine: seq<T>)
    ensures Select(Merge(stored, f, k, mine), f, k) == Select(mine, f, k)
  {
    SelectAppend(Reject(stored, f, k), mine, f, k);
    SelectOfReject(stored, f, k, k);
  }

  /** Tenant isolation of a merge: any other tenant's part is its stored part
      followed by whatever records of it `mine` carried. */
  lemma MergeOtherPart<T>(stored: seq<T>, f: T -> string, k: string, mine: seq<T>, k': string)
    requires k' != k
    ensures Select(Merge(stored, f, k, mine), f, k') == Select(stored, f, k') + Select(mine, f, k')
  {
    SelectAppend(Reject(stored, f, k), mine, f, k');
    SelectOfReject(stored, f, k, k');
  }

  /** Merging the same collection twice gives the same list as merging it
      once exactly when every record of the collection belongs to `k`. */
  lemma MergeTwiceIff<T>(stored: seq<T>, f: T -> string, k: string, mine: seq<T>)
    ensures Merge(Merge(stored, f, k, mine), f, k, mine) == Merge(stored, f, k, mine) <==> AllMatch(mine, f, k)
  {
    var others := Reject(stored, f, k);
    RejectAppend(others, mine, f, k);
    RejectIdempotent(stored, f, k);
    RejectEmptyIff(mine, f, k);
    assert Merge(Merge(stored, f, k, mine), f, k, mine) == others + Reject(mine, f, k) + mine;
    if Merge(Merge(stored, f, k, mine), f, k, mine) == Merge(stored, f, k, mine) {
      assert |Reject(mine, f, k)| == 0;
    }
  }

  /** Records without key `k` in front do not change which record is found. */
  lemma {:induction false} FindFirstSkip<T>(a: seq<T>, b: seq<T>, f: T -> string, k: string)
    requires NoneMatch(a, f, k)
    ensures FindFirst(a + b, f, k) == FindFirst(b, f, k)
  {
    if a == [] {
      assert a + b == b;
    } else {
      assert (a + b)[0] == a[0];
      assert (a + b)[1..] == a[1..] + b;
      FindFirstSkip(a[1..], b, f, k);
    }
  }

  /** The reference reading of `find`: the element at the first index whose
      key is `k`. */
  lemma {:induction false} FindFirstAt<T>(xs: seq<T>, f: T -> string, k: string, i: nat)
    requires i < |xs| && f(xs[i]) == k && NoneMatch(xs[..i], f, k)
    ensures FindFirst(xs, f, k) == Some(xs[i])
  {
    if i > 0 {
      assert xs[0] == xs[..i][0];
      assert xs[1..][..i - 1] == xs[..i][1..];
      FindFirstAt(xs[1..], f, k, i - 1);
    }
  }

  /** After a merge, looking tenant `k` up finds its first record in `mine`. */
  lemma MergeFindFirst<T>(stored: seq<T>, f: T -> string, k: string, mine: seq<T>)
    ensures FindFirst(Merge(stored, f, k, mine), f, k) == FindFirst(mine, f, k)
  {
    FindFirstSkip(Reject(stored, f, k), mine, f, k);
  }
}
