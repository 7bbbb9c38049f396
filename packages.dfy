/**
 * The saved-package list as a value: the `some` membership test and the
 * `filter` removal used by addPackage and removePackage (script.js), the
 * newest-first insertion, and the "one record per number" invariant.
 */
module Packages {
  import opened Wrappers

  /** A tracked shipment as stored: its tracking number (the key), its last
      known status label and, for fetched records, the last update time. */
  datatype Package = Package(number: string, status: string, lastUpdate: Option<string>)

  /** At most one record per tracking number: equivalently, no record's
      number occurs again further down the list. */
  predicate Unique(ps: seq<Package>)
    ensures Unique(ps) <==>
              forall i :: 0 <= i < |ps| ==> !ContainsNumber(ps[i + 1..], ps[i].number)
  {
    forall i, j :: 0 <= i < j < |ps| ==> ps[i].number != ps[j].number
  }

  /** `packages.some(p => p.number === n)`: scans the list from the front. */
  function ContainsNumber(ps: seq<Package>, n: string): (b: bool)
    ensures b <==> exists i :: 0 <= i < |ps| && ps[i].number == n
    decreases |ps|
  {
    if ps == [] then false
    else if ps[0].number == n then true
    else
      var b := ContainsNumber(ps[1..], n);
      assert forall i :: 1 <= i < |ps| ==> ps[i] == ps[1..][i - 1];
      b
  }

  /** `packages.filter(p => p.number !== n)`: keeps, in order, the records
      whose number differs from `n`. */
  function WithoutNumber(ps: seq<Package>, n: string): (r: seq<Package>)
    ensures |r| <= |ps|
    ensures forall i :: 0 <= i < |r| ==> r[i].number != n
    ensures forall p :: p in r <==> p in ps && p.number != n
    decreases |ps|
  {
    if ps == [] then []
    else if ps[0].number == n then WithoutNumber(ps[1..], n)
    else [ps[0]] + WithoutNumber(ps[1..], n)
  }

  /** The list addPackage leaves behind: unchanged when a record with the
      same number exists (even if its status differs), otherwise the new
      record in front of the old ones. */
  function Inserted(ps: seq<Package>, p: Package): (r: seq<Package>)
    ensures ContainsNumber(r, p.number)
    ensures |ps| <= |r| <= |ps| + 1 && r[|r| - |ps|..] == ps
  {
    if ContainsNumber(ps, p.number) then ps else [p] + ps
  }

  // ---------------------------------------------------------------------
  // Insertion

  /** Adding a record whose number is new grows the list by exactly one,
      puts the record first and keeps the old records in their order. */
  lemma InsertedFresh(ps: seq<Package>, p: Package)
    requires forall i :: 0 <= i < |ps| ==> ps[i].number != p.number
    ensures |Inserted(ps, p)| == |ps| + 1
    ensures Inserted(ps, p)[0] == p && Inserted(ps, p)[1..] == ps
  {
  }

  /** Adding a record whose number is already saved changes nothing. */
  lemma InsertedExisting(ps: seq<Package>, p: Package, i: nat)
    requires i < |ps| && ps[i].number == p.number
    ensures Inserted(ps, p) == ps
  {
  }

  /** Adding the same record twice is the same as adding it once. */
  lemma InsertedIdempotent(ps: seq<Package>, p: Package)
    ensures Inserted(Inserted(ps, p), p) == Inserted(ps, p)
  {
    if !ContainsNumber(ps, p.number) {
      InsertedExisting([p] + ps, p, 0);
    }
  }

  /** Adding keeps every saved number and adds exactly the new one. */
  lemma InsertedNumbers(ps: seq<Package>, p: Package, n: string)
    ensures ContainsNumber(Inserted(ps, p), n) <==> ContainsNumber(ps, n) || n == p.number
  {
    if !ContainsNumber(ps, p.number) {
      var r := [p] + ps;
      assert r[0].number == p.number;
      assert forall i :: 0 <= i < |ps| ==> r[i + 1] == ps[i];
    }
  }

  /** Adding preserves "at most one record per number". */
  lemma InsertedPreservesUnique(ps: seq<Package>, p: Package)
    requires Unique(ps)
    ensures Unique(Inserted(ps, p))
  {
    if !ContainsNumber(ps, p.number) {
      var r := [p] + ps;
      forall i, j | 0 <= i < j < |r| ensures r[i].number != r[j].number {
        if i == 0 {
          assert r[j] == ps[j - 1];
        } else {
          assert r[i] == ps[i - 1] && r[j] == ps[j - 1];
        }
      }
    }
  }

  /** Newest first: adding P1 and then P2 (with another number) to an empty
      list yields [P2, P1]. */
  lemma NewestFirst(p1: Package, p2: Package)
    requires p1.number != p2.number
    ensures Inserted(Inserted([], p1), p2) == [p2, p1]
  {
  }

  // ---------------------------------------------------------------------
  // Removal

  /** Removing a number that is not saved leaves the list as it was. */
  lemma {:induction false} WithoutAbsentNumber(ps: seq<Package>, n: string)
    requires !ContainsNumber(ps, n)
    ensures WithoutNumber(ps, n) == ps
    decreases |ps|
  {
    if ps != [] {
      assert ps[0].number != n;
      assert !ContainsNumber(ps[1..], n) by {
        assert forall i :: 0 <= i < |ps[1..]| ==> ps[1..][i] == ps[i + 1];
      }
      WithoutAbsentNumber(ps[1..], n);
      assert ps == [ps[0]] + ps[1..];
    }
  }

  /** Removal distributes over concatenation: each part keeps the relative
      order of its surviving records. */
  lemma {:induction false} WithoutNumberAppend(a: seq<Package>, b: seq<Package>, n: string)
    ensures WithoutNumber(a + b, n) == WithoutNumber(a, n) + WithoutNumber(b, n)
    decreases |a|
  {
    if a != [] {
      assert (a + b)[0] == a[0];
      assert (a + b)[1..] == a[1..] + b;
      WithoutNumberAppend(a[1..], b, n);
    } else {
      assert a + b == b;
    }
  }

  /** A record whose number no later record shares can head a list with
      one record per number. */
  lemma UniqueCons(x: Package, rest: seq<Package>)
    requires Unique(rest)
    requires forall j :: 0 <= j < |rest| ==> rest[j].number != x.number
    ensures Unique([x] + rest)
  {
    var r := [x] + rest;
    forall i, j | 0 <= i < j < |r| ensures r[i].number != r[j].number {
      assert r[j] == rest[j - 1];
      if i > 0 {
        assert r[i] == rest[i - 1];
      }
    }
  }

  /** On a list with one record per number, removing the number of the
      record at index i deletes exactly that record and keeps all the
      others in their original order. */
  lemma {:induction false} WithoutNumberDeletesOne(ps: seq<Package>, i: nat)
    requires Unique(ps) && i < |ps|
    ensures WithoutNumber(ps, ps[i].number) == ps[..i] + ps[i + 1..]
  {
    var n := ps[i].number;
    var pre, post := ps[..i], ps[i + 1..];
    assert ps == pre + ([ps[i]] + post);
    forall k | 0 <= k < |pre| ensures pre[k].number != n {
      assert pre[k] == ps[k];
    }
    forall k | 0 <= k < |post| ensures post[k].number != n {
      assert post[k] == ps[i + 1 + k];
    }
    WithoutAbsentNumber(pre, n);
    WithoutAbsentNumber(post, n);
    WithoutNumberAppend(pre, [ps[i]] + post, n);
    WithoutNumberAppend([ps[i]], post, n);
    assert WithoutNumber([ps[i]], n) == [];
  }

  /** Removal preserves "at most one record per number". */
  lemma {:induction false} WithoutNumberPreservesUnique(ps: seq<Package>, n: string)
    requires Unique(ps)
    ensures Unique(WithoutNumber(ps, n))
    decreases |ps|
  {
    if ps != [] {
      var tail := ps[1..];
      forall i, j | 0 <= i < j < |tail| ensures tail[i].number != tail[j].number {
        assert tail[i] == ps[i + 1] && tail[j] == ps[j + 1];
      }
      WithoutNumberPreservesUnique(tail, n);
      if ps[0].number != n {
        var rest := WithoutNumber(tail, n);
        forall j | 0 <= j < |rest| ensures rest[j].number != ps[0].number {
          assert rest[j] in tail;
          var k :| 0 <= k < |tail| && tail[k] == rest[j];
          assert ps[k + 1] == tail[k];
        }
        UniqueCons(ps[0], rest);
      }
    }
  }

  /** Removing twice is removing once. */
  lemma WithoutNumberIdempotent(ps: seq<Package>, n: string)
    ensures WithoutNumber(WithoutNumber(ps, n), n) == WithoutNumber(ps, n)
  {
    WithoutAbsentNumber(WithoutNumber(ps, n), n);
  }

  /** Adding a record with a new number and then removing that number
      restores the list; in particular remove(add([], P), P.number) == []. */
  lemma RemoveUndoesAdd(ps: seq<Package>, p: Package)
    requires !ContainsNumber(ps, p.number)
    ensures WithoutNumber(Inserted(ps, p), p.number) == ps
  {
    WithoutAbsentNumber(ps, p.number);
  }
}
