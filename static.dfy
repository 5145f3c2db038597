/**
 * StaticRequests and its helper mergeUnique: the exception list is the
 * default list followed by the caller's, without repeats; a route on that
 * list gets an Expires header in the DEV scope.
 */
module Static {
  import opened Http

  const DefaultExceptions: seq<string> := ["static/", "fav.ico", "favicon.ico", ".ico"]
  const ExpiresHeader := "Expires"

  predicate NoDuplicates(s: seq<string>) {
    forall i, j :: 0 <= i < j < |s| ==> s[i] != s[j]
  }

  /** The position of the first occurrence of `x` in `s`. */
  function FirstIndex(s: seq<string>, x: string): (r: nat)
    requires x in s
    ensures r < |s| && s[r] == x
    ensures forall j :: 0 <= j < r ==> s[j] != x
  {
    if s[0] == x then 0 else 1 + FirstIndex(s[1..], x)
  }

  /** Every element of `d` occurs in `s`, and `d` lists them in the order in which they first occur in `s`. */
  predicate InFirstOccurrenceOrder(d: seq<string>, s: seq<string>) {
    && (forall x :: x in d ==> x in s)
    && (forall i, j :: 0 <= i < j < |d| ==> FirstIndex(s, d[i]) < FirstIndex(s, d[j]))
  }

  /** Reference definition: each element of `s` at its first occurrence, in order. */
  function Dedup(s: seq<string>): seq<string> {
    if s == [] then []
    else
      var p := Dedup(s[..|s| - 1]);
      if s[|s| - 1] in p then p else p + [s[|s| - 1]]
  }

  lemma {:induction false} FirstIndexAppend(p: seq<string>, q: seq<string>, y: string)
    requires y in p + q
    ensures y in p ==> FirstIndex(p + q, y) == FirstIndex(p, y)
    ensures y !in p ==> FirstIndex(p + q, y) == |p| + FirstIndex(q, y)
  {
    if p == [] {
      assert p + q == q;
    } else if p[0] != y {
      assert (p + q)[1..] == p[1..] + q;
      FirstIndexAppend(p[1..], q, y);
    }
  }

  /** Dedup of a list extended by one element, read off the definition. */
  lemma DedupSnoc(p: seq<string>, x: string)
    ensures Dedup(p + [x]) == if x in Dedup(p) then Dedup(p) else Dedup(p) + [x]
  {
    assert (p + [x])[..|p + [x]| - 1] == p;
  }

  /** Dedup keeps exactly the elements of its input. */
  lemma {:induction false} DedupMembers(s: seq<string>)
    ensures forall x :: x in Dedup(s) <==> x in s
  {
    if s != [] {
      var p, x := s[..|s| - 1], s[|s| - 1];
      assert s == p + [x];
      DedupMembers(p);
    }
  }

  /** Each element appears once in Dedup's output. */
  lemma {:induction false} DedupNoDuplicates(s: seq<string>)
    ensures NoDuplicates(Dedup(s))
  {
    if s != [] {
      DedupNoDuplicates(s[..|s| - 1]);
    }
  }

  /** Appending to `s` does not move any first occurrence already in it. */
  lemma OrderKeptOnAppend(d: seq<string>, p: seq<string>, x: string)
    requires InFirstOccurrenceOrder(d, p)
    ensures InFirstOccurrenceOrder(d, p + [x])
  {
    forall k | 0 <= k < |d| ensures FirstIndex(p + [x], d[k]) == FirstIndex(p, d[k]) {
      FirstIndexAppend(p, [x], d[k]);
    }
  }

  /** A new element's first occurrence comes after every earlier one. */
  lemma OrderExtendedOnAppend(d: seq<string>, p: seq<string>, x: string)
    requires InFirstOccurrenceOrder(d, p) && x !in p
    ensures InFirstOccurrenceOrder(d + [x], p + [x])
  {
    OrderKeptOnAppend(d, p, x);
    FirstIndexAppend(p, [x], x);
    var r := d + [x];
    forall i, j | 0 <= i < j < |r| ensures FirstIndex(p + [x], r[i]) < FirstIndex(p + [x], r[j]) {
      assert r[i] == d[i];
      if j < |d| {
        assert r[j] == d[j];
      }
    }
  }

  /** Dedup lists the elements in the order of their first occurrences. */
  lemma {:induction false} DedupOrder(s: seq<string>)
    ensures InFirstOccurrenceOrder(Dedup(s), s)
  {
    if s != [] {
      var p, x := s[..|s| - 1], s[|s| - 1];
      assert s == p + [x];
      DedupOrder(p);
      DedupSnoc(p, x);
      if x in Dedup(p) {
        OrderKeptOnAppend(Dedup(p), p, x);
      } else {
        DedupMembers(p);
        OrderExtendedOnAppend(Dedup(p), p, x);
      }
    }
  }

  /** A list without repeats is its own Dedup. */
  lemma {:induction false} DedupOfDistinct(s: seq<string>)
    requires NoDuplicates(s)
    ensures Dedup(s) == s
  {
    if s != [] {
      var p, x := s[..|s| - 1], s[|s| - 1];
      assert s == p + [x];
      assert NoDuplicates(p) by {
        forall i, j | 0 <= i < j < |p| ensures p[i] != p[j] {
          assert p[i] == s[i] && p[j] == s[j];
        }
      }
      DedupOfDistinct(p);
      assert x !in p by {
        forall i | 0 <= i < |p| ensures p[i] != x {
          assert s[i] == p[i];
        }
      }
    }
  }

  /** Dedup never lengthens its input. */
  lemma {:induction false} DedupLength(s: seq<string>)
    ensures |Dedup(s)| <= |s|
  {
    if s != [] {
      DedupLength(s[..|s| - 1]);
    }
  }

  /** Go's `unique[val]`: false for a missing key. */
  function Lookup(m: map<string, bool>, k: string): bool {
    k in m && m[k]
  }

  /** The properties of Dedup, stated for the concatenation that mergeUnique works on. */
  lemma MergeFacts(arr1: seq<string>, arr2: seq<string>)
    ensures var d := Dedup(arr1 + arr2);
            && (forall x :: x in d <==> x in arr1 || x in arr2)
            && NoDuplicates(d)
            && InFirstOccurrenceOrder(d, arr1 + arr2)
            && (NoDuplicates(arr1 + arr2) ==> d == arr1 + arr2)
            && |d| <= |arr1| + |arr2|
  {
    var c := arr1 + arr2;
    DedupMembers(c);
    DedupNoDuplicates(c);
    DedupOrder(c);
    DedupLength(c);
    if NoDuplicates(c) {
      DedupOfDistinct(c);
    }
  }

  /** mergeUnique: `arr1` then `arr2`, keeping the first occurrence of each string. */
  method MergeUnique(arr1: seq<string>, arr2: seq<string>) returns (output: seq<string>)
    ensures output == Dedup(arr1 + arr2)
    ensures forall x :: x in output <==> x in arr1 || x in arr2
    ensures NoDuplicates(output)
    ensures InFirstOccurrenceOrder(output, arr1 + arr2)
    ensures NoDuplicates(arr1 + arr2) ==> output == arr1 + arr2
    ensures |output| <= |arr1| + |arr2|
  {
    var combined := arr1 + arr2;
    var unique: map<string, bool> := map[];
    output := [];
    var i := 0;
    while i < |combined|
      invariant 0 <= i <= |combined|
      invariant output == Dedup(combined[..i])
      invariant forall x :: Lookup(unique, x) <==> x in output
    {
      var val := combined[i];
      assert combined[..i + 1] == combined[..i] + [val];
      DedupSnoc(combined[..i], val);
      if !Lookup(unique, val) {
        unique := unique[val := true];
        output := output + [val];
      }
      i := i + 1;
    }
    assert combined[..|combined|] == combined;
    assert output == Dedup(arr1 + arr2);
    MergeFacts(arr1, arr2);
  }

  /** The default list has no repeats, so merging it with nothing gives it back. */
  lemma DefaultExceptionsMergeAlone()
    ensures NoDuplicates(DefaultExceptions)
    ensures Dedup(DefaultExceptions + []) == DefaultExceptions
  {
    assert DefaultExceptions + [] == DefaultExceptions;
    DedupOfDistinct(DefaultExceptions);
  }

  /**
   * The handler body (before c.Next()). `appScope` is cfg.Service.Scope and
   * `expires` the formatted time one minute ago. The Expires header is set
   * exactly when the route is non-empty, listed, and the scope is "DEV";
   * otherwise no header changes.
   */
  method StaticRequests(appScope: string, e: seq<string>, ctx: Context, expires: string)
    requires expires != ""
    modifies ctx`respHeader
    ensures ctx.request.fullPath != "" && (ctx.request.fullPath in DefaultExceptions || ctx.request.fullPath in e)
            && appScope == "DEV"
            ==> ctx.respHeader == GinHeader(old(ctx.respHeader), ExpiresHeader, expires)
    ensures !(ctx.request.fullPath != "" && (ctx.request.fullPath in DefaultExceptions || ctx.request.fullPath in e)
              && appScope == "DEV")
            ==> ctx.respHeader == old(ctx.respHeader)
  {
    var requestExceptions := MergeUnique(DefaultExceptions, e);
    var path := ctx.request.fullPath;
    if path != "" && path in requestExceptions {
      if appScope == "DEV" {
        ctx.Header(ExpiresHeader, expires);
      }
    }
  }
}
