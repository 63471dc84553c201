/**
 * Listing support shared by the List operations: an order on store keys,
 * the keys of a store in that order, and page-size/page-token handling.
 */
module Listing {
  import opened Wrappers
  import Status

  // ---------------------------------------------------------------------
  // Key order
  // ---------------------------------------------------------------------

  /** Strict lexicographic order on strings. */
  predicate Below(a: string, b: string) {
    if a == [] then b != []
    else b != [] && (a[0] < b[0] || (a[0] == b[0] && Below(a[1..], b[1..])))
  }

  lemma {:induction false} BelowIrreflexive(a: string)
    ensures !Below(a, a)
  {
    if a != [] {
      BelowIrreflexive(a[1..]);
    }
  }

  lemma {:induction false} BelowTransitive(a: string, b: string, c: string)
    requires Below(a, b) && Below(b, c)
    ensures Below(a, c)
  {
    if a != [] && a[0] == b[0] && b[0] == c[0] {
      BelowTransitive(a[1..], b[1..], c[1..]);
    }
  }

  lemma {:induction false} BelowTotal(a: string, b: string)
    requires a != b
    ensures Below(a, b) || Below(b, a)
  {
    if a != [] && b != [] && a[0] == b[0] {
      BelowTotal(a[1..], b[1..]);
    }
  }

  /** Strictly increasing, hence without repetitions. */
  predicate Sorted(s: seq<string>) {
    forall i, j :: 0 <= i < j < |s| ==> Below(s[i], s[j])
  }

  /** `k` put into its place in a sorted sequence that does not hold it yet. */
  function Insert(s: seq<string>, k: string): (r: seq<string>)
    requires Sorted(s) && k !in s
    ensures Sorted(r)
    ensures |r| == |s| + 1
    ensures forall x :: x in r <==> x in s || x == k
  {
    if s == [] then [k]
    else if Below(k, s[0]) then
      assert forall j :: 0 < j < |s| ==> Below(k, s[j]) by {
        forall j | 0 < j < |s| {
          BelowTransitive(k, s[0], s[j]);
        }
      }
      [k] + s
    else
      BelowTotal(k, s[0]);
      var rest := Insert(s[1..], k);
      assert forall x :: x in s <==> x == s[0] || x in s[1..] by {
        assert s == [s[0]] + s[1..];
      }
      assert forall j :: 0 <= j < |rest| ==> Below(s[0], rest[j]) by {
        forall j | 0 <= j < |rest|
          ensures Below(s[0], rest[j])
        {
          assert rest[j] in rest;
          if rest[j] != k {
            var i :| 0 <= i < |s[1..]| && s[1..][i] == rest[j];
            assert s[i + 1] == rest[j];
          }
        }
      }
      [s[0]] + rest
  }

  /** `keys` lists the keys of `m` in increasing order. */
  ghost predicate IsKeyOrder<V>(keys: seq<string>, m: map<string, V>) {
    Sorted(keys) && forall k :: k in keys <==> k in m
  }

  /** The values of a store in the order of the given keys. */
  function ValuesOf<V>(m: map<string, V>, keys: seq<string>): (vs: seq<V>)
    requires forall k :: k in keys ==> k in m
    ensures |vs| == |keys|
    ensures forall i :: 0 <= i < |keys| ==> vs[i] == m[keys[i]]
  {
    if keys == [] then [] else [m[keys[0]]] + ValuesOf(m, keys[1..])
  }

  /** The tail of a sorted sequence holds every element but the first. */
  lemma SortedTail(s: seq<string>)
    requires Sorted(s) && s != []
    ensures Sorted(s[1..])
    ensures forall x :: x in s[1..] <==> x in s && x != s[0]
  {
    forall x | x in s[1..] ensures x != s[0] {
      var k :| 0 <= k < |s[1..]| && s[1..][k] == x;
      assert Below(s[0], s[k + 1]);
      BelowIrreflexive(s[0]);
    }
    assert s == [s[0]] + s[1..];
  }

  /** Two sorted sequences with the same elements start with the same element. */
  lemma SortedHead(a: seq<string>, b: seq<string>)
    requires Sorted(a) && Sorted(b)
    requires forall x :: x in a <==> x in b
    ensures a != [] ==> b != [] && a[0] == b[0]
  {
    if a != [] {
      assert a[0] in b;
      var j :| 0 <= j < |b| && b[j] == a[0];
      assert b[0] in a;
      var i :| 0 <= i < |a| && a[i] == b[0];
      if j > 0 {
        assert Below(b[0], a[0]);
        if i > 0 {
          BelowTransitive(a[0], b[0], a[0]);
        }
        BelowIrreflexive(a[0]);
        assert false;
      }
    }
  }

  /** A sorted sequence is determined by its elements, so there is one key order per store. */
  lemma {:induction false} SortedUnique(a: seq<string>, b: seq<string>)
    requires Sorted(a) && Sorted(b)
    requires forall x :: x in a <==> x in b
    ensures a == b
  {
    SortedHead(a, b);
    SortedHead(b, a);
    if a != [] {
      SortedTail(a);
      SortedTail(b);
      SortedUnique(a[1..], b[1..]);
      assert a == [a[0]] + a[1..] && b == [b[0]] + b[1..];
    }
  }

  /**
   * The keys of a store in increasing order. The store's own iteration order
   * is not fixed; listing in key order is what makes pages reproducible.
   */
  method SortedKeys<V>(m: map<string, V>) returns (keys: seq<string>)
    ensures IsKeyOrder(keys, m)
    ensures |keys| == |m|
  {
    keys := [];
    var rest := m.Keys;
    while rest != {}
      invariant Sorted(keys)
      invariant forall k :: k in keys ==> k in m && k !in rest
      invariant forall k :: k in m ==> k in keys || k in rest
      invariant rest <= m.Keys
      invariant |keys| + |rest| == |m|
      decreases |rest|
    {
      var k :| k in rest;
      keys := Insert(keys, k);
      rest := rest - {k};
    }
  }

  // ---------------------------------------------------------------------
  // Pagination
  // ---------------------------------------------------------------------

  const DefaultPageSize: nat := 50
  const MaxPageSize: nat := 250

  /** Where a page starts and how many entries it may hold. */
  datatype Page = Page(offset: nat, size: nat)

  /**
   * The page a request asks for: a negative page size is rejected, zero means
   * the default size, sizes above the maximum are capped; an empty token
   * starts at the beginning and any other token must be one handed out
   * before.
   */
  function ExtractPagination(pageSize: int, pageToken: string, tokens: map<string, nat>): (r: Result<Page, Status.Error>)
    ensures pageSize < 0 <==> r == Failure(Status.Status(Status.InvalidArgument, "negative PageSize is not allowed"))
    ensures pageSize >= 0 && pageToken != "" && pageToken !in tokens <==>
              r == Failure(Status.Status(Status.NotFound, "unable to find pagination token " + pageToken))
    ensures r.Success? <==> pageSize >= 0 && (pageToken == "" || pageToken in tokens)
    ensures r.Success? ==> 1 <= r.value.size <= MaxPageSize
    ensures r.Success? && pageSize == 0 ==> r.value.size == DefaultPageSize
    ensures r.Success? && 0 < pageSize <= MaxPageSize ==> r.value.size == pageSize
    ensures r.Success? && pageSize > MaxPageSize ==> r.value.size == MaxPageSize
    ensures r.Success? && pageToken == "" ==> r.value.offset == 0
    ensures r.Success? && pageToken != "" ==> r.value.offset == tokens[pageToken]
  {
    if pageSize < 0 then Failure(Status.Status(Status.InvalidArgument, "negative PageSize is not allowed"))
    else
      var size: nat := if pageSize == 0 then DefaultPageSize else if pageSize > MaxPageSize then MaxPageSize else pageSize;
      if pageToken == "" then Success(Page(0, size))
      else if pageToken in tokens then Success(Page(tokens[pageToken], size))
      else Failure(Status.Status(Status.NotFound, "unable to find pagination token " + pageToken))
  }

  function Min(a: nat, b: nat): nat {
    if a < b then a else b
  }

  /**
   * The entries of one page, and whether entries remain after it. An offset
   * past the end gives an empty page.
   */
  function LimitPagination<T>(items: seq<T>, offset: nat, size: nat): (r: (seq<T>, bool))
    ensures |r.0| <= size
    ensures r.1 <==> offset + size < |items|
    ensures r.1 ==> |r.0| == size
    ensures offset <= |items| ==> items[..offset] + r.0 + (if r.1 then items[offset + size..] else []) == items
  {
    var start := Min(offset, |items|);
    if offset + size < |items| then (items[start..offset + size], true)
    else (items[start..], false)
  }

  /**
   * A List request over `items`, already in key order: the parent must be
   * given, the page is the one the size and token ask for and, when entries
   * remain after it, `newToken` is handed out and remembered with the offset
   * the next page starts at. The result is the page with the next token
   * ("" on the last page), and the token table afterwards.
   */
  function List<T>(items: seq<T>, parent: string, pageSize: int, pageToken: string, tokens: map<string, nat>,
                   newToken: string): (o: (Result<(seq<T>, string), Status.Error>, map<string, nat>))
    requires newToken != ""
    ensures parent == "" ==> o == (Failure(Status.MissingField("parent")), tokens)
    ensures parent != "" && ExtractPagination(pageSize, pageToken, tokens).Failure? ==>
              o == (Failure(ExtractPagination(pageSize, pageToken, tokens).error), tokens)
    ensures o.0.Success? <==> parent != "" && ExtractPagination(pageSize, pageToken, tokens).Success?
    ensures o.0.Success? ==>
              var page := ExtractPagination(pageSize, pageToken, tokens).value;
              && o.0.value.0 == LimitPagination(items, page.offset, page.size).0
              && (o.0.value.1 != "" <==> page.offset + page.size < |items|)
              && (o.0.value.1 != "" ==> o.0.value.1 == newToken && o.1 == tokens[newToken := page.offset + page.size])
              && (o.0.value.1 == "" ==> o.1 == tokens)
  {
    if parent == "" then (Failure(Status.MissingField("parent")), tokens)
    else
      var extracted := ExtractPagination(pageSize, pageToken, tokens);
      if extracted.Failure? then (Failure(extracted.error), tokens)
      else
        var page := extracted.value;
        var (entries, more) := LimitPagination(items, page.offset, page.size);
        if more then (Success((entries, newToken)), tokens[newToken := page.offset + page.size])
        else (Success((entries, "")), tokens)
  }

  /** A token handed out by one page resumes the listing right after it. */
  lemma ListResumes<T>(items: seq<T>, parent: string, pageSize: int, pageToken: string, tokens: map<string, nat>,
                       newToken: string, newToken2: string)
    requires newToken != "" && newToken2 != "" && 0 < pageSize <= MaxPageSize
    requires List(items, parent, pageSize, pageToken, tokens, newToken).0.Success?
    requires List(items, parent, pageSize, pageToken, tokens, newToken).0.value.1 != ""
    ensures var (r, after) := List(items, parent, pageSize, pageToken, tokens, newToken);
            var next := List(items, parent, pageSize, r.value.1, after, newToken2).0;
            var offset := ExtractPagination(pageSize, pageToken, tokens).value.offset;
            && next.Success?
            && next.value.0 == LimitPagination(items, offset + pageSize, pageSize).0
  {
  }

  /** The pages of `items` from `offset` on, `size` entries each, as a client paging through them would see them. */
  function Pages<T>(items: seq<T>, offset: nat, size: nat): seq<seq<T>>
    requires size > 0
    decreases |items| - offset
  {
    var (page, more) := LimitPagination(items, offset, size);
    if more then [page] + Pages(items, offset + size, size) else [page]
  }

  function Flatten<T>(pages: seq<seq<T>>): seq<T> {
    if pages == [] then [] else pages[0] + Flatten(pages[1..])
  }

  /** Following the tokens from the first page to the last gives every entry once, in order. */
  lemma {:induction false} PagesCover<T>(items: seq<T>, offset: nat, size: nat)
    requires size > 0 && offset <= |items|
    ensures Flatten(Pages(items, offset, size)) == items[offset..]
    decreases |items| - offset
  {
    var (page, more) := LimitPagination(items, offset, size);
    if more {
      PagesCover(items, offset + size, size);
      assert page == items[offset..offset + size];
      assert Flatten(Pages(items, offset, size)) == page + Flatten(Pages(items, offset + size, size));
      assert items[offset..] == items[offset..offset + size] + items[offset + size..];
    } else {
      assert Flatten([page]) == page + Flatten([page][1..]);
      assert page == items[offset..];
    }
  }
}
