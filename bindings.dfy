// Memory bindings.  Every tracked memory object keeps an ordered list of the
// buffers (and another of the images) bound to it, each with its offset.
// Binding a resource first erases it from every list, then appends it to
// the list of the memory it is bound to; destroying a resource erases it
// from every list.  This module states those list operations once, for
// both kinds of resource, over a map from memory handle to list.

module Bindings {
  import opened Vk

  /** One entry of a memory object's list: the resource, its offset, and per-kind extra data. */
  datatype Binding<A> = Binding(resource: Handle, offset: u64, extra: A)

  /** The binding lists of all tracked memory objects, by memory handle. */
  type Lists<A> = map<Handle, seq<Binding<A>>>

  /** How many entries of `l` name resource `h`. */
  function Count<A>(l: seq<Binding<A>>, h: Handle): nat
  {
    if |l| == 0 then 0
    else Count(l[..|l| - 1], h) + (if l[|l| - 1].resource == h then 1 else 0)
  }

  /** `l` without its entries for `h`, the others kept in order. */
  function Remove<A>(l: seq<Binding<A>>, h: Handle): seq<Binding<A>>
  {
    if |l| == 0 then []
    else Remove(l[..|l| - 1], h) + (if l[|l| - 1].resource == h then [] else [l[|l| - 1]])
  }

  lemma CountSnoc<A>(l: seq<Binding<A>>, e: Binding<A>, h: Handle)
    ensures Count(l + [e], h) == Count(l, h) + (if e.resource == h then 1 else 0)
  {
    assert (l + [e])[..|l|] == l;
  }

  /** Removing `h` leaves no entry for it and every other resource's entries untouched. */
  lemma {:induction false} RemoveCount<A>(l: seq<Binding<A>>, h: Handle, g: Handle)
    ensures Count(Remove(l, h), g) == if g == h then 0 else Count(l, g)
    decreases |l|
  {
    if |l| > 0 {
      var prefix, last := l[..|l| - 1], l[|l| - 1];
      RemoveCount(prefix, h, g);
      if last.resource != h {
        CountSnoc(Remove(prefix, h), last, g);
      } else {
        assert Remove(l, h) == Remove(prefix, h) + [] == Remove(prefix, h);
        assert Count(l, g) == Count(prefix, g) + (if h == g then 1 else 0);
      }
    }
  }

  /** Removing `h` keeps every entry of another resource. */
  lemma {:induction false} RemoveKeeps<A>(l: seq<Binding<A>>, h: Handle, e: Binding<A>)
    requires e in l && e.resource != h
    ensures e in Remove(l, h)
    decreases |l|
  {
    var prefix, last := l[..|l| - 1], l[|l| - 1];
    if e != last {
      assert l == prefix + [last];
      RemoveKeeps(prefix, h, e);
    }
  }

  /** Removing a resource that has no entry changes nothing. */
  lemma {:induction false} RemoveAbsent<A>(l: seq<Binding<A>>, h: Handle)
    requires Count(l, h) == 0
    ensures Remove(l, h) == l
    decreases |l|
  {
    if |l| > 0 {
      var prefix, last := l[..|l| - 1], l[|l| - 1];
      assert Count(prefix, h) == 0 && last.resource != h;
      RemoveAbsent(prefix, h);
      assert Remove(l, h) == prefix + [last];
      assert prefix + [last] == l;
    }
  }

  /** The erase-in-loop over one list: an entry for `h` is erased in place, otherwise the iterator advances. */
  method RemoveInPlace<A>(l: seq<Binding<A>>, h: Handle) returns (r: seq<Binding<A>>)
    ensures r == Remove(l, h)
  {
    r := l;
    var i := 0;
    ghost var k := 0;
    while i < |r|
      invariant 0 <= i <= |r| && 0 <= k <= |l|
      invariant r[..i] == Remove(l[..k], h) && r[i..] == l[k..]
      decreases |r| - i
    {
      assert l[..k + 1][..k] == l[..k];
      assert r[i] == l[k];
      assert r[i + 1..] == l[k + 1..];
      if r[i].resource == h {
        assert Remove(l[..k + 1], h) == Remove(l[..k], h) + [];
        var r' := r[..i] + r[i + 1..];
        assert r'[..i] == r[..i] && r'[i..] == r[i + 1..];
        r := r';
      } else {
        assert Remove(l[..k + 1], h) == Remove(l[..k], h) + [l[k]];
        assert r[..i + 1] == r[..i] + [r[i]];
        i := i + 1;
      }
      k := k + 1;
    }
    assert l[..k] == l;
  }

  // ---------------------------------------------------------------------
  // All lists at once

  /** Every list with the entries for `h` erased. */
  function Strip<A>(lists: Lists<A>, h: Handle): (r: Lists<A>)
    ensures r.Keys == lists.Keys
  {
    map m | m in lists :: Remove(lists[m], h)
  }

  /**
   * Binding `h` to memory `m` at `offset`: erase `h` everywhere, then, unless
   * `m` is VK_NULL_HANDLE, append it to `m`'s list.
   */
  function Bind<A>(lists: Lists<A>, h: Handle, m: Handle, offset: u64, extra: A): (r: Lists<A>)
    requires m == NULL_HANDLE || m in lists
    ensures r.Keys == lists.Keys
  {
    var stripped := Strip(lists, h);
    if m == NULL_HANDLE then stripped else stripped[m := stripped[m] + [Binding(h, offset, extra)]]
  }

  /** Each resource is in at most one list, and at most once there. */
  ghost predicate Exclusive<A>(lists: Lists<A>)
  {
    && (forall m, h | m in lists :: Count(lists[m], h) <= 1)
    && (forall m1, m2, h | m1 in lists && m2 in lists && Count(lists[m1], h) > 0 && Count(lists[m2], h) > 0 :: m1 == m2)
  }

  /** The loop over every memory object's list. */
  method StripLists<A>(lists: Lists<A>, h: Handle) returns (r: Lists<A>)
    ensures r == Strip(lists, h)
  {
    r := lists;
    var todo := lists.Keys;
    while todo != {}
      invariant todo <= lists.Keys && r.Keys == lists.Keys
      invariant forall m | m in lists :: r[m] == if m in todo then lists[m] else Remove(lists[m], h)
      decreases |todo|
    {
      var m :| m in todo;
      var l := RemoveInPlace(r[m], h);
      r := r[m := l];
      todo := todo - {m};
    }
  }

  lemma StripCounts<A>(lists: Lists<A>, h: Handle)
    ensures forall m, g | m in lists :: Count(Strip(lists, h)[m], g) == if g == h then 0 else Count(lists[m], g)
  {
    forall m, g | m in lists
      ensures Count(Strip(lists, h)[m], g) == if g == h then 0 else Count(lists[m], g)
    {
      RemoveCount(lists[m], h, g);
    }
  }

  /** After a bind, `h` is in `m`'s list exactly once (nowhere when `m` is null); other resources keep their counts. */
  lemma BindCounts<A>(lists: Lists<A>, h: Handle, m: Handle, offset: u64, extra: A)
    requires m == NULL_HANDLE || m in lists
    ensures forall k, g | k in lists ::
      Count(Bind(lists, h, m, offset, extra)[k], g)
      == if g == h then (if k == m && m != NULL_HANDLE then 1 else 0) else Count(lists[k], g)
    ensures m != NULL_HANDLE ==> Binding(h, offset, extra) in Bind(lists, h, m, offset, extra)[m]
    ensures forall k, e | k in lists && e in lists[k] && e.resource != h :: e in Bind(lists, h, m, offset, extra)[k]
  {
    forall k, e | k in lists && e in lists[k] && e.resource != h
      ensures e in Strip(lists, h)[k]
    {
      RemoveKeeps(lists[k], h, e);
    }
    var stripped := Strip(lists, h);
    StripCounts(lists, h);
    if m != NULL_HANDLE {
      forall g
        ensures Count(stripped[m] + [Binding(h, offset, extra)], g) == Count(stripped[m], g) + (if g == h then 1 else 0)
      {
        CountSnoc(stripped[m], Binding(h, offset, extra), g);
      }
    }
  }

  lemma BindPreservesExclusive<A>(lists: Lists<A>, h: Handle, m: Handle, offset: u64, extra: A)
    requires Exclusive(lists)
    requires m == NULL_HANDLE || m in lists
    ensures Exclusive(Bind(lists, h, m, offset, extra))
  {
    BindCounts(lists, h, m, offset, extra);
  }

  lemma StripPreservesExclusive<A>(lists: Lists<A>, h: Handle)
    requires Exclusive(lists)
    ensures Exclusive(Strip(lists, h))
    ensures forall m | m in lists :: Count(Strip(lists, h)[m], h) == 0
  {
    StripCounts(lists, h);
  }

  /** A new memory object starts with an empty list; a freed one takes its list with it. */
  lemma ResetPreservesExclusive<A>(lists: Lists<A>, m: Handle)
    requires Exclusive(lists)
    ensures Exclusive(lists[m := []])
    ensures Exclusive(lists - {m})
  {
    var empty: seq<Binding<A>> := [];
    assert forall h :: Count(empty, h) == 0;
  }

  // ---------------------------------------------------------------------
  // vkBindBufferMemory2 / vkBindImageMemory2: one bind per info, in order,
  // skipping infos whose resource is VK_NULL_HANDLE

  datatype BindRequest<A> = BindRequest(resource: Handle, memory: Handle, offset: u64, extra: A)

  ghost predicate MemoriesKnown<A>(lists: Lists<A>, requests: seq<BindRequest<A>>)
  {
    forall i | 0 <= i < |requests| && requests[i].resource != NULL_HANDLE && requests[i].memory != NULL_HANDLE ::
      requests[i].memory in lists
  }

  /** Every prefix of a list of requests naming known memory names known memory. */
  lemma MemoriesKnownPrefixes<A>(lists: Lists<A>, requests: seq<BindRequest<A>>)
    requires MemoriesKnown(lists, requests)
    ensures forall k | 0 <= k <= |requests| :: MemoriesKnown(lists, requests[..k])
  {
    forall k, i | 0 <= k <= |requests| && 0 <= i < k
      ensures requests[..k][i] == requests[i]
    {
    }
  }

  function ApplyBinds<A>(lists: Lists<A>, requests: seq<BindRequest<A>>): (r: Lists<A>)
    requires MemoriesKnown(lists, requests)
    ensures r.Keys == lists.Keys
  {
    if |requests| == 0 then lists
    else
      var last := requests[|requests| - 1];
      var before := ApplyBinds(lists, requests[..|requests| - 1]);
      if last.resource == NULL_HANDLE then before else Bind(before, last.resource, last.memory, last.offset, last.extra)
  }

  /** Reference: the position of the last request that binds resource `h`. */
  function LastRequest<A>(requests: seq<BindRequest<A>>, h: Handle): (r: Option<nat>)
    ensures r.Some? ==> r.value < |requests| && requests[r.value].resource == h
    ensures r.Some? ==> forall j | r.value < j < |requests| :: requests[j].resource != h
    ensures r.None? ==> forall j | 0 <= j < |requests| :: requests[j].resource != h
  {
    if |requests| == 0 then None
    else if requests[|requests| - 1].resource == h then Some(|requests| - 1)
    else LastRequest(requests[..|requests| - 1], h)
  }

  /**
   * The last request naming a non-null resource decides where it ends up:
   * exactly once in that request's memory (nowhere if that memory is null);
   * a resource no request names keeps its entries.
   */
  lemma {:induction false} ApplyBindsLastWins<A>(lists: Lists<A>, requests: seq<BindRequest<A>>, g: Handle)
    requires MemoriesKnown(lists, requests)
    requires g != NULL_HANDLE
    ensures var r := ApplyBinds(lists, requests);
      forall k | k in lists ::
        Count(r[k], g) == match LastRequest(requests, g)
                          case Some(i) => (if k == requests[i].memory && k != NULL_HANDLE then 1 else 0)
                          case None => Count(lists[k], g)
    ensures var r := ApplyBinds(lists, requests);
      LastRequest(requests, g).Some? && requests[LastRequest(requests, g).value].memory != NULL_HANDLE ==>
        var q := requests[LastRequest(requests, g).value];
        Binding(g, q.offset, q.extra) in r[q.memory]
    decreases |requests|
  {
    if |requests| > 0 {
      var prefix, last := requests[..|requests| - 1], requests[|requests| - 1];
      assert MemoriesKnown(lists, prefix) by {
        forall i | 0 <= i < |prefix| && prefix[i].resource != NULL_HANDLE && prefix[i].memory != NULL_HANDLE
          ensures prefix[i].memory in lists
        {
          assert prefix[i] == requests[i];
        }
      }
      ApplyBindsLastWins(lists, prefix, g);
      var before := ApplyBinds(lists, prefix);
      if last.resource != NULL_HANDLE {
        BindCounts(before, last.resource, last.memory, last.offset, last.extra);
      }
    }
  }

  lemma {:induction false} ApplyBindsPreservesExclusive<A>(lists: Lists<A>, requests: seq<BindRequest<A>>)
    requires MemoriesKnown(lists, requests)
    requires Exclusive(lists)
    ensures Exclusive(ApplyBinds(lists, requests))
    decreases |requests|
  {
    if |requests| > 0 {
      var prefix, last := requests[..|requests| - 1], requests[|requests| - 1];
      assert MemoriesKnown(lists, prefix) by {
        forall i | 0 <= i < |prefix| && prefix[i].resource != NULL_HANDLE && prefix[i].memory != NULL_HANDLE
          ensures prefix[i].memory in lists
        {
          assert prefix[i] == requests[i];
        }
      }
      ApplyBindsPreservesExclusive(lists, prefix);
      if last.resource != NULL_HANDLE {
        BindPreservesExclusive(ApplyBinds(lists, prefix), last.resource, last.memory, last.offset, last.extra);
      }
    }
  }

  /** The loop over the bind infos of vkBindBufferMemory2, one bind per info naming a resource. */
  method BindInOrder<A>(lists: Lists<A>, requests: seq<BindRequest<A>>) returns (r: Lists<A>)
    requires MemoriesKnown(lists, requests)
    ensures r == ApplyBinds(lists, requests)
  {
    MemoriesKnownPrefixes(lists, requests);
    r := lists;
    for i := 0 to |requests|
      invariant r == ApplyBinds(lists, requests[..i])
    {
      assert requests[..i + 1][..i] == requests[..i];
      var request := requests[i];
      if request.resource != NULL_HANDLE {
        r := StripLists(r, request.resource);
        if request.memory != NULL_HANDLE {
          r := r[request.memory := r[request.memory] + [Binding(request.resource, request.offset, request.extra)]];
        }
      }
    }
    assert requests[..|requests|] == requests;
  }
}
