/** Enumerating the conversations the checkpoint store knows about. The store's
    listing is an input: `None` when it returned nothing at all, otherwise the
    checkpoints it listed, each tagged with its thread id. The result is a
    list of thread ids, or the one-element list holding the "none found"
    sentinel (modelled as `None`). */
module ThreadListing {
  import opened Common

  /** A stored checkpoint, as far as the listing is concerned. */
  datatype Checkpoint = Checkpoint(threadId: string)

  /** The reference view: which values the listing reports. */
  function ThreadIdSet(items: Option<seq<Checkpoint>>): (ids: set<Option<string>>)
    ensures items.None? ==> ids == {None}
    ensures items.Some? ==> forall x :: x in ids <==> x.Some? && exists c :: c in items.value && c.threadId == x.value
  {
    match items
    case None => {None}
    case Some(cs) => set c | c in cs :: Some(c.threadId)
  }

  /** The accumulation loop: a set holding the thread id of every listed
      checkpoint, or just the sentinel when there is no listing. */
  method CollectThreadIds(items: Option<seq<Checkpoint>>) returns (all: set<Option<string>>)
    ensures all == ThreadIdSet(items)
    ensures items.Some? ==> |all| <= |items.value|
  {
    all := {};
    match items {
      case Some(cs) =>
        var i := 0;
        while i < |cs|
          invariant 0 <= i <= |cs|
          invariant all == set c | c in cs[..i] :: Some(c.threadId)
          invariant |all| <= i
        {
          assert cs[..i + 1] == cs[..i] + [cs[i]];
          all := all + {Some(cs[i].threadId)};
          i := i + 1;
        }
        assert cs[..i] == cs;
      case None =>
        all := {None};
    }
  }

  /** Turning the set into a list. The order of a set's elements is not
      specified, so each step picks any remaining element. */
  method ListOfSet<T>(s: set<T>) returns (r: seq<T>)
    ensures Distinct(r)
    ensures forall x :: x in r <==> x in s
    ensures |r| == |s|
  {
    r := [];
    var rest := s;
    while rest != {}
      invariant rest <= s
      invariant forall x :: x in r <==> x in s - rest
      invariant Distinct(r)
      invariant |r| + |rest| == |s|
      decreases |rest|
    {
      var x :| x in rest;
      r := r + [x];
      rest := rest - {x};
    }
  }
}

/** The thread enumeration of the database-backed chat backend. */
module DatabaseBackend {
  import opened Common
  import opened ThreadListing

  /** Every thread id the store lists, each once, in no particular order;
      the sentinel list `[None]` when the store returns no listing; an empty
      list when the listing is empty. */
  method RetrieveAllThreads(items: Option<seq<Checkpoint>>) returns (r: seq<Option<string>>)
    ensures Distinct(r)
    ensures forall x :: x in r <==> x in ThreadIdSet(items)
    ensures items.None? ==> r == [None]
    ensures items.Some? ==> |r| <= |items.value|
    ensures items.Some? ==> forall c :: c in items.value ==> Some(c.threadId) in r
    ensures items.Some? ==> forall x :: x in r ==> x.Some? && exists c :: c in items.value && c.threadId == x.value
    ensures items == Some([]) ==> r == []
  {
    var all := CollectThreadIds(items);
    r := ListOfSet(all);
    if items.None? {
      assert |r| == 1 && r[0] in all;
    }
  }
}

/** The thread enumeration of the tool-using chat backend; its code is the
    same as the database backend's. */
module ToolsBackend {
  import opened Common
  import opened ThreadListing

  /** Same contract as the database backend's enumeration. */
  method RetrieveAllThreads(items: Option<seq<Checkpoint>>) returns (r: seq<Option<string>>)
    ensures Distinct(r)
    ensures forall x :: x in r <==> x in ThreadIdSet(items)
    ensures items.None? ==> r == [None]
    ensures items.Some? ==> |r| <= |items.value|
    ensures items.Some? ==> forall c :: c in items.value ==> Some(c.threadId) in r
    ensures items.Some? ==> forall x :: x in r ==> x.Some? && exists c :: c in items.value && c.threadId == x.value
    ensures items == Some([]) ==> r == []
  {
    var all := CollectThreadIds(items);
    r := ListOfSet(all);
    if items.None? {
      assert |r| == 1 && r[0] in all;
    }
  }
}
