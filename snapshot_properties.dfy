/**
 * What `capture_content` stores and what `generate_content` writes back: the snapshot maps
 * each captured id to its item without "id" (the later of two items with one id winning),
 * and replaying it sends one PUT per entry, in the order the ids were first seen.
 */
module SnapshotProperties {
  import opened Wrappers
  import opened Dicts
  import opened Json
  import opened HttpClient
  import opened Migrator

  // ----- Recording items -----

  /** The ids of `items` ("" for an item without one). */
  function Ids(items: seq<Value>): (ids: seq<string>)
    ensures |ids| == |items|
    ensures forall i :: 0 <= i < |items| ==> ids[i] == IdOf(items[i]).GetOr("")
  {
    seq(|items|, i requires 0 <= i < |items| => IdOf(items[i]).GetOr(""))
  }

  lemma IdsCons(items: seq<Value>)
    requires items != []
    ensures Ids(items)[0] == IdOf(items[0]).GetOr("") && Ids(items)[1..] == Ids(items[1..])
  {
    assert forall i :: 0 <= i < |items| - 1 ==> items[1..][i] == items[i + 1];
  }

  /** `acc` followed by those of `xs` not seen before, each once, in order of first appearance. */
  function AddNew(acc: seq<string>, xs: seq<string>): (r: seq<string>)
    ensures forall x :: x in r <==> x in acc || x in xs
    ensures |acc| <= |r| && r[..|acc|] == acc
    decreases |xs|
  {
    if xs == [] then acc
    else
      var acc' := if xs[0] in acc then acc else acc + [xs[0]];
      assert acc'[..|acc|] == acc;
      AddNew(acc', xs[1..])
  }

  /** The stored body of the last of `items` whose id is `k`, if any. */
  function LastBody(items: seq<Value>, k: string): Option<Value>
  {
    if items == [] then None
    else
      var later := LastBody(items[1..], k);
      if later.Some? then later
      else
        match Entry(items[0])
        case Some(e) => if e.0 == k then Some(e.1) else None
        case None => None
  }

  /**
   * After recording `items`, the snapshot holds under `k` the stripped body of the last item
   * with id `k`, and otherwise what it held before.
   */
  lemma {:induction false} RecordLookup(snap: Dict<Value>, items: seq<Value>, k: string)
    requires RecordItems(snap, items).Ok?
    ensures Lookup(RecordItems(snap, items).value, k)
         == if LastBody(items, k).Some? then LastBody(items, k) else Lookup(snap, k)
    decreases |items|
  {
    if items != [] {
      var e := Entry(items[0]).value;
      RecordLookup(Set(snap, e.0, e.1), items[1..], k);
    }
  }

  /** After recording `items`, the snapshot's keys are the old ones, then each new id once, in order. */
  lemma {:induction false} RecordKeys(snap: Dict<Value>, items: seq<Value>)
    requires RecordItems(snap, items).Ok?
    ensures Keys(RecordItems(snap, items).value) == AddNew(Keys(snap), Ids(items))
    decreases |items|
  {
    if items != [] {
      var e := Entry(items[0]).value;
      var next := Set(snap, e.0, e.1);
      IdsCons(items);
      assert RecordItems(snap, items) == RecordItems(next, items[1..]);
      assert Keys(next) == if e.0 in Keys(snap) then Keys(snap) else Keys(snap) + [e.0];
      RecordKeys(next, items[1..]);
    }
  }

  lemma TailOfAppend<T>(a: seq<T>, b: seq<T>)
    requires a != []
    ensures (a + b)[0] == a[0] && (a + b)[1..] == a[1..] + b
  {
  }

  /** Recording `a + b` is recording `a`, then `b` into the result. */
  lemma {:induction false} RecordAppend(snap: Dict<Value>, a: seq<Value>, b: seq<Value>)
    requires RecordItems(snap, a).Ok?
    ensures RecordItems(snap, a + b) == RecordItems(RecordItems(snap, a).value, b)
    decreases |a|
  {
    if a == [] {
      assert a + b == b;
    } else {
      var e := Entry(a[0]).value;
      var next := Set(snap, e.0, e.1);
      TailOfAppend(a, b);
      assert RecordItems(snap, a + b) == RecordItems(next, a[1..] + b);
      assert RecordItems(snap, a) == RecordItems(next, a[1..]);
      RecordAppend(next, a[1..], b);
    }
  }

  /** Every item has an id and no two items share one. */
  predicate DistinctIds(items: seq<Value>)
  {
    && (forall i :: 0 <= i < |items| ==> IdOf(items[i]).Some?)
    && (forall i, j :: 0 <= i < j < |items| ==> IdOf(items[i]) != IdOf(items[j]))
  }

  /** A first item with a new id is appended to the snapshot. */
  lemma RecordFirstNew(snap: Dict<Value>, items: seq<Value>)
    requires items != [] && IdOf(items[0]).Some? && IdOf(items[0]).value !in Keys(snap)
    ensures RecordItems(snap, items) == RecordItems(snap + [Entry(items[0]).value], items[1..])
  {
    var e := Entry(items[0]).value;
    assert Set(snap, e.0, e.1) == snap + [e];
  }

  /** Every item has an id, no two share one, and none is already a key of `snap`. */
  predicate NewIds(snap: Dict<Value>, items: seq<Value>)
  {
    DistinctIds(items) && forall i :: 0 <= i < |items| ==> IdOf(items[i]).value !in Keys(snap)
  }

  /** `t` holds the entries of `items`, one per item, in order. */
  predicate EntriesOf(items: seq<Value>, t: Dict<Value>)
  {
    |t| == |items| && forall i :: 0 <= i < |items| ==> Entry(items[i]) == Some(t[i])
  }

  lemma EntriesCons(items: seq<Value>, t: Dict<Value>)
    requires items != [] && t != [] && Entry(items[0]) == Some(t[0])
    requires EntriesOf(items[1..], t[1..])
    ensures EntriesOf(items, t)
  {
    forall i | 1 <= i < |items|
      ensures Entry(items[i]) == Some(t[i])
    {
      assert items[1..][i - 1] == items[i];
      assert t[1..][i - 1] == t[i];
    }
  }

  /** Distinct new ids stay distinct and new once the first of them is recorded. */
  lemma DistinctTail(snap: Dict<Value>, items: seq<Value>)
    requires items != [] && NewIds(snap, items)
    ensures NewIds(snap + [Entry(items[0]).value], items[1..])
  {
    var e := Entry(items[0]).value;
    assert Keys(snap + [e]) == Keys(snap) + [e.0];
    forall i | 0 <= i < |items| - 1
      ensures IdOf(items[1..][i]).value !in Keys(snap + [e])
    {
      assert items[1..][i] == items[i + 1];
      assert IdOf(items[0]) != IdOf(items[i + 1]);
    }
    forall i, j | 0 <= i < j < |items| - 1
      ensures IdOf(items[1..][i]) != IdOf(items[1..][j])
    {
      assert items[1..][i] == items[i + 1] && items[1..][j] == items[j + 1];
    }
  }

  /** A snapshot that starts with `snap + [e]` starts with `snap`, followed by `e`. */
  lemma PrefixShift(snap: Dict<Value>, e: (string, Value), s: Dict<Value>)
    requires |snap| + 1 <= |s| && s[..|snap| + 1] == snap + [e]
    ensures s[..|snap|] == snap
    ensures s[|snap|..] != [] && s[|snap|..][0] == e && s[|snap|..][1..] == s[|snap| + 1..]
  {
    assert s[..|snap|] == s[..|snap| + 1][..|snap|];
    assert s[|snap|] == s[..|snap| + 1][|snap|];
  }

  /**
   * With distinct ids that are all new, recording appends one entry per item, in order:
   * the item's id and the item without "id".
   */
  lemma {:induction false} RecordDistinct(snap: Dict<Value>, items: seq<Value>)
    requires NewIds(snap, items)
    ensures RecordItems(snap, items).Ok?
    ensures var s := RecordItems(snap, items).value;
      |snap| <= |s| && s[..|snap|] == snap && EntriesOf(items, s[|snap|..])
    decreases |items|
  {
    if items == [] {
      assert RecordItems(snap, items) == Ok(snap);
    } else {
      var e := Entry(items[0]).value;
      RecordFirstNew(snap, items);
      DistinctTail(snap, items);
      RecordDistinct(snap + [e], items[1..]);
      var s := RecordItems(snap, items).value;
      assert |snap + [e]| == |snap| + 1;
      PrefixShift(snap, e, s);
      EntriesCons(items, s[|snap|..]);
    }
  }

  // ----- Capture as collect-then-record -----

  /** Every content item of `types`, in order: the pages of each type's listing, concatenated. */
  function CollectItems(baseUrl: string, net: Network, types: seq<string>): (Result<seq<Value>>, Network)
    decreases |types|
  {
    if types == [] then (Ok([]), net)
    else
      var (items, net1) := Paginate(baseUrl, net, Str(ItemsPath(types[0])));
      if items.Err? then (Err(items.error), net1)
      else Prepend(items.value, CollectItems(baseUrl, net1, types[1..]))
  }

  /** The content items a capture of `net` sees: those of every type the service lists. */
  function CapturedItems(baseUrl: string, net: Network): (Result<seq<Value>>, Network)
  {
    var (types, net1) := ContentTypes(baseUrl, net);
    if types.Err? then (Err(types.error), net1)
    else CollectItems(baseUrl, net1, types.value)
  }

  /**
   * A capture that succeeds has recorded, into the snapshot it started from, all the items
   * of all the content types in listing order, and made the same requests as collecting them.
   */
  lemma {:induction false} CaptureTypesRecordsCollected(baseUrl: string, net: Network, snap: Dict<Value>, types: seq<string>)
    requires CaptureTypes(baseUrl, net, snap, types).0.Ok?
    ensures CollectItems(baseUrl, net, types).0.Ok?
    ensures RecordItems(snap, CollectItems(baseUrl, net, types).0.value) == CaptureTypes(baseUrl, net, snap, types).0
    ensures CollectItems(baseUrl, net, types).1 == CaptureTypes(baseUrl, net, snap, types).1
    decreases |types|
  {
    if types == [] {
    } else {
      var (items, net1) := Paginate(baseUrl, net, Str(ItemsPath(types[0])));
      var recorded := RecordItems(snap, items.value);
      CaptureTypesRecordsCollected(baseUrl, net1, recorded.value, types[1..]);
      var rest := CollectItems(baseUrl, net1, types[1..]).0.value;
      RecordAppend(snap, items.value, rest);
    }
  }

  lemma CaptureRecordsCapturedItems(baseUrl: string, net: Network)
    requires Capture(baseUrl, net).0.Ok?
    ensures CapturedItems(baseUrl, net).0.Ok?
    ensures RecordItems([], CapturedItems(baseUrl, net).0.value) == Capture(baseUrl, net).0
    ensures CapturedItems(baseUrl, net).1 == Capture(baseUrl, net).1
  {
    var (types, net1) := ContentTypes(baseUrl, net);
    CaptureTypesRecordsCollected(baseUrl, net1, [], types.value);
  }

  // ----- Replay -----

  /** The PUT requests that write `data` back, one per entry, in order. */
  function Writes(baseUrl: string, data: Dict<Value>): (ws: seq<Request>)
    ensures |ws| == |data|
    ensures forall k :: 0 <= k < |data| ==> ws[k] == Request(PUT, ResolveUrl(baseUrl, data[k].0), Some(data[k].1))
  {
    seq(|data|, k requires 0 <= k < |data| => Request(PUT, ResolveUrl(baseUrl, data[k].0), Some(data[k].1)))
  }

  /** The PUT that writes the first entry of `data`. */
  function FirstWrite(baseUrl: string, data: Dict<Value>): Request
    requires data != []
  {
    Request(PUT, ResolveUrl(baseUrl, data[0].0), Some(data[0].1))
  }

  lemma WritesCons(baseUrl: string, data: Dict<Value>)
    requires data != []
    ensures Writes(baseUrl, data) == [FirstWrite(baseUrl, data)] + Writes(baseUrl, data[1..])
  {
  }

  /** An accepted first write: replay goes on with the rest of the snapshot. */
  lemma ReplayStep(baseUrl: string, net: Network, data: Dict<Value>)
    requires data != [] && net.replies != [] && Accepts(net.replies[0])
    ensures Replay(baseUrl, net, data)
         == Replay(baseUrl, Network(net.sent + [FirstWrite(baseUrl, data)], net.replies[1..]), data[1..])
  {
  }

  /** Every one of the first `n` replies accepts a write. */
  predicate AcceptsFirst(replies: seq<Response>, n: nat)
  {
    n <= |replies| && forall k :: 0 <= k < n ==> Accepts(replies[k])
  }

  lemma AcceptsTail(replies: seq<Response>, n: nat)
    requires n > 0 && AcceptsFirst(replies, n)
    ensures Accepts(replies[0]) && AcceptsFirst(replies[1..], n - 1)
  {
    forall k | 0 <= k < n - 1
      ensures Accepts(replies[1..][k])
    {
      assert replies[1..][k] == replies[k + 1];
    }
  }

  /** The network once every entry of `data` has been written and one reply consumed for each. */
  function Written(baseUrl: string, net: Network, data: Dict<Value>): Network
    requires |data| <= |net.replies|
  {
    Network(net.sent + Writes(baseUrl, data), net.replies[|data|..])
  }

  lemma WrittenNothing(baseUrl: string, net: Network)
    ensures Written(baseUrl, net, []) == net
  {
    assert net.sent + [] == net.sent;
    assert net.replies[0..] == net.replies;
  }

  /** Writing the first entry, then the rest, is writing them all. */
  lemma WrittenCons(baseUrl: string, net: Network, data: Dict<Value>)
    requires data != [] && |data| <= |net.replies|
    ensures Written(baseUrl, Network(net.sent + [FirstWrite(baseUrl, data)], net.replies[1..]), data[1..])
         == Written(baseUrl, net, data)
  {
    WritesCons(baseUrl, data);
    assert net.sent + [FirstWrite(baseUrl, data)] + Writes(baseUrl, data[1..]) == net.sent + Writes(baseUrl, data);
    assert net.replies[1..][|data| - 1..] == net.replies[|data|..];
  }

  /** When the service accepts every write, replay PUTs each entry's body at its key, in order. */
  lemma {:induction false} ReplayAccepted(baseUrl: string, net: Network, data: Dict<Value>)
    requires AcceptsFirst(net.replies, |data|)
    ensures Replay(baseUrl, net, data) == (Ok(()), Written(baseUrl, net, data))
    decreases |data|
  {
    if data == [] {
      WrittenNothing(baseUrl, net);
    } else {
      var net1 := Network(net.sent + [FirstWrite(baseUrl, data)], net.replies[1..]);
      AcceptsTail(net.replies, |data|);
      ReplayStep(baseUrl, net, data);
      ReplayAccepted(baseUrl, net1, data[1..]);
      WrittenCons(baseUrl, net, data);
    }
  }

  lemma WritesPrefixCons(baseUrl: string, sent: seq<Request>, data: Dict<Value>, n: nat)
    requires n < |data|
    ensures sent + [FirstWrite(baseUrl, data)] + Writes(baseUrl, data[1..][..n]) == sent + Writes(baseUrl, data[..n + 1])
  {
    assert data[1..][..n] == data[..n + 1][1..];
    WritesCons(baseUrl, data[..n + 1]);
  }

  /** A refused first write: replay stops with its error after that one request. */
  lemma ReplayRefused(baseUrl: string, net: Network, data: Dict<Value>)
    requires data != [] && net.replies != [] && !Accepts(net.replies[0])
    ensures Replay(baseUrl, net, data)
         == (Err(ToPython(Classify(net.replies[0])).error),
             Network(net.sent + Writes(baseUrl, data[..1]), net.replies[1..]))
  {
    assert Writes(baseUrl, data[..1]) == [FirstWrite(baseUrl, data)];
  }

  /**
   * The first write the service refuses ends the replay with that error; the later entries
   * are never sent.
   */
  lemma {:induction false} ReplayStopsAtFirstRefusal(baseUrl: string, net: Network, data: Dict<Value>, n: nat)
    requires n < |data| && n < |net.replies|
    requires AcceptsFirst(net.replies, n)
    requires !Accepts(net.replies[n])
    ensures Replay(baseUrl, net, data)
         == (Err(ToPython(Classify(net.replies[n])).error),
             Network(net.sent + Writes(baseUrl, data[..n + 1]), net.replies[n + 1..]))
    decreases n
  {
    if n == 0 {
      ReplayRefused(baseUrl, net, data);
    } else {
      var net1 := Network(net.sent + [FirstWrite(baseUrl, data)], net.replies[1..]);
      AcceptsTail(net.replies, n);
      ReplayStep(baseUrl, net, data);
      assert net1.replies[n - 1] == net.replies[n];
      ReplayStopsAtFirstRefusal(baseUrl, net1, data[1..], n - 1);
      WritesPrefixCons(baseUrl, net.sent, data, n);
      assert net1.replies[n..] == net.replies[n + 1..];
    }
  }

  // ----- Round trip -----

  /**
   * Capturing, then replaying the snapshot against a service that accepts every write: one
   * PUT per distinct captured id, in order of first appearance, whose body is the last item
   * with that id without its "id" field.
   */
  lemma CaptureThenReplay(baseUrl: string, net: Network, target: string, net2: Network)
    requires Capture(baseUrl, net).0.Ok?
    requires AcceptsFirst(net2.replies, |Capture(baseUrl, net).0.value|)
    ensures CapturedItems(baseUrl, net).0.Ok?
    ensures var s := Capture(baseUrl, net).0.value;
            var items := CapturedItems(baseUrl, net).0.value;
      && Replay(target, net2, s).0 == Ok(())
      && Replay(target, net2, s).1.sent == net2.sent + Writes(target, s)
      && Keys(s) == AddNew([], Ids(items))
      && forall k :: 0 <= k < |s| ==> LastBody(items, s[k].0) == Some(s[k].1)
  {
    var s := Capture(baseUrl, net).0.value;
    CaptureRecordsCapturedItems(baseUrl, net);
    var items := CapturedItems(baseUrl, net).0.value;
    ReplayAccepted(target, net2, s);
    RecordKeys([], items);
    RecordItemsUnique([], items);
    forall k | 0 <= k < |s|
      ensures LastBody(items, s[k].0) == Some(s[k].1)
    {
      RecordLookup([], items, s[k].0);
      LookupUnique(s, k);
    }
  }

  /** The PUTs that write `items` back one by one: each to its id, with the item without "id". */
  function ItemWrites(target: string, items: seq<Value>): (ws: seq<Request>)
    requires forall i :: 0 <= i < |items| ==> IdOf(items[i]).Some?
    ensures |ws| == |items|
    ensures forall i :: 0 <= i < |items| ==>
              items[i].Obj? && ws[i] == Request(PUT, ResolveUrl(target, IdOf(items[i]).value), Some(Obj(Delete(items[i].fields, "id"))))
  {
    seq(|items|, i requires 0 <= i < |items| && IdOf(items[i]).Some? =>
      Request(PUT, ResolveUrl(target, Entry(items[i]).value.0), Some(Entry(items[i]).value.1)))
  }

  /** Writing back the entries of `items` is writing back the items. */
  lemma WritesOfEntries(target: string, items: seq<Value>, s: Dict<Value>)
    requires EntriesOf(items, s)
    ensures forall i :: 0 <= i < |items| ==> IdOf(items[i]).Some?
    ensures Writes(target, s) == ItemWrites(target, items)
  {
    forall i | 0 <= i < |items|
      ensures IdOf(items[i]).Some?
    {
      assert Entry(items[i]) == Some(s[i]);
    }
  }

  /**
   * Replaying the snapshot of items with distinct ids, all writes accepted: the i-th PUT goes
   * to the i-th item's id and carries that item without "id".
   */
  lemma ReplayDistinctItems(items: seq<Value>, target: string, net2: Network)
    requires DistinctIds(items) && AcceptsFirst(net2.replies, |items|)
    ensures RecordItems([], items).Ok?
    ensures Replay(target, net2, RecordItems([], items).value).1.sent == net2.sent + ItemWrites(target, items)
  {
    RecordDistinct([], items);
    var s := RecordItems([], items).value;
    ReplayAccepted(target, net2, s);
    assert s[0..] == s;
    WritesOfEntries(target, items, s);
  }

  /**
   * With distinct ids, the round trip writes exactly the captured items, in capture order:
   * the i-th PUT goes to the i-th item's id and carries that item without "id".
   */
  lemma CaptureThenReplayDistinct(baseUrl: string, net: Network, target: string, net2: Network)
    requires Capture(baseUrl, net).0.Ok?
    requires CapturedItems(baseUrl, net).0.Ok? && DistinctIds(CapturedItems(baseUrl, net).0.value)
    requires AcceptsFirst(net2.replies, |CapturedItems(baseUrl, net).0.value|)
    ensures Replay(target, net2, Capture(baseUrl, net).0.value).1.sent
         == net2.sent + ItemWrites(target, CapturedItems(baseUrl, net).0.value)
  {
    CaptureRecordsCapturedItems(baseUrl, net);
    ReplayDistinctItems(CapturedItems(baseUrl, net).0.value, target, net2);
  }
}
