/**
 * Listener records of one channel (`_addEL.message`, `_addEL.internal`)
 * and what the channel does with them: removal by object identity, lookup
 * by callback, and the replay-window filter of `listenerFn`.
 */
module Listeners {
  import opened Common

  /** The two event categories a channel keeps listener lists for. */
  datatype Category = Message | Internal

  /** Identity of a callback function (JavaScript `===` on functions). */
  type Fn = nat

  /**
   * A `listenObj`. `obj` is its object identity (every registration
   * allocates a fresh object), `time` the microsecond timestamp taken when
   * it was registered.
   */
  datatype Listener = Listener(obj: nat, time: int, fn: Fn)

  /** `hundredMsInMicro`: the backward tolerance of the replay window. */
  const HUNDRED_MS_IN_MICRO: int := 100 * 1000

  /** `msgObj.time >= listenerObject.time - hundredMsInMicro`. */
  predicate Accepts(l: Listener, sentAt: int) {
    sentAt >= l.time - HUNDRED_MS_IN_MICRO
  }

  /** The listeners `listenerFn` invokes, in list order, for a message stamped `sentAt`. */
  function Dispatch(ls: seq<Listener>, sentAt: int): (r: seq<Listener>)
    ensures |r| <= |ls|
    ensures forall l :: l in r <==> l in ls && Accepts(l, sentAt)
  {
    if ls == [] then []
    else (if Accepts(ls[0], sentAt) then [ls[0]] else []) + Dispatch(ls[1..], sentAt)
  }

  /**
   * Dispatch walks the list front to back: the invocations for a list are
   * those for its first part followed by those for the rest. With the
   * membership clause of `Dispatch` this pins it down as the in-order filter.
   */
  lemma {:induction false} DispatchAppend(a: seq<Listener>, b: seq<Listener>, sentAt: int)
    ensures Dispatch(a + b, sentAt) == Dispatch(a, sentAt) + Dispatch(b, sentAt)
  {
    if a == [] {
      assert a + b == b;
    } else {
      assert (a + b)[1..] == a[1..] + b;
      DispatchAppend(a[1..], b, sentAt);
    }
  }

  /** The window boundary: a message stamped exactly 100 000 µs before registration is delivered, one more µs earlier is not. */
  lemma DispatchWindowBoundary(l: Listener)
    ensures Dispatch([l], l.time - HUNDRED_MS_IN_MICRO) == [l]
    ensures Dispatch([l], l.time - HUNDRED_MS_IN_MICRO - 1) == []
  {
  }

  /** Drops the listener objects whose identity is `obj`, keeping the rest in order (src/broadcast-channel.js:241). */
  function RemoveObject(ls: seq<Listener>, obj: nat): (r: seq<Listener>)
    ensures |r| <= |ls|
    ensures forall l :: l in r <==> l in ls && l.obj != obj
    ensures (forall i :: 0 <= i < |ls| ==> ls[i].obj != obj) ==> r == ls
  {
    if ls == [] then []
    else (if ls[0].obj != obj then [ls[0]] else []) + RemoveObject(ls[1..], obj)
  }

  /** No two entries are the same object. */
  predicate UniqueObjs(ls: seq<Listener>) {
    forall i, j :: 0 <= i < j < |ls| ==> ls[i].obj != ls[j].obj
  }

  /** No object sits in both lists. */
  predicate DisjointObjs(a: seq<Listener>, b: seq<Listener>) {
    forall x, y :: x in a && y in b ==> x.obj != y.obj
  }

  /** The tail of a list without repeated objects has none either. */
  lemma UniqueTail(ls: seq<Listener>)
    requires UniqueObjs(ls) && ls != []
    ensures UniqueObjs(ls[1..])
  {
    forall i, j | 0 <= i < j < |ls[1..]| ensures ls[1..][i].obj != ls[1..][j].obj {
      assert ls[1..][i] == ls[i + 1] && ls[1..][j] == ls[j + 1];
    }
  }

  /** Removing by identity keeps a list free of repeated objects. */
  lemma {:induction false} RemoveObjectUnique(ls: seq<Listener>, obj: nat)
    requires UniqueObjs(ls)
    ensures UniqueObjs(RemoveObject(ls, obj))
  {
    if ls != [] {
      var rest := ls[1..];
      UniqueTail(ls);
      RemoveObjectUnique(rest, obj);
      var tail := RemoveObject(rest, obj);
      if ls[0].obj != obj {
        var r := [ls[0]] + tail;
        forall i, j | 0 <= i < j < |r| ensures r[i].obj != r[j].obj {
          if i == 0 {
            assert r[j] == tail[j - 1] && tail[j - 1] in tail;
            assert r[j] in rest;
            var k :| 0 <= k < |rest| && rest[k] == r[j];
            assert rest[k] == ls[k + 1];
          } else {
            assert r[i] == tail[i - 1] && r[j] == tail[j - 1];
          }
        }
      }
    }
  }

  /** With unique objects, the object at the head occurs nowhere in the tail. */
  lemma HeadNotInTail(ls: seq<Listener>)
    requires UniqueObjs(ls) && ls != []
    ensures RemoveObject(ls, ls[0].obj) == ls[1..]
  {
    forall k | 0 <= k < |ls[1..]| ensures ls[1..][k].obj != ls[0].obj {
      assert ls[1..][k] == ls[k + 1];
    }
  }

  /** Removal when the head is kept. */
  lemma RemoveKeepsHead(ls: seq<Listener>, obj: nat)
    requires ls != [] && ls[0].obj != obj
    ensures RemoveObject(ls, obj) == [ls[0]] + RemoveObject(ls[1..], obj)
  {
  }

  /** With unique objects, removing the object found at position `i` deletes exactly that entry. */
  lemma {:induction false} RemoveUniqueAt(ls: seq<Listener>, i: nat)
    requires UniqueObjs(ls) && i < |ls|
    ensures RemoveObject(ls, ls[i].obj) == ls[..i] + ls[i + 1..]
  {
    if i == 0 {
      HeadNotInTail(ls);
      assert ls[..0] + ls[1..] == ls[1..];
    } else {
      var rest := ls[1..];
      var o := ls[i].obj;
      UniqueTail(ls);
      assert rest[i - 1] == ls[i];
      RemoveUniqueAt(rest, i - 1);
      assert ls[0].obj != o;
      RemoveKeepsHead(ls, o);
      SpliceCons(ls, i);
    }
  }

  lemma SpliceCons(ls: seq<Listener>, i: nat)
    requires 0 < i < |ls|
    ensures ls[..i] + ls[i + 1..] == [ls[0]] + (ls[1..][..i - 1] + ls[1..][i..])
  {
    assert ls[..i] == [ls[0]] + ls[1..][..i - 1];
    assert ls[i + 1..] == ls[1..][i..];
  }

  function FnIs(fn: Fn): Listener -> bool {
    (l: Listener) => l.fn == fn
  }

  /**
   * Looking up the first listener whose callback is `fn` and then removing
   * that object (src/broadcast-channel.js:150-151): with unique objects,
   * exactly the first registration of `fn` goes, and an unregistered `fn`
   * leaves the list as it was.
   */
  lemma RemoveFirstByFn(ls: seq<Listener>, fn: Fn)
    requires UniqueObjs(ls)
    ensures FirstIndex(ls, FnIs(fn)).Some? ==>
              var i := FirstIndex(ls, FnIs(fn)).value;
              RemoveObject(ls, ls[i].obj) == ls[..i] + ls[i + 1..] && ls[i].fn == fn &&
              forall j :: 0 <= j < i ==> ls[j].fn != fn
    ensures FirstIndex(ls, FnIs(fn)).None? ==> forall l :: l in ls ==> l.fn != fn
  {
    match FirstIndex(ls, FnIs(fn))
    case Some(i) =>
      RemoveUniqueAt(ls, i);
    case None =>
      forall l | l in ls ensures l.fn != fn {
        var k :| 0 <= k < |ls| && ls[k] == l;
        assert !FnIs(fn)(ls[k]);
      }
  }
}
