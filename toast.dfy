/**
 * The toast list shared by the whole application: an append-only id counter and a
 * list of toasts that can be removed by id, expire after their duration, or be
 * cleared all at once.
 */
module Toasts {
  import opened Common

  datatype ToastType = Success | Error | Warning | Info

  datatype Toast = Toast(id: nat, kind: ToastType, message: string, duration: int)

  /** A toast some other part of the application asks to show: its kind and message. */
  datatype Notice = Notice(kind: ToastType, message: string)

  const DefaultType: ToastType := Info
  const DefaultDuration: int := 4000

  /** Ids strictly increase along the list, so no id occurs twice. */
  ghost predicate IdsIncreasing(ts: seq<Toast>) {
    forall i, j :: 0 <= i < j < |ts| ==> ts[i].id < ts[j].id
  }

  /** `findIndex(t => t.id === id)`: the first position holding `id`, or -1. */
  function IndexOfId(ts: seq<Toast>, id: nat): (r: int)
    ensures -1 <= r < |ts|
    ensures r >= 0 ==> ts[r].id == id && forall k :: 0 <= k < r ==> ts[k].id != id
    ensures r == -1 <==> forall k :: 0 <= k < |ts| ==> ts[k].id != id
    decreases |ts|
  {
    if ts == [] then -1
    else if ts[0].id == id then 0
    else
      var r := IndexOfId(ts[1..], id);
      if r == -1 then -1 else r + 1
  }

  /** The reference meaning of removing by id: every toast with another id, in the same order. */
  function Without(ts: seq<Toast>, id: nat): (r: seq<Toast>)
    ensures |r| <= |ts|
    ensures forall k :: 0 <= k < |r| ==> r[k].id != id
    decreases |ts|
  {
    if ts == [] then []
    else (if ts[0].id == id then [] else [ts[0]]) + Without(ts[1..], id)
  }

  /** `splice(index, 1)` at the found index (nothing when it is -1). */
  function RemoveAt(ts: seq<Toast>, index: int): (r: seq<Toast>)
    requires -1 <= index < |ts|
  {
    if index > -1 then ts[..index] + ts[index + 1..] else ts
  }

  /** A found index is dropped and every later toast moves down one place; -1 leaves the list as it is. */
  lemma RemoveAtDrops(ts: seq<Toast>, index: int)
    requires -1 <= index < |ts|
    ensures index == -1 ==> RemoveAt(ts, index) == ts
    ensures index > -1 ==> |RemoveAt(ts, index)| == |ts| - 1
    ensures index > -1 ==> forall k :: 0 <= k < |ts| - 1 ==>
      RemoveAt(ts, index)[k] == (if k < index then ts[k] else ts[k + 1])
  {
  }

  /** With distinct ids, splicing out the found index is exactly dropping the toast with that id. */
  lemma {:induction false} RemoveByIdIsWithout(ts: seq<Toast>, id: nat)
    requires IdsIncreasing(ts)
    ensures RemoveAt(ts, IndexOfId(ts, id)) == Without(ts, id)
    decreases |ts|
  {
    if ts != [] {
      var rest := ts[1..];
      IncreasingTail(ts);
      RemoveByIdIsWithout(rest, id);
      if ts[0].id == id {
        IncreasingHeadUnique(ts);
        WithoutAbsent(rest, id);
      } else {
        var r := IndexOfId(rest, id);
        if r != -1 {
          RemoveAtCons(ts, r);
        }
      }
    }
  }

  lemma IncreasingTail(ts: seq<Toast>)
    requires ts != [] && IdsIncreasing(ts)
    ensures IdsIncreasing(ts[1..])
  {
    forall i, j | 0 <= i < j < |ts| - 1 ensures ts[1..][i].id < ts[1..][j].id {
      assert ts[1..][i] == ts[i + 1] && ts[1..][j] == ts[j + 1];
    }
  }

  lemma IncreasingHeadUnique(ts: seq<Toast>)
    requires ts != [] && IdsIncreasing(ts)
    ensures forall k :: 0 <= k < |ts[1..]| ==> ts[1..][k].id != ts[0].id
  {
    forall k | 0 <= k < |ts[1..]| ensures ts[1..][k].id != ts[0].id {
      assert ts[1..][k] == ts[k + 1];
    }
  }

  /** Splicing behind the head is splicing the tail. */
  lemma RemoveAtCons(ts: seq<Toast>, r: nat)
    requires r + 1 < |ts|
    ensures RemoveAt(ts, r + 1) == [ts[0]] + RemoveAt(ts[1..], r)
  {
    assert ts[..r + 1] == [ts[0]] + ts[1..][..r];
    assert ts[r + 2..] == ts[1..][r + 1..];
  }

  /** Removing an id that no toast has leaves the list as it is. */
  lemma {:induction false} WithoutAbsent(ts: seq<Toast>, id: nat)
    requires forall k :: 0 <= k < |ts| ==> ts[k].id != id
    ensures Without(ts, id) == ts
    decreases |ts|
  {
    if ts != [] {
      WithoutAbsent(ts[1..], id);
    }
  }

  /** Dropping an id removes exactly the toasts with that id. */
  lemma {:induction false} WithoutMembers(ts: seq<Toast>, id: nat)
    ensures forall t :: t in Without(ts, id) <==> t in ts && t.id != id
    decreases |ts|
  {
    if ts != [] {
      WithoutMembers(ts[1..], id);
      assert ts == [ts[0]] + ts[1..];
    }
  }

  /** A toast in front of a list of larger ids keeps the ids increasing. */
  lemma ConsIncreasing(x: Toast, w: seq<Toast>)
    requires IdsIncreasing(w)
    requires forall t :: t in w ==> x.id < t.id
    ensures IdsIncreasing([x] + w)
  {
    var xw := [x] + w;
    forall i, j | 0 <= i < j < |xw| ensures xw[i].id < xw[j].id {
      assert xw[j] == w[j - 1];
      if i > 0 {
        assert xw[i] == w[i - 1];
      } else {
        assert w[j - 1] in w;
      }
    }
  }

  /** Dropping an id keeps the remaining toasts' ids increasing and removes every toast with that id. */
  lemma {:induction false} WithoutKeepsOrder(ts: seq<Toast>, id: nat)
    requires IdsIncreasing(ts)
    ensures IdsIncreasing(Without(ts, id))
    ensures forall t :: t in Without(ts, id) <==> t in ts && t.id != id
    decreases |ts|
  {
    WithoutMembers(ts, id);
    if ts != [] {
      IncreasingTail(ts);
      WithoutKeepsOrder(ts[1..], id);
      if ts[0].id != id {
        var rest := Without(ts[1..], id);
        forall t | t in rest ensures ts[0].id < t.id {
          var k :| 0 <= k < |ts[1..]| && ts[1..][k] == t;
          assert ts[k + 1] == t;
        }
        ConsIncreasing(ts[0], rest);
      }
    }
  }

  /** The module-level state of `useToast`: one instance is shared by every caller. */
  class ToastStore {
    var toasts: seq<Toast>
    var nextId: nat
    /** Ids whose auto-removal timeout is set and has not fired yet. */
    var timers: set<nat>

    ghost predicate Valid()
      reads this
    {
      && nextId >= 1
      && IdsIncreasing(toasts)
      && (forall k :: 0 <= k < |toasts| ==> toasts[k].id < nextId)
      && (forall id :: id in timers ==> id < nextId)
    }

    constructor ()
      ensures Valid()
      ensures toasts == [] && nextId == 1 && timers == {}
    {
      toasts := [];
      nextId := 1;
      timers := {};
    }

    /**
     * `show(message, type, duration)`: appends a toast with the next id and returns
     * that id; an absent type is 'info' and an absent duration 4000; a positive
     * duration sets the auto-removal timeout.
     */
    method Show(message: string, kind: Option<ToastType>, duration: Option<int>) returns (id: nat)
      requires Valid()
      modifies this
      ensures Valid()
      ensures id == old(nextId) && nextId == old(nextId) + 1
      ensures toasts == old(toasts) + [Toast(id, kind.GetOr(DefaultType), message, duration.GetOr(DefaultDuration))]
      ensures timers == if duration.GetOr(DefaultDuration) > 0 then old(timers) + {id} else old(timers)
      ensures forall k :: 0 <= k < |old(toasts)| ==> old(toasts)[k].id < id
    {
      var d := duration.GetOr(DefaultDuration);
      id := nextId;
      nextId := nextId + 1;
      toasts := toasts + [Toast(id, kind.GetOr(DefaultType), message, d)];
      if d > 0 {
        timers := timers + {id};
      }
    }

    /** `remove(id)`: deletes the toast with that id, keeping the others in order; nothing for an unknown id. */
    method Remove(id: nat)
      requires Valid()
      modifies this`toasts
      ensures Valid()
      ensures toasts == Without(old(toasts), id)
      ensures (forall k :: 0 <= k < |old(toasts)| ==> old(toasts)[k].id != id) ==> toasts == old(toasts)
    {
      var index := IndexOfId(toasts, id);
      RemoveByIdIsWithout(toasts, id);
      WithoutKeepsOrder(toasts, id);
      if index > -1 {
        toasts := toasts[..index] + toasts[index + 1..];
      }
      if index == -1 {
        WithoutAbsent(old(toasts), id);
      }
      forall k | 0 <= k < |toasts| ensures toasts[k].id < nextId {
        assert toasts[k] in old(toasts);
      }
    }

    /** The auto-removal timeout of `id` fires: exactly `remove(id)`. */
    method Expire(id: nat)
      requires Valid()
      modifies this`toasts, this`timers
      ensures Valid()
      ensures id in old(timers) ==> toasts == Without(old(toasts), id) && timers == old(timers) - {id}
      ensures id !in old(timers) ==> toasts == old(toasts) && timers == old(timers)
    {
      if id !in timers {
        return;
      }
      timers := timers - {id};
      Remove(id);
    }

    method ShowSuccess(message: string, duration: Option<int>) returns (id: nat)
      requires Valid()
      modifies this
      ensures Valid()
      ensures id == old(nextId) && nextId == old(nextId) + 1
      ensures toasts == old(toasts) + [Toast(id, Success, message, duration.GetOr(DefaultDuration))]
      ensures timers == if duration.GetOr(DefaultDuration) > 0 then old(timers) + {id} else old(timers)
    {
      id := Show(message, Some(Success), duration);
    }

    method ShowError(message: string, duration: Option<int>) returns (id: nat)
      requires Valid()
      modifies this
      ensures Valid()
      ensures id == old(nextId) && nextId == old(nextId) + 1
      ensures toasts == old(toasts) + [Toast(id, Error, message, duration.GetOr(DefaultDuration))]
      ensures timers == if duration.GetOr(DefaultDuration) > 0 then old(timers) + {id} else old(timers)
    {
      id := Show(message, Some(Error), duration);
    }

    method ShowWarning(message: string, duration: Option<int>) returns (id: nat)
      requires Valid()
      modifies this
      ensures Valid()
      ensures id == old(nextId) && nextId == old(nextId) + 1
      ensures toasts == old(toasts) + [Toast(id, Warning, message, duration.GetOr(DefaultDuration))]
      ensures timers == if duration.GetOr(DefaultDuration) > 0 then old(timers) + {id} else old(timers)
    {
      id := Show(message, Some(Warning), duration);
    }

    method ShowInfo(message: string, duration: Option<int>) returns (id: nat)
      requires Valid()
      modifies this
      ensures Valid()
      ensures id == old(nextId) && nextId == old(nextId) + 1
      ensures toasts == old(toasts) + [Toast(id, Info, message, duration.GetOr(DefaultDuration))]
      ensures timers == if duration.GetOr(DefaultDuration) > 0 then old(timers) + {id} else old(timers)
    {
      id := Show(message, Some(Info), duration);
    }

    /** Posts a notice produced elsewhere (an error handler, a store action) with the default duration. */
    method Post(notice: Notice) returns (id: nat)
      requires Valid()
      modifies this
      ensures Valid()
      ensures id == old(nextId) && nextId == old(nextId) + 1
      ensures toasts == old(toasts) + [Toast(id, notice.kind, notice.message, DefaultDuration)]
      ensures timers == old(timers) + {id}
    {
      id := Show(notice.message, Some(notice.kind), None);
    }

    /** `clear()`: empties the list; the id counter is not reset, so later ids stay fresh. */
    method Clear()
      requires Valid()
      modifies this`toasts
      ensures Valid()
      ensures toasts == [] && nextId == old(nextId)
    {
      toasts := [];
    }
  }

  /** Three successive toasts get three distinct ids and keep their insertion order. */
  method ThreeToasts(store: ToastStore)
    requires store.Valid() && store.toasts == []
    modifies store
    ensures store.Valid()
    ensures |store.toasts| == 3
    ensures store.toasts[0].kind == Success && store.toasts[1].kind == Error && store.toasts[2].kind == Warning
    ensures store.toasts[0].id < store.toasts[1].id < store.toasts[2].id
  {
    var a := store.ShowSuccess("Success", None);
    var b := store.ShowError("Error", None);
    var c := store.ShowWarning("Warning", None);
  }
}
