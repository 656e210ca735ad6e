/** The global toast list (src/app/services/toast.service.ts). Toast ids come from `Math.random` in the
    source; here the caller supplies them. Each auto-dismiss `setTimeout` becomes a pending timer that
    `DismissTimerFired` lets go off. */
module Toasts {
  import opened Seqs

  datatype ToastType = Success | Error | Info | Warning

  datatype Toast = Toast(id: string, message: string, kind: ToastType, duration: int)

  /** A scheduled `setTimeout(() => dismiss(id), delay)`. */
  datatype DismissTimer = DismissTimer(id: string, delay: int)

  /** The predicate of `toasts.filter(t => t.id !== id)`. */
  function OtherThan(id: string): Toast -> bool {
    (t: Toast) => t.id != id
  }

  /** The toast list after `dismiss(id)`. */
  function WithoutId(toasts: seq<Toast>, id: string): seq<Toast> {
    Filter(toasts, OtherThan(id))
  }

  /** `dismiss(id)` removes every toast with that id and keeps every other one. */
  lemma DismissRemovesExactly(toasts: seq<Toast>, id: string, t: Toast)
    ensures t in WithoutId(toasts, id) <==> t in toasts && t.id != id
  {
    FilterMembership(toasts, OtherThan(id), t);
  }

  /** `dismiss` keeps the surviving toasts in their order: it works piecewise on a split list. */
  lemma DismissKeepsOrder(front: seq<Toast>, back: seq<Toast>, id: string)
    ensures WithoutId(front + back, id) == WithoutId(front, id) + WithoutId(back, id)
  {
    FilterAppend(front, back, OtherThan(id));
  }

  /** Dismissing an id no toast carries changes nothing. */
  lemma DismissUnknownId(toasts: seq<Toast>, id: string)
    requires forall i :: 0 <= i < |toasts| ==> toasts[i].id != id
    ensures WithoutId(toasts, id) == toasts
  {
    FilterKeepsAll(toasts, OtherThan(id));
  }

  /** Dismissing the same id twice is dismissing it once. */
  lemma DismissIdempotent(toasts: seq<Toast>, id: string)
    ensures WithoutId(WithoutId(toasts, id), id) == WithoutId(toasts, id)
  {
    FilterIdempotent(toasts, OtherThan(id));
  }

  class ToastService {
    var toasts: seq<Toast>
    var timers: seq<DismissTimer>

    constructor ()
      ensures toasts == [] && timers == []
    {
      toasts, timers := [], [];
    }

    /** `show(message, type = 'info', duration = 4000)`: appends the toast, schedules its dismissal
        when `duration > 0`, and returns its id. */
    method Show(id: string, message: string, kind: ToastType := ToastType.Info, duration: int := 4000)
      returns (r: string)
      modifies this
      ensures r == id
      ensures toasts == old(toasts) + [Toast(id, message, kind, duration)]
      ensures timers == old(timers) + (if duration > 0 then [DismissTimer(id, duration)] else [])
    {
      toasts := toasts + [Toast(id, message, kind, duration)];
      if duration > 0 {
        timers := timers + [DismissTimer(id, duration)];
      }
      r := id;
    }

    method ShowSuccess(id: string, message: string, duration: int := 4000) returns (r: string)
      modifies this
      ensures r == id
      ensures toasts == old(toasts) + [Toast(id, message, ToastType.Success, duration)]
      ensures timers == old(timers) + (if duration > 0 then [DismissTimer(id, duration)] else [])
    {
      r := Show(id, message, ToastType.Success, duration);
    }

    method ShowError(id: string, message: string, duration: int := 6000) returns (r: string)
      modifies this
      ensures r == id
      ensures toasts == old(toasts) + [Toast(id, message, ToastType.Error, duration)]
      ensures timers == old(timers) + (if duration > 0 then [DismissTimer(id, duration)] else [])
    {
      r := Show(id, message, ToastType.Error, duration);
    }

    method ShowInfo(id: string, message: string, duration: int := 4000) returns (r: string)
      modifies this
      ensures r == id
      ensures toasts == old(toasts) + [Toast(id, message, ToastType.Info, duration)]
      ensures timers == old(timers) + (if duration > 0 then [DismissTimer(id, duration)] else [])
    {
      r := Show(id, message, ToastType.Info, duration);
    }

    method ShowWarning(id: string, message: string, duration: int := 5000) returns (r: string)
      modifies this
      ensures r == id
      ensures toasts == old(toasts) + [Toast(id, message, ToastType.Warning, duration)]
      ensures timers == old(timers) + (if duration > 0 then [DismissTimer(id, duration)] else [])
    {
      r := Show(id, message, ToastType.Warning, duration);
    }

    /** `dismiss(id)`. */
    method Dismiss(id: string)
      modifies this
      ensures toasts == WithoutId(old(toasts), id)
      ensures timers == old(timers)
    {
      toasts := WithoutId(toasts, id);
    }

    /** `dismissAll()`. */
    method DismissAll()
      modifies this
      ensures toasts == []
      ensures timers == old(timers)
    {
      toasts := [];
    }

    /** The `k`-th pending auto-dismiss timer goes off: it dismisses its id, whether or not that toast
        is still shown. An index with no pending timer changes nothing. */
    method DismissTimerFired(k: nat)
      modifies this
      ensures k < |old(timers)| ==>
                toasts == WithoutId(old(toasts), old(timers)[k].id)
                && timers == old(timers)[..k] + old(timers)[k + 1..]
      ensures k >= |old(timers)| ==> toasts == old(toasts) && timers == old(timers)
    {
      if k < |timers| {
        var id := timers[k].id;
        Dismiss(id);
        timers := timers[..k] + timers[k + 1..];
      }
    }
  }
}
