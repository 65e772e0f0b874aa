/** The toast notification list of the toast provider. */
module ToastContext {
  import opened Seqs
  import opened Types

  function ToastId(t: ToastMessage): string { t.id }

  /** `showToast`: appends one toast; `id` is the `Date.now()` reading, and the type defaults to info. */
  function ShowToast(toasts: seq<ToastMessage>, message: string, id: string, kind: ToastType := Info): (r: seq<ToastMessage>)
    ensures |r| == |toasts| + 1
    ensures r[..|toasts|] == toasts
    ensures r[|toasts|] == ToastMessage(id, message, kind)
  {
    toasts + [ToastMessage(id, message, kind)]
  }

  /** `removeToast`, and the four-second auto-dismiss: drops every toast with the id, keeping the others in order. */
  function RemoveToast(toasts: seq<ToastMessage>, id: string): (r: seq<ToastMessage>)
    ensures forall t :: t in r <==> t in toasts && t.id != id
    ensures (forall i :: 0 <= i < |toasts| ==> toasts[i].id != id) ==> r == toasts
  {
    FilterByKey(toasts, ToastId, id, false)
  }

  /** Dismissal keeps the other toasts in their order, duplicates included: each toast either
      stays, between the survivors before and after it, or is dropped because it has the id. */
  lemma RemoveToastKeepsOrder(before: seq<ToastMessage>, t: ToastMessage, after: seq<ToastMessage>, id: string)
    ensures RemoveToast(before + [t] + after, id) ==
      RemoveToast(before, id) + (if t.id != id then [t] else []) + RemoveToast(after, id)
  {
    FilterByKeySplit(before, t, after, ToastId, id, false);
  }

  /** Without a type, a toast is an info toast. */
  lemma ShowToastDefaultsToInfo(toasts: seq<ToastMessage>, message: string, id: string)
    ensures ShowToast(toasts, message, id)[|toasts|].kind == Info
  {
  }

  /** The auto-dismiss of a toast removes exactly what showing it added, when its id was fresh. */
  lemma DismissUndoesShow(toasts: seq<ToastMessage>, message: string, id: string, kind: ToastType)
    requires forall i :: 0 <= i < |toasts| ==> toasts[i].id != id
    ensures RemoveToast(ShowToast(toasts, message, id, kind), id) == toasts
  {
    FilterByKeyConcat(toasts, [ToastMessage(id, message, kind)], ToastId, id, false);
  }

  /** Dismissing a toast that was already closed by hand changes nothing. */
  lemma RemoveToastIdempotent(toasts: seq<ToastMessage>, id: string)
    ensures RemoveToast(RemoveToast(toasts, id), id) == RemoveToast(toasts, id)
  {
    FilterByKeyIdempotent(toasts, ToastId, id, false);
  }
}
