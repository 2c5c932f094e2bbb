/**
 * The notification context: a provider holding the list of toasts on screen, adding
 * one under a generated id and removing every toast with a given id; `show*` helpers
 * that fill in the type and message; and the hook that refuses to run outside a
 * provider.
 */
module Notifications {
  import opened Wrappers
  import opened ArrayMethods

  /**
   * The fields a caller passes in a notification or in `options`; a missing key is
   * `None`. `kind` is the `type` key.
   */
  datatype Payload = Payload(
    id: Option<string>,
    kind: Option<string>,
    message: Option<string>,
    autoClose: Option<bool>,
    autoCloseTime: Option<int>)

  /** A toast on screen. */
  datatype Notification = Notification(
    id: string,
    kind: Option<string>,
    message: Option<string>,
    autoClose: Option<bool>,
    autoCloseTime: Option<int>)

  const NoOptions := Payload(None, None, None, None, None)

  /**
   * `{ id, ...notification }`: the generated id, overridden by an `id` the payload
   * carries; every other key comes from the payload.
   */
  function Stored(payload: Payload, generatedId: string): (n: Notification)
    ensures payload.id.None? ==> n.id == generatedId
    ensures payload.id.Some? ==> n.id == payload.id.value
    ensures n.kind == payload.kind && n.message == payload.message
    ensures n.autoClose == payload.autoClose && n.autoCloseTime == payload.autoCloseTime
  {
    Notification(payload.id.GetOr(generatedId), payload.kind, payload.message, payload.autoClose, payload.autoCloseTime)
  }

  /** The keep-test of `removeNotification(id)`. */
  function NotWithId(id: string): Notification -> bool {
    (n: Notification) => n.id != id
  }

  /** `prev.filter(notification => notification.id !== id)`. */
  function Removed(notifications: seq<Notification>, id: string): seq<Notification> {
    Filter(notifications, NotWithId(id))
  }

  /** Removal drops exactly the toasts carrying the id. */
  lemma RemovedKeeps(notifications: seq<Notification>, id: string, n: Notification)
    ensures n in Removed(notifications, id) <==> n in notifications && n.id != id
  {
    FilterMembers(notifications, NotWithId(id), n);
  }

  /** Removing an id no toast carries leaves the list as it was. */
  lemma RemoveAbsent(notifications: seq<Notification>, id: string)
    requires forall k :: 0 <= k < |notifications| ==> notifications[k].id != id
    ensures Removed(notifications, id) == notifications
  {
    FilterKeepsAll(notifications, NotWithId(id));
  }

  /** Removal works on each part of the list separately, so the survivors keep their order. */
  lemma RemovedConcat(a: seq<Notification>, b: seq<Notification>, id: string)
    ensures Removed(a + b, id) == Removed(a, id) + Removed(b, id)
  {
    FilterConcat(a, b, NotWithId(id));
  }

  /**
   * Adding a payload without its own id under a generated id no toast carries, then
   * removing the id that `addNotification` returned, restores the list.
   */
  lemma AddThenRemove(notifications: seq<Notification>, payload: Payload, generatedId: string)
    requires payload.id.None?
    requires forall k :: 0 <= k < |notifications| ==> notifications[k].id != generatedId
    ensures Removed(notifications + [Stored(payload, generatedId)], generatedId) == notifications
  {
    RemovedConcat(notifications, [Stored(payload, generatedId)], generatedId);
    RemoveAbsent(notifications, generatedId);
    assert Removed([Stored(payload, generatedId)], generatedId) == [];
  }

  /**
   * A payload carrying its own id is stored under that id, yet `addNotification`
   * returns the generated one: removing the returned id then leaves the new toast on
   * screen.
   */
  lemma ReturnedIdMissesPayloadId(notifications: seq<Notification>, payload: Payload, generatedId: string)
    requires payload.id.Some? && payload.id.value != generatedId
    ensures Stored(payload, generatedId) in Removed(notifications + [Stored(payload, generatedId)], generatedId)
  {
    RemovedKeeps(notifications + [Stored(payload, generatedId)], generatedId, Stored(payload, generatedId));
  }

  /** `{ type, message, ...options }`: a key present in `options` wins. */
  function WithDefaults(kind: string, message: string, options: Payload): (p: Payload)
    ensures p.id == options.id && p.autoClose == options.autoClose && p.autoCloseTime == options.autoCloseTime
    ensures p.kind == if options.kind.Some? then options.kind else Some(kind)
    ensures p.message == if options.message.Some? then options.message else Some(message)
  {
    Payload(options.id,
            if options.kind.Some? then options.kind else Some(kind),
            if options.message.Some? then options.message else Some(message),
            options.autoClose, options.autoCloseTime)
  }

  /** Without options a helper's toast carries its own type and the message given. */
  lemma HelperDefaults(kind: string, message: string, generatedId: string)
    ensures Stored(WithDefaults(kind, message, NoOptions), generatedId) ==
      Notification(generatedId, Some(kind), Some(message), None, None)
  {
  }

  const OutsideProvider := "useNotification must be used within a NotificationProvider"

  /** `useNotification`: the provider's value, or the error it throws when there is none. */
  function UseNotification<C>(context: Option<C>): (r: Result<C, string>)
    ensures context.Some? <==> r.Success?
    ensures context.Some? ==> r.value == context.value
    ensures context.None? ==> r.error == OutsideProvider
  {
    match context
    case Some(c) => Success(c)
    case None => Failure(OutsideProvider)
  }

  class NotificationProvider {
    var notifications: seq<Notification>

    constructor ()
      ensures notifications == []
    {
      notifications := [];
    }

    /**
     * `addNotification`: one toast appended at the end, every earlier toast unchanged;
     * the generated id is returned whatever id the toast was stored under.
     */
    method AddNotification(payload: Payload, generatedId: string) returns (id: string)
      modifies this
      ensures id == generatedId
      ensures |notifications| == |old(notifications)| + 1
      ensures notifications[..|old(notifications)|] == old(notifications)
      ensures notifications[|old(notifications)|] == Stored(payload, generatedId)
    {
      notifications := notifications + [Stored(payload, generatedId)];
      id := generatedId;
    }

    /** `removeNotification`: the toasts without that id, in order. */
    method RemoveNotification(id: string)
      modifies this
      ensures notifications == Removed(old(notifications), id)
    {
      notifications := Removed(notifications, id);
    }

    method ShowSuccess(message: string, options: Payload, generatedId: string) returns (id: string)
      modifies this
      ensures id == generatedId
      ensures notifications == old(notifications) + [Stored(WithDefaults("success", message, options), generatedId)]
    {
      id := AddNotification(WithDefaults("success", message, options), generatedId);
    }

    method ShowError(message: string, options: Payload, generatedId: string) returns (id: string)
      modifies this
      ensures id == generatedId
      ensures notifications == old(notifications) + [Stored(WithDefaults("error", message, options), generatedId)]
    {
      id := AddNotification(WithDefaults("error", message, options), generatedId);
    }

    method ShowWarning(message: string, options: Payload, generatedId: string) returns (id: string)
      modifies this
      ensures id == generatedId
      ensures notifications == old(notifications) + [Stored(WithDefaults("warning", message, options), generatedId)]
    {
      id := AddNotification(WithDefaults("warning", message, options), generatedId);
    }

    method ShowInfo(message: string, options: Payload, generatedId: string) returns (id: string)
      modifies this
      ensures id == generatedId
      ensures notifications == old(notifications) + [Stored(WithDefaults("info", message, options), generatedId)]
    {
      id := AddNotification(WithDefaults("info", message, options), generatedId);
    }
  }
}
