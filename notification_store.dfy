/**
 * The global notification store: at most one message and its kind.
 * A new message replaces the previous one (there is no queue); hiding clears
 * the message only.
 */
module NotificationStore {
  import opened Builtins

  datatype Kind = Success | Error

  datatype Banner = Banner(message: Option<string>, kind: Kind)

  const Initial := Banner(None, Success)

  /** `showNotification(message, type = 'success')`; an omitted type is `None`. */
  function Show(b: Banner, message: string, kind: Option<Kind>): (r: Banner)
    ensures r.message == Some(message)
    ensures kind.None? ==> r.kind == Success
    ensures kind.Some? ==> r.kind == kind.value
  {
    Banner(Some(message), kind.GetOr(Success))
  }

  function Hide(b: Banner): (r: Banner)
    ensures r.message.None? && r.kind == b.kind
  {
    b.(message := None)
  }

  /** Showing a message forgets everything shown before: the result depends only on the arguments. */
  lemma ShowOverwrites(b: Banner, c: Banner, message: string, kind: Option<Kind>)
    ensures Show(b, message, kind) == Show(c, message, kind)
    ensures Show(b, message, kind).message == Some(message)
  {
  }

  /** Without a type the message is shown as a success, even after an error. */
  lemma ShowDefaultsToSuccess(b: Banner, message: string)
    ensures Show(b, message, None).kind == Success
    ensures Show(b, message, Some(Error)).kind == Error
  {
  }

  /** Hiding keeps the kind; hiding twice is hiding once. */
  lemma HideKeepsKind(b: Banner)
    ensures Hide(b).message == None && Hide(b).kind == b.kind
    ensures Hide(Hide(b)) == Hide(b)
  {
  }

  /** The store. */
  class Store {
    var message: Option<string>
    var kind: Kind

    function State(): Banner
      reads this
    {
      Banner(message, kind)
    }

    /** No message, kind `'success'`. */
    constructor ()
      ensures State() == Initial
    {
      message := None;
      kind := Success;
    }

    method ShowNotification(m: string, t: Option<Kind>)
      modifies this
      ensures State() == Show(old(State()), m, t)
    {
      message, kind := Some(m), t.GetOr(Success);
    }

    method HideNotification()
      modifies this
      ensures State() == Hide(old(State()))
    {
      message := None;
    }
  }
}
