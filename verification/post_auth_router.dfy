/**
 The destination chosen once two-factor authentication succeeds
 (`TwoFactorAuthAsync`). The first matching rule wins: an autofill-framework
 entry with a save type goes to the add/edit page; otherwise an entry with a
 URI goes to the autofill cipher list; otherwise the stored previous-page
 record is read, removed if it was present, and the tabs page is opened with
 it. The storage service is a map from keys to records, and every call made
 to it is logged. The record type `P` is left abstract.
 */
module PostAuthRouter {
  import opened Wrappers

  /** The key under which the previous-page record is stored
      (`Constants.PreviousPageKey`). */
  const PreviousPageKey: string := "previousPage"

  /** The entry context fields the router reads. `saveType` is the numeric
      value of the optional save-type enum; `None` is a null `Uri`. */
  datatype AppOptions = AppOptions(fromAutofillFramework: bool, saveType: Option<int>, uri: Option<string>)

  /** The page that becomes the main page, with what it is constructed from. */
  datatype Destination<P> =
    | AddEdit(options: AppOptions)
    | AutofillCiphers(options: AppOptions)
    | Tabs(appOptions: Option<AppOptions>, previousPage: Option<P>)

  /** A call made to the storage service. */
  datatype StorageCall = Get(key: string) | Remove(key: string)

  /** The destination, the storage calls in order, and the storage afterwards. */
  datatype Routed<P> = Routed(destination: Destination<P>, calls: seq<StorageCall>, store: map<string, P>)

  /** `GetAsync` on an absent key gives null. */
  function Lookup<P>(store: map<string, P>, key: string): (r: Option<P>)
    ensures r.Some? <==> key in store
    ensures r.Some? ==> r.value == store[key]
  {
    if key in store then Some(store[key]) else None
  }

  /** The rule that sends the user back to the item being saved. */
  predicate SavesItem(o: AppOptions) {
    o.fromAutofillFramework && o.saveType.Some?
  }

  /** `TwoFactorAuthAsync`. */
  function Route<P>(options: Option<AppOptions>, store: map<string, P>): (r: Routed<P>)
    ensures options.Some? && SavesItem(options.value) ==>
              r == Routed(AddEdit(options.value), [], store)
    ensures options.Some? && !SavesItem(options.value) && options.value.uri.Some? ==>
              r == Routed(AutofillCiphers(options.value), [], store)
    ensures options.None? || (!SavesItem(options.value) && options.value.uri.None?) ==>
              && r.destination == Tabs(options, Lookup(store, PreviousPageKey))
              && r.calls == [Get(PreviousPageKey)] + (if PreviousPageKey in store then [Remove(PreviousPageKey)] else [])
              && r.store == store - {PreviousPageKey}
  {
    if options.Some? && options.value.fromAutofillFramework && options.value.saveType.Some? then
      Routed(AddEdit(options.value), [], store)
    else if options.Some? && options.value.uri.Some? then
      Routed(AutofillCiphers(options.value), [], store)
    else
      var previousPage := Lookup(store, PreviousPageKey);
      if previousPage.Some? then
        Routed(Tabs(options, previousPage), [Get(PreviousPageKey), Remove(PreviousPageKey)], store - {PreviousPageKey})
      else
        Routed(Tabs(options, previousPage), [Get(PreviousPageKey)], store)
  }

  /** The add/edit rule wins over the URI rule: with a save type from the
      autofill framework, the URI is never looked at. */
  lemma SaveTypeBeatsUri<P>(o: AppOptions, u: Option<string>, store: map<string, P>)
    requires SavesItem(o)
    ensures Route(Some(o.(uri := u)), store) == Routed(AddEdit(o.(uri := u)), [], store)
  {
  }

  /** Storage is only touched on the fallback: the first two rules neither read
      nor change it. The fallback reads the key exactly once and removes it iff
      the read found a record; no other key is affected. */
  lemma StorageTouchedOnlyOnFallback<P>(options: Option<AppOptions>, store: map<string, P>)
    ensures Route(options, store).destination.Tabs? <==> Get(PreviousPageKey) in Route(options, store).calls
    ensures Route(options, store).destination.Tabs? ==> Route(options, store).calls[0] == Get(PreviousPageKey)
    ensures Remove(PreviousPageKey) in Route(options, store).calls <==>
              Route(options, store).destination.Tabs? && Route(options, store).destination.previousPage.Some?
    ensures forall k :: k != PreviousPageKey ==>
              (k in Route(options, store).store <==> k in store)
    ensures forall k :: k != PreviousPageKey && k in store ==> Route(options, store).store[k] == store[k]
  {
  }

  /** The record is consumed: routing again from the storage the fallback left
      behind still goes to the tabs page, but finds no record and removes
      nothing. */
  lemma PreviousPageReadOnce<P>(options: Option<AppOptions>, store: map<string, P>)
    requires Route(options, store).destination.Tabs?
    ensures Route(options, Route(options, store).store).destination == Tabs(options, None)
    ensures Route(options, Route(options, store).store).calls == [Get(PreviousPageKey)]
    ensures Route(options, Route(options, store).store).store == Route(options, store).store
  {
  }
}
