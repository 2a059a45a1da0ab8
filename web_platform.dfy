/**
 * The foreign services both pages call: `localStorage`, the Next.js router
 * and `react-hot-toast`. Each is reduced to the state it leaves behind, and
 * a ghost log records the state-changing calls (`setItem`, `router.push`,
 * `toast`) in the order the pages made them; reads through `getItem` are
 * not logged.
 */
module WebPlatform {
  import opened Wrappers

  /** The one storage key the application uses. */
  const SlotKey := "vd_user_openai_api_key"

  /** A notification shown with `toast.success` or `toast.error`. */
  datatype Toast = Success(message: string) | Error(message: string)

  /** One call into a foreign service, as recorded in the log. */
  datatype Effect =
    | Stored(key: string, value: string)
    | Navigated(path: string)
    | Notified(toast: Toast)

  /**
   * JavaScript truthiness of what `localStorage.getItem` returns: `null`
   * and the empty string are falsy, every other string is truthy.
   */
  predicate Truthy(v: Option<string>) {
    v.Some? && v.value != ""
  }

  /** `localStorage.getItem(key)` on the storage contents `m`. */
  function Lookup(m: map<string, string>, key: string): (v: Option<string>)
    ensures v.Some? <==> key in m
    ensures v.Some? ==> v.value == m[key]
  {
    if key in m then Some(m[key]) else None
  }

  class Browser {
    /** The origin's persisted key-value storage. */
    var storage: map<string, string>
    /** Target of the latest `router.push`, if any. */
    var navigatedTo: Option<string>
    /** The latest notification shown, if any. */
    var lastToast: Option<Toast>
    /** The state-changing foreign calls made (`setItem`, `router.push`, `toast`), oldest first; `getItem` reads are not logged. */
    ghost var log: seq<Effect>

    /** A fresh tab whose storage holds what earlier sessions persisted. */
    constructor (persisted: map<string, string>)
      ensures storage == persisted && navigatedTo == None && lastToast == None && log == []
    {
      storage := persisted;
      navigatedTo := None;
      lastToast := None;
      log := [];
    }

    function GetItem(key: string): (v: Option<string>)
      reads this
      ensures v.Some? <==> key in storage
      ensures v.Some? ==> v.value == storage[key]
    {
      Lookup(storage, key)
    }

    /** `localStorage.setItem`: there is no removal in this application. */
    method SetItem(key: string, value: string)
      modifies this`storage, this`log
      ensures storage == old(storage)[key := value]
      ensures log == old(log) + [Stored(key, value)]
    {
      storage := storage[key := value];
      log := log + [Stored(key, value)];
    }

    /** `router.push(path)`. */
    method Push(path: string)
      modifies this`navigatedTo, this`log
      ensures navigatedTo == Some(path)
      ensures log == old(log) + [Navigated(path)]
    {
      navigatedTo := Some(path);
      log := log + [Navigated(path)];
    }

    /** `toast.success` / `toast.error`. */
    method ShowToast(t: Toast)
      modifies this`lastToast, this`log
      ensures lastToast == Some(t)
      ensures log == old(log) + [Notified(t)]
    {
      lastToast := Some(t);
      log := log + [Notified(t)];
    }
  }

  /** Writing a key makes it readable and leaves every other key as it was. */
  lemma SetThenGet(m: map<string, string>, key: string, value: string, other: string)
    ensures Lookup(m[key := value], key) == Some(value)
    ensures other != key ==> Lookup(m[key := value], other) == Lookup(m, other)
  {
  }
}
