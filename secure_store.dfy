/** The device's secure key-value store (expo-secure-store) with the four keys the
    app uses, and a log of every effect the core has on the outside world. */
module SecureStore {
  import opened Wrappers
  import opened Transport

  const UserNameKey: string := "userName"
  const RawPasswordKey: string := "rawPassword"
  const AccessTokenKey: string := "accessToken"
  const RefreshTokenKey: string := "refreshToken"

  /** The store's contents: key to stored string. A key that is absent reads as `null`. */
  type Items = map<string, string>

  /** `getItemAsync(key)`: the stored string, or `None` for `null`. */
  function Get(items: Items, key: string): Option<string>
  {
    if key in items then Some(items[key]) else None
  }

  /** JavaScript truthiness of a `string | null`: `null` and `""` are falsy. */
  predicate Truthy(v: Option<string>)
  {
    v.Some? && v.value != ""
  }

  /** An observable effect, in the order the code performs it. */
  datatype Event =
    | Stored(key: string, value: string)   // setItemAsync(key, value) completed
    | Deleted(key: string)                 // deleteItemAsync(key) completed
    | Sent(request: Request)               // a request was sent to the server
    | LoadingSet(on: bool)                 // a setLoadingStatus(on) callback
    | KeySet(doorKey: Option<string>)      // a setKey(value) callback; None is setKey(null)

  /** The device as the core sees it: the store and the log of effects so far. */
  class Device {
    var items: Items
    var trace: seq<Event>

    constructor (initial: Items)
      ensures items == initial && trace == []
    {
      items := initial;
      trace := [];
    }

    /** `setItemAsync(key, value)`, modelled as always succeeding. */
    method SetItem(key: string, value: string)
      modifies this
      ensures items == old(items)[key := value]
      ensures trace == old(trace) + [Stored(key, value)]
    {
      items := items[key := value];
      trace := trace + [Stored(key, value)];
    }

    /** `deleteItemAsync(key)`; whether it throws is an input. A failed delete changes nothing. */
    method DeleteItem(key: string, succeeds: bool) returns (ok: bool)
      modifies this
      ensures ok == succeeds
      ensures items == if ok then old(items) - {key} else old(items)
      ensures trace == if ok then old(trace) + [Deleted(key)] else old(trace)
    {
      ok := succeeds;
      if ok {
        items := items - {key};
        trace := trace + [Deleted(key)];
      }
    }

    /** Sends a request; its reply is supplied to the caller as an input. */
    method Send(request: Request)
      modifies this
      ensures items == old(items)
      ensures trace == old(trace) + [Sent(request)]
    {
      trace := trace + [Sent(request)];
    }

    /** The `setLoadingStatus` callback that KeyButton's owner passes in. */
    method SetLoadingStatus(on: bool)
      modifies this
      ensures items == old(items)
      ensures trace == old(trace) + [LoadingSet(on)]
    {
      trace := trace + [LoadingSet(on)];
    }

    /** The `setKey` callback that KeyButton's owner passes in. */
    method SetKey(key: Option<string>)
      modifies this
      ensures items == old(items)
      ensures trace == old(trace) + [KeySet(key)]
    {
      trace := trace + [KeySet(key)];
    }
  }
}
