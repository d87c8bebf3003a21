/**
 * The device's asynchronous key-value store. Whether a call throws is not
 * something the app controls, so every call takes a `fault` argument that says
 * whether this call fails; a failing call changes nothing.
 */
module AsyncStorage {
  import opened Wrappers
  import opened Records

  /** The error a rejected storage call carries. */
  datatype StorageError = StorageError

  class KeyValueStore {
    /** Every key that holds a value, with that value. */
    var items: map<string, Value>

    constructor (initial: map<string, Value>)
      ensures items == initial
    {
      items := initial;
    }

    /** `getItem`: the value under `key`, `None` when the key is absent. */
    method GetItem(key: string, fault: bool) returns (r: Result<Option<Value>, StorageError>)
      ensures fault <==> r.Err?
      ensures r.Ok? && key in items ==> r.value == Some(items[key])
      ensures r.Ok? && key !in items ==> r.value == None
    {
      if fault {
        r := Err(StorageError);
      } else if key in items {
        r := Ok(Some(items[key]));
      } else {
        r := Ok(None);
      }
    }

    /** `setItem`: binds `key` to `v`, leaving every other key as it was. */
    method SetItem(key: string, v: Value, fault: bool) returns (r: Result<(), StorageError>)
      modifies this
      ensures fault <==> r.Err?
      ensures items == if fault then old(items) else old(items)[key := v]
    {
      if fault {
        r := Err(StorageError);
      } else {
        items := items[key := v];
        r := Ok(());
      }
    }

    /** `removeItem`: unbinds `key`, leaving every other key as it was; absent keys are fine. */
    method RemoveItem(key: string, fault: bool) returns (r: Result<(), StorageError>)
      modifies this
      ensures fault <==> r.Err?
      ensures items == if fault then old(items) else old(items) - {key}
    {
      if fault {
        r := Err(StorageError);
      } else {
        items := items - {key};
        r := Ok(());
      }
    }
  }
}
