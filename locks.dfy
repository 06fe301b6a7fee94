/** The per-model lock table of the completion handler. Only which lock a request uses is
    modelled; blocking and mutual exclusion are not. */
module Locks {

  /** A lock identity: a `*sync.Mutex`. Each `new Mutex` is a lock distinct from every other. */
  class Mutex {}

  /** The shared lock state: the lock of the requests that name no model, and the map from
      model name to that model's lock, which starts empty. */
  class LockTable {
    const defaultMutex: Mutex
    var mutexes: map<string, Mutex>

    /** Every named model has its own lock: no two names share one, none is the default lock,
        and the empty name is never a key. */
    ghost predicate Valid()
      reads this
    {
      && "" !in mutexes
      && defaultMutex !in mutexes.Values
      && forall a, b :: a in mutexes && b in mutexes && a != b ==> mutexes[a] != mutexes[b]
    }

    constructor (defaultMutex: Mutex)
      ensures Valid()
      ensures this.defaultMutex == defaultMutex && mutexes == map[]
    {
      this.defaultMutex := defaultMutex;
      mutexes := map[];
    }

    /** The lock for `model`: the default lock for the empty name, which bypasses the map;
        otherwise the model's existing lock, or a fresh lock inserted under its name. No
        other entry changes. */
    method Acquire(model: string) returns (l: Mutex)
      requires Valid()
      modifies this
      ensures Valid()
      ensures model == "" ==> l == defaultMutex && mutexes == old(mutexes)
      ensures model != "" ==> model in mutexes && mutexes[model] == l
      ensures model != "" && model in old(mutexes) ==> l == old(mutexes)[model] && mutexes == old(mutexes)
      ensures model != "" && model !in old(mutexes) ==> fresh(l) && mutexes == old(mutexes)[model := l]
      ensures forall k :: k in old(mutexes) ==> k in mutexes && mutexes[k] == old(mutexes)[k]
      ensures |mutexes| <= |old(mutexes)| + 1
    {
      if model != "" {
        if model in mutexes {
          l := mutexes[model];
        } else {
          var m := new Mutex;
          mutexes := mutexes[model := m];
          l := m;
        }
      } else {
        l := defaultMutex;
      }
    }
  }
}
