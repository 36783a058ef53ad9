/** `concurrency.KeyLocker`: one mutex per key, made of channels with a single slot. */
module KeyLocker {
  /** A channel of capacity one, as far as a lock needs it. */
  class Slot {
    var full: bool

    constructor ()
      ensures !full
    {
      full := false;
    }

    /** Sending blocks while the slot is full. */
    method Send()
      requires !full
      modifies this
      ensures full
    {
      full := true;
    }

    /** Receiving blocks while the slot is empty. */
    method Receive()
      requires full
      modifies this
      ensures !full
    {
      full := false;
    }
  }

  class Locker<K(==, !new)> {
    var muHeld: bool
    var lock: map<K, Slot>

    /** Different keys never share a slot. */
    ghost predicate Valid()
      reads this
    {
      forall k, l :: k in lock && l in lock && lock[k] == lock[l] ==> k == l
    }

    ghost predicate Held(key: K)
      reads this, lock.Values
    {
      key in lock && lock[key].full
    }

    constructor ()
      ensures Valid() && !muHeld && lock == map[]
    {
      muHeld, lock := false, map[];
    }

    /** The caller waits for `mu` and for the slot; the contract starts where both are free. */
    method Lock(key: K)
      requires Valid() && !muHeld && !Held(key)
      modifies this, lock.Values
      ensures Valid() && !muHeld && Held(key)
      ensures lock.Keys == old(lock).Keys + {key} && fresh(lock.Values - old(lock.Values))
      ensures forall k <- old(lock) :: lock[k] == old(lock[k])
      ensures forall k :: k != key ==> Held(k) == old(Held(k))
    {
      muHeld := true;
      if key !in lock {
        var slot := new Slot();
        lock := lock[key := slot];
      }
      var local := lock[key];
      muHeld := false;
      assert forall k <- lock.Keys - {key} :: k in old(lock) && lock[k] != local;
      local.Send();
    }

    /** Releasing a key that was never locked returns early and keeps `mu`; otherwise the slot is emptied. */
    method Unlock(key: K)
      requires Valid() && !muHeld && (key in lock ==> Held(key))
      modifies this`muHeld, if key in lock then {lock[key]} else {}
      ensures Valid() && lock == old(lock)
      ensures muHeld <==> key !in lock
      ensures forall k :: Held(k) == (k != key && old(Held(k)))
    {
      muHeld := true;
      if key !in lock {
        return;
      }
      var local := lock[key];
      muHeld := false;
      local.Receive();
    }
  }
}
