/** One key of the happens-before machine, as calls use it one after the other. */
module HappensEntry {
  import opened HappensBefore

  /** The counter and the channel that `create` returns for a key, as the calls use them one after the other. */
  class Entry {
    var was: int
    var closed: bool             // the channel that `*wait` names
    ghost var surplus: int       // `Happen`s that no `Before` has used up, or -1
    ghost var waiting: bool      // a `Before` has subtracted and not yet returned

    /** While a `Before` waits, its channel is closed exactly once its event has happened. */
    ghost predicate Valid()
      reads this
    {
      && -1 <= surplus < WRAP && was == Int32(NOTHING + surplus)
      && if waiting then closed <==> surplus >= 0 else !closed && surplus >= 0
    }

    constructor ()
      ensures Valid() && surplus == 0 && !waiting
    {
      was, closed := NOTHING, false;
      surplus, waiting := 0, false;
    }

    /** Closing a closed channel would panic. */
    method Close()
      requires !closed
      modifies this`closed
      ensures closed
    {
      closed := true;
    }

    /**
     An event lets the waiting `Before` go on, or saves the next one from waiting. The addition that makes
     the surplus 2^32 closes a channel in vain, or panics if it is closed already.
     */
    method Happen() returns (panics: bool)
      requires Valid()
      modifies this
      ensures surplus == old(surplus) + 1 && waiting == old(waiting)
      ensures if surplus < WRAP then Valid() && !panics else closed && panics == waiting
    {
      Int32Adds(NOTHING + surplus, 1);
      Int32Exact(surplus + 1);
      was := Int32(was + 1);
      surplus := surplus + 1;
      panics := was == NOTHING && closed;
      if was == NOTHING && !panics {
        Close();
      }
    }

    /** `Before` up to its receive: it has to wait exactly if there is no event to use up. */
    method StartBefore() returns (waits: bool)
      requires Valid() && !waiting
      modifies this
      ensures Valid() && surplus == old(surplus) - 1
      ensures waits == waiting == (old(surplus) == 0)
    {
      Int32Adds(NOTHING + surplus, -1);
      Int32Exact(surplus - 1);
      was := Int32(was - 1);
      waits := was == WAITING;
      surplus, waiting := surplus - 1, waits;
    }

    /** The receive returns once the channel is closed, and the channel is replaced. */
    method FinishBefore()
      requires Valid() && waiting && closed
      modifies this
      ensures Valid() && surplus == old(surplus) >= 0 && !waiting
    {
      closed, waiting := false, false;
    }
  }
}
