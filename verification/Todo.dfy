/** The wake-up object: a flag, a mutex and a channel of one slot (todo/todo.go). Between two calls the
    mutex is free. */
module Todo {
  import W = Wakeups

  class Todo {
    var newMsg: bool
    /** The number of messages in the channel. */
    var wait: nat

    ghost function View(): W.Todo
      reads this
    {
      W.Todo(newMsg, wait, W.Free)
    }

    constructor ()
      ensures View() == W.INITIAL
    {
      newMsg, wait := false, 0;
    }

    /** Sends at most one message until the next Done. Without the flag the channel has room, else the
        send would block under the mutex. */
    method Ping(ghost who: W.Who) returns (sent: bool)
      requires !newMsg ==> wait < W.CAPACITY
      modifies this
      ensures View() == W.Ping(old(View()), who)
      ensures sent == !old(newMsg) && newMsg && wait == old(wait) + (if sent then 1 else 0)
    {
      if newMsg {
        return false;
      }
      wait := wait + 1;
      newMsg := true;
      return true;
    }

    /** Clears the flag and empties the channel. */
    method Done()
      modifies this
      ensures View() == W.Done(old(View()))
      ensures !newMsg && wait == (if old(newMsg) && old(wait) > 0 then old(wait) - 1 else old(wait))
      ensures old(newMsg) && old(wait) <= W.CAPACITY ==> wait == 0
    {
      if !newMsg {
        return;
      }
      newMsg := false;
      if wait > 0 {
        wait := wait - 1;
      }
    }

    method Receive()
      requires wait > 0
      modifies this
      ensures View() == W.Receive(old(View())) && wait == old(wait) - 1 && newMsg == old(newMsg)
    {
      wait := wait - 1;
    }
  }
}
