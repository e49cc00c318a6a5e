/** The coalescing wake-up: a one-slot channel and a flag under a mutex (todo/todo.go), one lock
    operation, channel operation or flag write at a time. */
module Wakeups {
  /** Who pings: an adder or a fired timer, the watcher of job `j`, or the scheduling loop. */
  datatype Who = Someone | Watcher(j: nat) | Loop

  /** Where the holder of the mutex is. */
  datatype Holder =
    | Free
    | Sending(who: Who)    // in Ping, before the send on the channel
    | Flagging(who: Who)   // in Ping, before the flag is set
    | Flushing(saw: bool)  // in Done, after the flag was cleared; `saw`: the channel was not empty

  datatype Todo = Todo(newMsg: bool, tokens: nat, holder: Holder)

  const CAPACITY := 1

  const INITIAL := Todo(false, 0, Free)

  function PingLock(t: Todo, who: Who): Todo {
    if t.newMsg then t else t.(holder := Sending(who))
  }

  function PingSend(t: Todo): Todo
    requires t.holder.Sending?
  {
    t.(tokens := t.tokens + 1, holder := Flagging(t.holder.who))
  }

  function PingFlag(t: Todo): Todo {
    t.(newMsg := true, holder := Free)
  }

  function DoneLock(t: Todo): Todo {
    if !t.newMsg then t else t.(newMsg := false, holder := Flushing(t.tokens > 0))
  }

  function DoneFlush(t: Todo): Todo
    requires t.holder.Flushing? && (t.holder.saw ==> t.tokens > 0)
  {
    t.(tokens := if t.holder.saw then t.tokens - 1 else t.tokens, holder := Free)
  }

  function Receive(t: Todo): Todo
    requires t.tokens > 0
  {
    t.(tokens := t.tokens - 1)
  }

  /** A whole Ping with nobody in between. */
  function Ping(t: Todo, who: Who): Todo
    requires t.holder.Free?
  {
    var t1 := PingLock(t, who);
    if t1.holder.Sending? then PingFlag(PingSend(t1)) else t1
  }

  /** A whole Done with nobody in between. */
  function Done(t: Todo): Todo
    requires t.holder.Free?
  {
    var t1 := DoneLock(t);
    if t1.holder.Flushing? then DoneFlush(t1) else t1
  }
}
