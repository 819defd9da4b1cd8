/** System V message queues, as far as the programs use them. */
module MessageQueue {
  import opened Common

  /** A message queue between two processes. */
  class Channel<T> {
    var msgs: seq<T>

    constructor ()
      ensures msgs == []
    {
      msgs := [];
    }

    method Send(m: T)
      modifies this
      ensures msgs == old(msgs) + [m]
    {
      msgs := msgs + [m];
    }

    method Receive() returns (m: Option<T>)
      modifies this
      ensures old(msgs) == [] ==> m == None && msgs == []
      ensures old(msgs) != [] ==> m == Some(old(msgs)[0]) && msgs == old(msgs)[1..]
    {
      if msgs == [] {
        return None;
      }
      m, msgs := Some(msgs[0]), msgs[1..];
    }
  }
}
