/** The connection as the session sees it: requests are queued, flushed in one send, and the
    server's answers arrive one message at a time from a scripted sequence. */
module Connections {
  import opened Results

  /** RUN carries the statement and its parameters; PULL_ALL carries nothing. */
  datatype Request<R> = RunRequest(statement: string, parameters: map<string, R>) | PullAllRequest

  /** One server message. `Header` is a SUCCESS whose metadata holds the field names; `Success`
      is a SUCCESS without them. `Row` is a RECORD of raw values. */
  datatype Message<R> = Header(fields: seq<string>) | Row(values: seq<R>) | Success | Failure

  /** SUCCESS and FAILURE end a response; RECORD does not. */
  predicate IsTerminal<R>(m: Message<R>) {
    !m.Row?
  }

  class Connection<R> {
    const host: Option<string>
    const port: Option<int>
    var queued: seq<Request<R>>   // appended, not yet sent
    var sent: seq<Request<R>>     // every request flushed so far, in order
    var sends: nat                // how many times the queue was flushed
    var inbox: seq<Message<R>>    // what the server will still deliver, in order

    constructor (host: Option<string>, port: Option<int>, script: seq<Message<R>>)
      ensures this.host == host && this.port == port
      ensures queued == [] && sent == [] && sends == 0 && inbox == script
    {
      this.host, this.port := host, port;
      queued, sent, sends, inbox := [], [], 0, script;
    }

    method Append(request: Request<R>)
      modifies this
      ensures queued == old(queued) + [request]
      ensures sent == old(sent) && sends == old(sends) && inbox == old(inbox)
    {
      queued := queued + [request];
    }

    method Send()
      modifies this
      ensures sent == old(sent) + old(queued) && queued == []
      ensures sends == old(sends) + 1 && inbox == old(inbox)
    {
      sent := sent + queued;
      queued := [];
      sends := sends + 1;
    }

    /** The next server message, or None once the server has nothing more to say. */
    method FetchNext() returns (m: Option<Message<R>>)
      modifies this
      ensures old(inbox) == [] ==> m.None? && inbox == []
      ensures old(inbox) != [] ==> m == Some(old(inbox)[0]) && inbox == old(inbox)[1..]
      ensures queued == old(queued) && sent == old(sent) && sends == old(sends)
    {
      if inbox == [] {
        m := None;
      } else {
        m := Some(inbox[0]);
        inbox := inbox[1..];
      }
    }
  }
}
