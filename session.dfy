/** The session layer: a Session pipelines RUN and PULL_ALL over its connection and keeps at most
    one open Transaction; a Driver is built only for the bolt scheme. */
module Sessions {
  import opened Results
  import opened Records
  import opened Bench
  import opened Connections
  import Pipeline

  const BeginStatement := "BEGIN"
  const CommitStatement := "COMMIT"
  const RollbackStatement := "ROLLBACK"
  const BoltScheme := "bolt"

  /** A connection URL after parsing; parsing itself is not part of this model. */
  datatype Url = Url(scheme: string, hostname: Option<string>, port: Option<int>)

  datatype Driver = Driver(url: Url, host: Option<string>, port: Option<int>)

  /** The drivers that construction lets through: bolt URLs, with the address taken from the URL. */
  type BoltDriver = d: Driver | d.url.scheme == BoltScheme && d.host == d.url.hostname && d.port == d.url.port
    witness Driver(Url(BoltScheme, None, None), None, None)

  /** Driver construction (and GraphDatabase.driver, which only forwards to it). */
  function NewDriver(url: Url): (r: Result<BoltDriver>)
    ensures r.Ok? <==> url.scheme == BoltScheme
    ensures r.Ok? ==> r.value.url == url && r.value.host == url.hostname && r.value.port == url.port
    ensures r.Err? ==> r.error == ValueError("Unsupported URL scheme: " + url.scheme)
  {
    if url.scheme == BoltScheme then Ok(Driver(url, url.hostname, url.port))
    else Err(ValueError("Unsupported URL scheme: " + url.scheme))
  }

  /** A fresh session over a fresh connection to the driver's address; the connection's future
      server messages are given as `script`. */
  method OpenSession<R, V>(driver: BoltDriver, script: seq<Message<R>>, hydrate: R -> V) returns (s: Session<R, V>)
    ensures fresh(s) && fresh(s.conn) && s.hydrate == hydrate
    ensures s.conn.host == driver.host && s.conn.port == driver.port
    ensures s.conn.inbox == script && s.conn.queued == [] && s.conn.sent == []
    ensures s.transaction == null && s.benchTests == [] && s.Valid()
  {
    var conn := new Connection(driver.host, driver.port, script);
    s := new Session(conn, hydrate);
  }

  /** `dict(parameters or {})`: a missing mapping becomes the empty one. */
  function Parameters<R>(parameters: Option<map<string, R>>): (p: map<string, R>)
    ensures parameters.None? ==> p == map[]
    ensures parameters.Some? ==> p == parameters.value
  {
    if parameters.Some? then parameters.value else map[]
  }

  /** What Session.run reads and changes, taken before a run so that its effect can be stated. */
  datatype Snapshot<R> = Snapshot(sent: seq<Request<R>>, queued: seq<Request<R>>, sends: nat,
                                  inbox: seq<Message<R>>, benchTests: seq<BenchTest>, now: int)

  class Session<R, V> {
    const conn: Connection<R>
    const hydrate: R -> V
    var transaction: Transaction?<R, V>
    var benchTests: seq<BenchTest>

    /** The slot holds a transaction only while that transaction of this session is open. */
    ghost predicate Valid()
      reads this`transaction, transaction
    {
      transaction != null ==> transaction.session == this && !transaction.closed
    }

    ghost function Snap(clock: Clock): Snapshot<R>
      reads this`benchTests, conn, clock
    {
      Snapshot(conn.sent, conn.queued, conn.sends, conn.inbox, benchTests, clock.now)
    }

    /** The effect of one Session.run of `statement` from the state `before`: RUN and PULL_ALL are
        flushed after whatever was queued, the server's messages are consumed as Pipeline.Run says,
        no clock reading goes backwards, and exactly one new, ordered BenchTest is kept when the run
        succeeds while a failed run keeps none. */
    ghost predicate Ran(before: Snapshot<R>, statement: string, parameters: map<string, R>, clock: Clock)
      reads this`benchTests, conn, clock, benchTests
    {
      var outcome := Pipeline.Run(before.inbox, hydrate);
      && conn.sent == before.sent + before.queued + [RunRequest(statement, parameters), PullAllRequest]
      && conn.queued == [] && conn.sends == before.sends + 1
      && conn.inbox == before.inbox[outcome.consumed..]
      && before.now <= clock.now
      && (outcome.result.Err? ==> benchTests == before.benchTests)
      && (outcome.result.Ok? ==> Sampled(before, clock))
    }

    /** One BenchTest appended after the earlier ones, its timestamps in run order within the run. */
    ghost predicate Sampled(before: Snapshot<R>, clock: Clock)
      reads this`benchTests, clock, benchTests
    {
      && |benchTests| == |before.benchTests| + 1
      && benchTests[..|before.benchTests|] == before.benchTests
      && var t := benchTests[|before.benchTests|];
         t.Ordered() && before.now <= t.init.value && t.done.value <= clock.now
    }

    constructor (conn: Connection<R>, hydrate: R -> V)
      ensures this.conn == conn && this.hydrate == hydrate
      ensures transaction == null && benchTests == [] && Valid()
    {
      this.conn, this.hydrate := conn, hydrate;
      transaction, benchTests := null, [];
    }

    /** run_response.consume() with its callbacks: rows are ignored, the header's field names are
        captured and start_recv is stamped; a FAILURE raises. */
    method ConsumeRunResponse(t: BenchTest, clock: Clock) returns (res: Result<seq<string>>)
      modifies conn, t, clock
      ensures res == Pipeline.RunResponse(old(conn.inbox))
      ensures conn.inbox == old(conn.inbox)[Pipeline.Consumed(old(conn.inbox))..]
      ensures conn.queued == old(conn.queued) && conn.sent == old(conn.sent) && conn.sends == old(conn.sends)
      ensures t.init == old(t.init) && t.startSend == old(t.startSend) && t.endSend == old(t.endSend)
      ensures t.endRecv == old(t.endRecv) && t.done == old(t.done)
      ensures old(clock.now) <= clock.now
      ensures res.Ok? ==> t.startRecv.Some? && old(clock.now) <= t.startRecv.value <= clock.now
    {
      ghost var inbox := conn.inbox;
      ghost var pos := 0;
      var complete := false;
      var fields: seq<string> := [];
      while !complete
        invariant pos <= |inbox| && conn.inbox == inbox[pos..]
        invariant !complete ==> fields == [] && forall j :: 0 <= j < pos ==> inbox[j].Row?
        invariant complete ==> 0 < pos && inbox[pos - 1] == Header(fields) &&
                               forall j :: 0 <= j < pos - 1 ==> inbox[j].Row?
        invariant conn.queued == old(conn.queued) && conn.sent == old(conn.sent) && conn.sends == old(conn.sends)
        invariant t.init == old(t.init) && t.startSend == old(t.startSend) && t.endSend == old(t.endSend)
        invariant t.endRecv == old(t.endRecv) && t.done == old(t.done)
        invariant old(clock.now) <= clock.now
        invariant complete ==> t.startRecv.Some? && old(clock.now) <= t.startRecv.value <= clock.now
        decreases |conn.inbox|, !complete
      {
        var m := conn.FetchNext();
        match m {
          case None =>
            return Err(ConnectionClosed);
          case Some(Row(_)) =>
            pos := pos + 1;
          case Some(Header(names)) =>
            pos := pos + 1;
            fields := fields + names;
            var now := clock.Read();
            t.startRecv := Some(now);
            complete := true;
          case Some(Success) =>
            assert Pipeline.FirstTerminal(inbox) == Some(pos);
            return Err(KeyError("fields"));
          case Some(Failure) =>
            assert Pipeline.FirstTerminal(inbox) == Some(pos);
            return Err(CypherError("FAILURE"));
        }
      }
      assert Pipeline.FirstTerminal(inbox) == Some(pos - 1);
      return Ok(fields);
    }

    /** pull_all_response.consume() with its callbacks: one hydrated record per row under `fields`,
        end_recv stamped on SUCCESS; a FAILURE raises. */
    method ConsumePullResponse(fields: seq<string>, t: BenchTest, clock: Clock) returns (res: Result<seq<Record<V>>>)
      modifies conn, t, clock
      ensures res == Pipeline.PullResponse(old(conn.inbox), fields, hydrate)
      ensures conn.inbox == old(conn.inbox)[Pipeline.Consumed(old(conn.inbox))..]
      ensures conn.queued == old(conn.queued) && conn.sent == old(conn.sent) && conn.sends == old(conn.sends)
      ensures t.init == old(t.init) && t.startSend == old(t.startSend) && t.endSend == old(t.endSend)
      ensures t.startRecv == old(t.startRecv) && t.done == old(t.done)
      ensures old(clock.now) <= clock.now
      ensures res.Ok? ==> t.endRecv.Some? && old(clock.now) <= t.endRecv.value <= clock.now
    {
      ghost var inbox := conn.inbox;
      ghost var pos := 0;
      var records: seq<Record<V>> := [];
      var complete := false;
      while !complete
        invariant pos <= |inbox| && conn.inbox == inbox[pos..] && pos == |records| + (if complete then 1 else 0)
        invariant forall j :: 0 <= j < |records| ==>
                    inbox[j].Row? && records[j] == Record(fields, Pipeline.Hydrate(hydrate, inbox[j].values))
        invariant complete ==> |records| < |inbox| && IsTerminal(inbox[|records|]) && !inbox[|records|].Failure?
        invariant conn.queued == old(conn.queued) && conn.sent == old(conn.sent) && conn.sends == old(conn.sends)
        invariant t.init == old(t.init) && t.startSend == old(t.startSend) && t.endSend == old(t.endSend)
        invariant t.startRecv == old(t.startRecv) && t.done == old(t.done)
        invariant old(clock.now) <= clock.now
        invariant complete ==> t.endRecv.Some? && old(clock.now) <= t.endRecv.value <= clock.now
        decreases |conn.inbox|, !complete
      {
        var m := conn.FetchNext();
        match m {
          case None =>
            return Err(ConnectionClosed);
          case Some(Row(values)) =>
            pos := pos + 1;
            records := records + [Record(fields, Pipeline.Hydrate(hydrate, values))];
          case Some(Failure) =>
            assert Pipeline.FirstTerminal(inbox) == Some(|records|);
            return Err(CypherError("FAILURE"));
          case Some(_) =>
            pos := pos + 1;
            var now := clock.Read();
            t.endRecv := Some(now);
            complete := true;
        }
      }
      var k := |records|;
      assert Pipeline.FirstTerminal(inbox) == Some(k);
      assert records == seq(k, i requires 0 <= i < k => Record(fields, Pipeline.Hydrate(hydrate, inbox[i].values)));
      return Ok(records);
    }

    /** The second half of Session.run: the run-response, then the pull-response from where the first
        stopped; a failed run-response leaves the pull-response unread. */
    method ConsumeResponses(t: BenchTest, clock: Clock) returns (res: Result<seq<Record<V>>>)
      modifies conn, t, clock
      ensures res == Pipeline.Run(old(conn.inbox), hydrate).result
      ensures conn.inbox == old(conn.inbox)[Pipeline.Run(old(conn.inbox), hydrate).consumed..]
      ensures conn.queued == old(conn.queued) && conn.sent == old(conn.sent) && conn.sends == old(conn.sends)
      ensures t.init == old(t.init) && t.startSend == old(t.startSend) && t.endSend == old(t.endSend)
      ensures t.done == old(t.done)
      ensures old(clock.now) <= clock.now
      ensures res.Ok? ==> t.startRecv.Some? && t.endRecv.Some? &&
                          old(clock.now) <= t.startRecv.value <= t.endRecv.value <= clock.now
    {
      ghost var inbox := conn.inbox;
      ghost var outcome := Pipeline.Run(inbox, hydrate);
      var header := ConsumeRunResponse(t, clock);
      if header.Err? {
        assert outcome == Pipeline.Outcome(Err(header.error), Pipeline.Consumed(inbox));
        return Err(header.error);
      }
      ghost var n := Pipeline.Consumed(inbox);
      ghost var rest := conn.inbox;
      assert rest == inbox[n..];
      res := ConsumePullResponse(header.value, t, clock);
      assert outcome == Pipeline.Outcome(res, n + Pipeline.Consumed(rest));
      assert conn.inbox == inbox[n + Pipeline.Consumed(rest)..];
    }

    /** The first half of Session.run: stamp init, queue RUN then PULL_ALL, and flush them in one send
        between start_send and end_send. */
    method Submit(statement: string, parameters: map<string, R>, clock: Clock) returns (t: BenchTest)
      modifies conn, clock
      ensures fresh(t)
      ensures conn.sent == old(conn.sent) + old(conn.queued) + [RunRequest(statement, parameters), PullAllRequest]
      ensures conn.queued == [] && conn.sends == old(conn.sends) + 1 && conn.inbox == old(conn.inbox)
      ensures t.init.Some? && t.startSend.Some? && t.endSend.Some?
      ensures old(clock.now) <= t.init.value <= t.startSend.value <= t.endSend.value <= clock.now
      ensures t.startRecv.None? && t.endRecv.None? && t.done.None?
    {
      t := new BenchTest();
      var now := clock.Read();
      t.init := Some(now);
      conn.Append(RunRequest(statement, parameters));
      conn.Append(PullAllRequest);
      now := clock.Read();
      t.startSend := Some(now);
      conn.Send();
      now := clock.Read();
      t.endSend := Some(now);
    }

    /** Session.run: queue RUN then PULL_ALL, flush once, consume the two responses in that order,
        and on success record one BenchTest and return the records. */
    method Run(statement: string, parameters: Option<map<string, R>>, clock: Clock)
      returns (res: Result<seq<Record<V>>>)
      requires Valid()
      modifies this, conn, clock
      ensures Valid() && transaction == old(transaction)
      ensures res == Pipeline.Run(old(conn.inbox), hydrate).result
      ensures Ran(old(Snap(clock)), statement, Parameters(parameters), clock)
      ensures res.Ok? ==> fresh(benchTests[|old(benchTests)|])
    {
      ghost var before := Snap(clock);
      var t := Submit(statement, Parameters(parameters), clock);
      res := ConsumeResponses(t, clock);
      if res.Ok? {
        var now := clock.Read();
        t.done := Some(now);
        benchTests := benchTests + [t];
        assert benchTests[..|before.benchTests|] == before.benchTests;
        assert Sampled(before, clock);
      }
    }

    /** Session.new_transaction: refused while the slot is taken; otherwise BEGIN is run while the
        transaction is built, and only a successful BEGIN fills the slot. */
    method NewTransaction(clock: Clock) returns (res: Result<Transaction<R, V>>)
      requires Valid()
      modifies this, conn, clock
      ensures Valid()
      ensures old(transaction) != null ==> res == Err(AssertionError) && unchanged(this, conn, clock)
      ensures old(transaction) == null ==> Ran(old(Snap(clock)), BeginStatement, map[], clock)
      ensures old(transaction) == null ==> (res.Ok? <==> Pipeline.Run(old(conn.inbox), hydrate).result.Ok?)
      ensures old(transaction) == null && res.Err? ==>
                transaction == null && res.error == Pipeline.Run(old(conn.inbox), hydrate).result.error
      ensures old(transaction) == null && res.Ok? ==> fresh(benchTests[|old(benchTests)|])
      ensures res.Ok? ==> fresh(res.value) && transaction == res.value && res.value.session == this
      ensures res.Ok? ==> !res.value.success && !res.value.closed
    {
      if transaction != null {
        return Err(AssertionError);
      }
      var tx := new Transaction(this);
      var begun := Run(BeginStatement, None, clock);
      if begun.Err? {
        return Err(begun.error);
      }
      transaction := tx;
      return Ok(tx);
    }
  }

  class Transaction<R, V> {
    const session: Session<R, V>
    var success: bool
    var closed: bool

    /** Transaction.__init__ up to the BEGIN, which Session.NewTransaction runs right after. */
    constructor (session: Session<R, V>)
      ensures this.session == session && !success && !closed
    {
      this.session := session;
      success, closed := false, false;
    }

    /** Transaction.run: refused once closed, with no statement sent; otherwise Session.run. */
    method Run(statement: string, parameters: Option<map<string, R>>, clock: Clock)
      returns (res: Result<seq<Record<V>>>)
      requires session.Valid()
      modifies session, session.conn, clock
      ensures session.Valid() && session.transaction == old(session.transaction)
      ensures closed ==> res == Err(AssertionError) && unchanged(session, session.conn, clock)
      ensures !closed ==> res == Pipeline.Run(old(session.conn.inbox), session.hydrate).result
      ensures !closed ==> session.Ran(old(session.Snap(clock)), statement, Parameters(parameters), clock)
      ensures !closed && res.Ok? ==> fresh(session.benchTests[|old(session.benchTests)|])
    {
      if closed {
        return Err(AssertionError);
      }
      res := session.Run(statement, parameters, clock);
    }

    /** Transaction.close: refused once closed; otherwise COMMIT if marked successful, else ROLLBACK,
        and only when that statement succeeds is the transaction closed and the slot emptied. */
    method Close(clock: Clock) returns (res: Result<()>)
      requires session.Valid()
      modifies this, session, session.conn, clock
      ensures session.Valid() && success == old(success)
      ensures old(closed) ==> res == Err(AssertionError) && closed && unchanged(session, session.conn, clock)
      ensures !old(closed) ==>
                session.Ran(old(session.Snap(clock)), if old(success) then CommitStatement else RollbackStatement, map[], clock)
      ensures !old(closed) ==> (res.Ok? <==> Pipeline.Run(old(session.conn.inbox), session.hydrate).result.Ok?)
      ensures !old(closed) && res.Ok? ==> closed && session.transaction == null
      ensures !old(closed) && res.Ok? ==> fresh(session.benchTests[|old(session.benchTests)|])
      ensures !old(closed) && res.Err? ==>
                !closed && session.transaction == old(session.transaction) &&
                res.error == Pipeline.Run(old(session.conn.inbox), session.hydrate).result.error
    {
      if closed {
        return Err(AssertionError);
      }
      var statement := if success then CommitStatement else RollbackStatement;
      var r := session.Run(statement, None, clock);
      if r.Err? {
        return Err(r.error);
      }
      closed := true;
      session.transaction := null;
      return Ok(());
    }

    /** Transaction.commit: mark successful (even when already closed), then close. */
    method Commit(clock: Clock) returns (res: Result<()>)
      requires session.Valid()
      modifies this, session, session.conn, clock
      ensures session.Valid() && success
      ensures old(closed) ==> res == Err(AssertionError) && closed && unchanged(session, session.conn, clock)
      ensures !old(closed) ==> session.Ran(old(session.Snap(clock)), CommitStatement, map[], clock)
      ensures !old(closed) ==> (res.Ok? <==> Pipeline.Run(old(session.conn.inbox), session.hydrate).result.Ok?)
      ensures !old(closed) && res.Ok? ==> closed && session.transaction == null
      ensures !old(closed) && res.Ok? ==> fresh(session.benchTests[|old(session.benchTests)|])
      ensures !old(closed) && res.Err? ==>
                !closed && session.transaction == old(session.transaction) &&
                res.error == Pipeline.Run(old(session.conn.inbox), session.hydrate).result.error
    {
      success := true;
      res := Close(clock);
    }

    /** Transaction.rollback: mark unsuccessful (even when already closed), then close. */
    method Rollback(clock: Clock) returns (res: Result<()>)
      requires session.Valid()
      modifies this, session, session.conn, clock
      ensures session.Valid() && !success
      ensures old(closed) ==> res == Err(AssertionError) && closed && unchanged(session, session.conn, clock)
      ensures !old(closed) ==> session.Ran(old(session.Snap(clock)), RollbackStatement, map[], clock)
      ensures !old(closed) ==> (res.Ok? <==> Pipeline.Run(old(session.conn.inbox), session.hydrate).result.Ok?)
      ensures !old(closed) && res.Ok? ==> closed && session.transaction == null
      ensures !old(closed) && res.Ok? ==> fresh(session.benchTests[|old(session.benchTests)|])
      ensures !old(closed) && res.Err? ==>
                !closed && session.transaction == old(session.transaction) &&
                res.error == Pipeline.Run(old(session.conn.inbox), session.hydrate).result.error
    {
      success := false;
      res := Close(clock);
    }
  }

  /** A session's open transaction after `commit()`: COMMIT itself is never refused for being closed,
      and once it succeeds the slot is free and a further statement or rollback is refused without
      anything more being sent. */
  method CommitThenReuse<R, V>(s: Session<R, V>, statement: string, clock: Clock)
    returns (commit: Result<()>, again: Result<seq<Record<V>>>, undo: Result<()>)
    requires s.Valid() && s.transaction != null
    modifies s, s.conn, s.transaction, clock
    ensures s.Valid()
    ensures commit != Err(AssertionError)
    ensures commit.Ok? ==> again == Err(AssertionError) && undo == Err(AssertionError) && s.transaction == null
    ensures commit.Ok? ==>
              s.conn.sent == old(s.conn.sent) + old(s.conn.queued) + [RunRequest(CommitStatement, map[]), PullAllRequest]
  {
    var tx := s.transaction;
    commit := tx.Commit(clock);
    again := tx.Run(statement, None, clock);
    undo := tx.Rollback(clock);
  }
}
