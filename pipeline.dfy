/** What one pipelined run makes of the server's messages: the run-response is consumed up to its
    terminal message, and only then the pull-response, from where the first one stopped. */
module Pipeline {
  import opened Results
  import opened Records
  import opened Connections

  /** The position of the first message that ends a response. */
  function FirstTerminal<R>(msgs: seq<Message<R>>): (k: Option<nat>)
    ensures k.Some? ==> k.value < |msgs| && IsTerminal(msgs[k.value])
    ensures k.Some? ==> forall j :: 0 <= j < k.value ==> msgs[j].Row?
    ensures k.None? ==> forall j :: 0 <= j < |msgs| ==> msgs[j].Row?
  {
    if msgs == [] then None
    else if IsTerminal(msgs[0]) then Some(0)
    else match FirstTerminal(msgs[1..])
      case None => None
      case Some(k) => Some(k + 1)
  }

  /** How many messages one `consume` takes: up to and including the terminal one, or all there are. */
  function Consumed<R>(msgs: seq<Message<R>>): (n: nat)
    ensures n <= |msgs|
  {
    match FirstTerminal(msgs)
    case Some(k) => k + 1
    case None => |msgs|
  }

  /** Hydration applied to each positional value of a row. */
  function Hydrate<R, V>(h: R -> V, raw: seq<R>): (vs: seq<V>)
    ensures |vs| == |raw| && forall i :: 0 <= i < |raw| ==> vs[i] == h(raw[i])
  {
    seq(|raw|, i requires 0 <= i < |raw| => h(raw[i]))
  }

  /** The run-response: rows are ignored; its SUCCESS must carry the field names. */
  function RunResponse<R>(msgs: seq<Message<R>>): (r: Result<seq<string>>)
    ensures r == Err(ConnectionClosed) <==> forall j :: 0 <= j < |msgs| ==> msgs[j].Row?
    ensures r.Ok? ==> exists k :: 0 <= k < |msgs| && msgs[k] == Header(r.value) && forall j :: 0 <= j < k ==> msgs[j].Row?
    ensures r.Err? ==> r.error in {ConnectionClosed, KeyError("fields"), CypherError("FAILURE")}
  {
    match FirstTerminal(msgs)
    case None => Err(ConnectionClosed)
    case Some(k) =>
      if msgs[k].Header? then Ok(msgs[k].fields)
      else if msgs[k].Success? then Err(KeyError("fields"))
      else Err(CypherError("FAILURE"))
  }

  /** The pull-response: one record per row before its terminal message, under the header's names. */
  function PullResponse<R, V>(msgs: seq<Message<R>>, fields: seq<string>, h: R -> V): (r: Result<seq<Record<V>>>)
    ensures r == Err(ConnectionClosed) <==> forall j :: 0 <= j < |msgs| ==> msgs[j].Row?
    ensures r.Ok? ==> |r.value| < |msgs| && IsTerminal(msgs[|r.value|]) && !msgs[|r.value|].Failure?
    ensures r.Ok? ==> forall i :: 0 <= i < |r.value| ==>
              msgs[i].Row? && r.value[i] == Record(fields, Hydrate(h, msgs[i].values))
    ensures r.Err? ==> r.error in {ConnectionClosed, CypherError("FAILURE")}
  {
    match FirstTerminal(msgs)
    case None => Err(ConnectionClosed)
    case Some(k) =>
      if msgs[k].Failure? then Err(CypherError("FAILURE"))
      else Ok(seq(k, i requires 0 <= i < k => Record(fields, Hydrate(h, msgs[i].values))))
  }

  datatype Outcome<V> = Outcome(result: Result<seq<Record<V>>>, consumed: nat)

  /** Both responses in submission order; a failed run-response leaves the pull-response unread. */
  function Run<R, V>(msgs: seq<Message<R>>, h: R -> V): (o: Outcome<V>)
    ensures Consumed(msgs) <= o.consumed <= |msgs|
    ensures RunResponse(msgs).Err? ==> o == Outcome(Err(RunResponse(msgs).error), Consumed(msgs))
    ensures o.result.Ok? ==> RunResponse(msgs).Ok?
    ensures o.result.Ok? ==> forall i :: 0 <= i < |o.result.value| ==> o.result.value[i].fields == RunResponse(msgs).value
    ensures o.result.Err? ==> o.result.error in {ConnectionClosed, KeyError("fields"), CypherError("FAILURE")}
  {
    var n := Consumed(msgs);
    match RunResponse(msgs)
    case Err(e) => Outcome(Err(e), n)
    case Ok(fields) => Outcome(PullResponse(msgs[n..], fields, h), n + Consumed(msgs[n..]))
  }

  /** A well-behaved server's answer to RUN then PULL_ALL, as its parts. */
  datatype Script<R> = Script(ignored: seq<seq<R>>, fields: seq<string>, rows: seq<seq<R>>, footer: Message<R>)

  function Rows<R>(rows: seq<seq<R>>): seq<Message<R>> {
    seq(|rows|, i requires 0 <= i < |rows| => Row(rows[i]))
  }

  /** The messages of a script: stray rows, the header, the rows, the footer, then whatever follows. */
  function Render<R>(s: Script<R>, rest: seq<Message<R>>): seq<Message<R>> {
    Rows(s.ignored) + ([Header(s.fields)] + (Rows(s.rows) + ([s.footer] + rest)))
  }

  function Size<R>(s: Script<R>): nat {
    |s.ignored| + |s.rows| + 2
  }

  /** The records a script's rows stand for. */
  function RecordsOf<R, V>(fields: seq<string>, h: R -> V, rows: seq<seq<R>>): seq<Record<V>> {
    seq(|rows|, i requires 0 <= i < |rows| => Record(fields, Hydrate(h, rows[i])))
  }

  lemma FirstTerminalAfterRows<R>(rows: seq<seq<R>>, t: Message<R>, rest: seq<Message<R>>)
    requires IsTerminal(t)
    ensures FirstTerminal(Rows(rows) + ([t] + rest)) == Some(|rows|)
  {
    var msgs := Rows(rows) + ([t] + rest);
    assert msgs[|rows|] == t;
    assert forall j :: 0 <= j < |rows| ==> msgs[j] == Row(rows[j]);
  }

  /** Stray rows then a header: the run-response yields the header's names. */
  lemma RunResponseOfScript<R>(ignored: seq<seq<R>>, fields: seq<string>, tail: seq<Message<R>>)
    ensures RunResponse(Rows(ignored) + ([Header(fields)] + tail)) == Ok(fields)
    ensures Consumed(Rows(ignored) + ([Header(fields)] + tail)) == |ignored| + 1
  {
    FirstTerminalAfterRows(ignored, Header(fields), tail);
  }

  /** Rows then a terminal message: the pull-response yields one record per row, unless it failed. */
  lemma PullResponseOfRows<R, V>(rows: seq<seq<R>>, footer: Message<R>, rest: seq<Message<R>>,
                                 fields: seq<string>, h: R -> V)
    requires IsTerminal(footer)
    ensures Consumed(Rows(rows) + ([footer] + rest)) == |rows| + 1
    ensures PullResponse(Rows(rows) + ([footer] + rest), fields, h) ==
            if footer.Failure? then Err(CypherError("FAILURE")) else Ok(RecordsOf(fields, h, rows))
  {
    var msgs := Rows(rows) + ([footer] + rest);
    FirstTerminalAfterRows(rows, footer, rest);
    assert msgs[|rows|] == footer;
    if !footer.Failure? {
      var recs := seq(|rows|, i requires 0 <= i < |rows| => Record(fields, Hydrate(h, msgs[i].values)));
      assert forall i :: 0 <= i < |rows| ==> msgs[i] == Row(rows[i]);
      assert recs == RecordsOf(fields, h, rows);
    }
  }

  /** A script run to its end: the records are the rows in arrival order under the header's names,
      unless the footer is a FAILURE; exactly the script's messages are consumed. */
  lemma ScriptOutcome<R, V>(s: Script<R>, rest: seq<Message<R>>, h: R -> V)
    requires IsTerminal(s.footer)
    ensures Run(Render(s, rest), h).consumed == Size(s)
    ensures s.footer.Failure? ==> Run(Render(s, rest), h).result == Err(CypherError("FAILURE"))
    ensures !s.footer.Failure? ==> Run(Render(s, rest), h).result == Ok(RecordsOf(s.fields, h, s.rows))
    ensures forall i :: 0 <= i < |s.rows| ==>
              Len(RecordsOf(s.fields, h, s.rows)[i]) == |s.fields| &&
              |RecordsOf(s.fields, h, s.rows)[i].values| == |s.rows[i]|
  {
    var tail := Rows(s.rows) + ([s.footer] + rest);
    var msgs := Rows(s.ignored) + ([Header(s.fields)] + tail);
    assert Render(s, rest) == msgs;
    RunResponseOfScript(s.ignored, s.fields, tail);
    assert msgs[|s.ignored| + 1..] == tail;
    PullResponseOfRows(s.rows, s.footer, rest, s.fields, h);
  }

  /** The values of a prefix made only of rows, which rebuild that prefix. */
  function RowValues<R>(msgs: seq<Message<R>>, k: nat): (rows: seq<seq<R>>)
    requires k <= |msgs| && forall j :: 0 <= j < k ==> msgs[j].Row?
    ensures Rows(rows) == msgs[..k]
  {
    seq(k, j requires 0 <= j < k => msgs[j].values)
  }

  /** A prefix of rows, the terminal message after it, and the rest make up the whole. */
  lemma SplitAtTerminal<R>(msgs: seq<Message<R>>, k: nat)
    requires k < |msgs| && forall j :: 0 <= j < k ==> msgs[j].Row?
    ensures msgs == Rows(RowValues(msgs, k)) + ([msgs[k]] + msgs[k + 1..])
  {
  }

  /** A successful run saw a header ending the run-response and a SUCCESS ending the pull-response. */
  lemma SuccessEnds<R, V>(msgs: seq<Message<R>>, h: R -> V)
    requires Run(msgs, h).result.Ok?
    ensures FirstTerminal(msgs).Some? && msgs[FirstTerminal(msgs).value].Header?
    ensures var tail := msgs[FirstTerminal(msgs).value + 1..];
            FirstTerminal(tail).Some? && !tail[FirstTerminal(tail).value].Failure?
  {
  }

  /** The script a successful run read, cut out of the server's messages at the two terminal ones. */
  lemma ScriptOfSuccess<R, V>(msgs: seq<Message<R>>, h: R -> V) returns (s: Script<R>, rest: seq<Message<R>>)
    requires Run(msgs, h).result.Ok?
    ensures s.footer.Header? || s.footer.Success?
    ensures msgs == Render(s, rest)
    ensures Run(msgs, h).result == Ok(RecordsOf(s.fields, h, s.rows))
  {
    SuccessEnds(msgs, h);
    var k1 := FirstTerminal(msgs).value;
    var tail := msgs[k1 + 1..];
    var k2 := FirstTerminal(tail).value;
    rest := tail[k2 + 1..];
    s := Script(RowValues(msgs, k1), msgs[k1].fields, RowValues(tail, k2), tail[k2]);
    SplitAtTerminal(msgs, k1);
    SplitAtTerminal(tail, k2);
    assert msgs[k1] == Header(s.fields);
    assert msgs == Render(s, rest);
    ScriptOutcome(s, rest, h);
  }

  /** A run succeeds only when the server's messages begin with a script whose footer is a SUCCESS,
      and then its records are that script's rows. */
  lemma SucceedsOnlyOnScript<R, V>(msgs: seq<Message<R>>, h: R -> V)
    requires Run(msgs, h).result.Ok?
    ensures exists s: Script<R>, rest :: (s.footer.Header? || s.footer.Success?) && msgs == Render(s, rest) &&
                                        Run(msgs, h).result == Ok(RecordsOf(s.fields, h, s.rows))
  {
    var s, rest := ScriptOfSuccess(msgs, h);
  }

  /** A run-response ending in FAILURE, or in a SUCCESS without field names, raises; the
      pull-response's messages stay unread on the connection. */
  lemma RunResponseRaises<R, V>(ignored: seq<seq<R>>, t: Message<R>, rest: seq<Message<R>>, h: R -> V)
    requires t == Failure || t == Success
    ensures Run(Rows(ignored) + ([t] + rest), h) ==
            Outcome(Err(if t == Failure then CypherError("FAILURE") else KeyError("fields")), |ignored| + 1)
  {
    FirstTerminalAfterRows(ignored, t, rest);
  }

  /** When the server stops before the run-response ends, every message is taken and nothing is returned. */
  lemma ServerStopsEarly<R, V>(msgs: seq<Message<R>>, h: R -> V)
    requires forall j :: 0 <= j < |msgs| ==> msgs[j].Row?
    ensures Run(msgs, h) == Outcome(Err(ConnectionClosed), |msgs|)
  {
  }

  /** A failed run leaves its pull-response on the connection, and the next run takes that
      response's SUCCESS for its own run-response. */
  lemma StalePullResponse()
    ensures Run([Failure, Success, Header(["y"]), Row([7]), Success], Identity) ==
            Outcome(Err(CypherError("FAILURE")), 1)
    ensures Run([Success, Header(["y"]), Row([7]), Success], Identity) == Outcome(Err(KeyError("fields")), 1)
  {
    RunResponseRaises([], Failure, [Success, Header(["y"]), Row([7]), Success], Identity);
    RunResponseRaises([], Success, [Header(["y"]), Row([7]), Success], Identity);
  }

  function Identity(v: int): int {
    v
  }

  /** RETURN 1 AS x against a server that answers with the header [x], one row [1] and SUCCESS. */
  lemma ReturnOneAsX()
    ensures Run([Header(["x"]), Row([1]), Success], Identity) == Outcome(Ok([Record(["x"], [1])]), 3)
    ensures GetItem(Record(["x"], [1]), Name("x")) == Ok(1)
    ensures GetItem(Record(["x"], [1]), Position(0)) == Ok(1)
    ensures Len(Record(["x"], [1])) == 1
  {
    var s := Script([], ["x"], [[1]], Success);
    assert Render(s, []) == [Header(["x"]), Row([1]), Success];
    ScriptOutcome(s, [], Identity);
    assert Hydrate(Identity, [1]) == [1];
    assert RecordsOf(["x"], Identity, [[1]]) == [Record(["x"], [1])];
    assert ["x"][..0] == [];
  }
}
