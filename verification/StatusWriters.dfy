/**
 * statusWriter and Recover (internal/proxy/middleware.go), stacked any number deep as
 * Logger, the metrics middleware and Recover do, over the connection's own writer.
 */
module StatusWriters {
  import opened Prelude
  import Stream

  /** The codes net/http's writer accepts; it panics on any other. */
  type Status = c: int | 100 <= c <= 999 witness 200

  /** What a handler does to its writer; Flush goes through Unwrap straight to the connection. */
  datatype Op<D> = Header(code: Status) | Data(data: D) | Flush

  /** A statusWriter's fields. */
  datatype Layer = Layer(code: int, wroteHeader: bool)

  /** The connection: WriteHeader calls that reached it, the final status once sent, and the body. */
  datatype Wire<D> = Wire(calls: nat, status: Option<Status>, body: seq<D>)

  const UNTOUCHED := Layer(0, false)

  function Fresh<D>(): Wire<D> {
    Wire(0, None, [])
  }

  /** 1xx headers other than 101 are sent at once and leave the final status open. */
  predicate Informational(code: Status) {
    code < 200 && code != 101
  }

  /** net/http's WriteHeader: the first final status stands. */
  function WireHeader<D>(w: Wire<D>, code: Status): Wire<D> {
    w.(calls := w.calls + 1, status := if w.status.Some? || Informational(code) then w.status else Some(code))
  }

  /** net/http's Flush: sends 200 if there is no status yet. */
  function WireFlush<D>(w: Wire<D>): Wire<D> {
    w.(status := Some(FinalStatus(w)))
  }

  function WireData<D>(w: Wire<D>, data: D): Wire<D> {
    WireFlush(w).(body := w.body + [data])
  }

  /** The status the client ends up with: 200 if the handler never set one. */
  function FinalStatus<D>(w: Wire<D>): Status {
    if w.status.Some? then w.status.value else 200
  }

  /** middleware.go:86-89: the status a middleware reports for its layer. */
  function Reported(l: Layer): int {
    if l.code == 0 then 200 else l.code
  }

  // ----------------------------------------- a stack on which every layer agrees

  function LayerStep<D>(l: Layer, op: Op<D>): Layer {
    match op
    case Header(code) => if l.wroteHeader then l else Layer(code, true)
    case Data(_) => l.(wroteHeader := true)
    case Flush => l
  }

  function WireStep<D>(l: Layer, w: Wire<D>, op: Op<D>): Wire<D> {
    match op
    case Header(code) => if l.wroteHeader then w else WireHeader(w, code)
    case Data(data) => WireData(w, data)
    case Flush => WireFlush(w)
  }

  /** Every layer's fields after a handler has done ops. */
  function LayerAfter<D>(ops: seq<Op<D>>): Layer {
    if ops == [] then UNTOUCHED else LayerStep(LayerAfter(ops[..|ops| - 1]), ops[|ops| - 1])
  }

  function WireAfter<D>(ops: seq<Op<D>>): Wire<D> {
    if ops == [] then Fresh()
    else WireStep(LayerAfter(ops[..|ops| - 1]), WireAfter(ops[..|ops| - 1]), ops[|ops| - 1])
  }

  /** The connection if the handler wrote to it directly. */
  function BareAfter<D>(ops: seq<Op<D>>): Wire<D> {
    if ops == [] then Fresh() else WireStep(UNTOUCHED, BareAfter(ops[..|ops| - 1]), ops[|ops| - 1])
  }

  class Connection<D> {
    var state: Wire<D>

    constructor ()
      ensures state == Fresh()
    {
      state := Fresh();
    }
  }

  class StatusWriter<D> {
    const inner: StatusWriter?<D>
    const wire: Connection<D>
    var code: int
    var wroteHeader: bool

    /** This layer and the ones below it, outermost first. */
    ghost const chain: seq<StatusWriter<D>>

    ghost predicate Linked()
      decreases |chain|
    {
      if inner == null then chain == [this]
      else chain == [this] + inner.chain && this !in inner.chain && inner.wire == wire && inner.Linked()
    }

    function View(): Layer
      reads this
    {
      Layer(code, wroteHeader)
    }

    /** Every layer below has this layer's fields. */
    ghost predicate Uniform(l: Layer)
      reads chain
    {
      forall i :: 0 <= i < |chain| ==> chain[i].View() == l
    }

    /** The innermost layer, over the connection. */
    constructor OnWire(wire: Connection<D>)
      ensures this.wire == wire && chain == [this] && Linked() && Uniform(UNTOUCHED)
    {
      this.inner, this.wire, this.chain := null, wire, [this];
      code, wroteHeader := 0, false;
    }

    /** One more layer over another. */
    constructor Over(inner: StatusWriter<D>)
      requires inner.Linked() && inner.Uniform(UNTOUCHED)
      ensures wire == inner.wire && chain == [this] + inner.chain && Linked() && Uniform(UNTOUCHED)
    {
      this.inner, this.wire, this.chain := inner, inner.wire, [this] + inner.chain;
      code, wroteHeader := 0, false;
    }

    /** The stack below this layer agrees too. */
    lemma InnerUniform(l: Layer)
      requires Linked() && Uniform(l)
      ensures View() == l && this in chain
      ensures inner != null ==> inner.Uniform(l) && inner.View() == l
      ensures inner != null ==> forall i :: 0 <= i < |inner.chain| ==> inner.chain[i] == chain[i + 1]
    {
      assert chain[0] == this;
      if inner != null {
        assert inner.chain[0] == inner == chain[1];
        assert forall i :: 0 <= i < |inner.chain| ==> inner.chain[i] == chain[i + 1];
      }
    }

    /** middleware.go:127-133 */
    method WriteHeader(status: Status)
      requires Linked() && Uniform(View())
      modifies chain, wire
      ensures View() == LayerStep(old(View()), Op<D>.Header(status)) && Uniform(View())
      ensures wire.state == WireStep(old(View()), old(wire.state), Header(status))
      decreases |chain|
    {
      InnerUniform(View());
      if !wroteHeader {
        code := status;
        wroteHeader := true;
        if inner == null {
          wire.state := WireHeader(wire.state, status);
        } else {
          inner.WriteHeader(status);
        }
      }
    }

    /** middleware.go:135-138 */
    method Write(data: D)
      requires Linked() && Uniform(View())
      modifies chain, wire
      ensures View() == LayerStep(old(View()), Op<D>.Data(data)) && Uniform(View())
      ensures wire.state == WireStep(old(View()), old(wire.state), Data(data))
      decreases |chain|
    {
      InnerUniform(View());
      wroteHeader := true;
      if inner == null {
        wire.state := WireData(wire.state, data);
      } else {
        inner.Write(data);
      }
    }

    /** http.ResponseController.Flush: follows Unwrap (middleware.go:142-144) down to the connection. */
    method FlushThrough()
      requires Linked()
      modifies wire
      ensures wire.state == WireFlush(old(wire.state))
      decreases |chain|
    {
      if inner == null {
        wire.state := WireFlush(wire.state);
      } else {
        inner.FlushThrough();
      }
    }

    /** A handler that does ops to a stack nobody has written to. */
    method Handle(ops: seq<Op<D>>)
      requires Linked() && Uniform(UNTOUCHED) && wire.state == Fresh()
      modifies chain, wire
      ensures Uniform(LayerAfter(ops)) && wire.state == WireAfter(ops)
    {
      assert chain[0] == this;
      for i := 0 to |ops|
        invariant Uniform(LayerAfter(ops[..i])) && wire.state == WireAfter(ops[..i])
      {
        assert ops[..i + 1][..i] == ops[..i];
        assert View() == LayerAfter(ops[..i]);
        match ops[i] {
          case Header(status) => WriteHeader(status);
          case Data(data) => Write(data);
          case Flush => FlushThrough();
        }
      }
      assert ops[..|ops|] == ops;
    }
  }

  // -------------------------------------------------- what the layers report

  /** The first operation a layer sees, if any. */
  function FirstSeen<D>(ops: seq<Op<D>>): Option<Op<D>> {
    if ops == [] then None else if ops[0].Flush? then FirstSeen(ops[1..]) else Some(ops[0])
  }

  /**
   * The layers are misled: their first operation sets a status other than 200 that does not
   * become the final one, because it is informational or because a flush came before it.
   */
  predicate Misled<D>(ops: seq<Op<D>>) {
    && FirstSeen(ops).Some? && FirstSeen(ops).value.Header?
    && FirstSeen(ops).value.code != 200
    && (ops[0].Flush? || Informational(FirstSeen(ops).value.code))
  }

  lemma {:induction false} FirstSeenOfLonger<D>(ops: seq<Op<D>>, op: Op<D>)
    ensures FirstSeen(ops + [op]) ==
            if FirstSeen(ops).Some? then FirstSeen(ops) else if op.Flush? then None else Some(op)
  {
    if ops == [] {
      assert [op][1..] == [];
    } else {
      assert (ops + [op])[1..] == ops[1..] + [op];
      FirstSeenOfLonger(ops[1..], op);
    }
  }

  /** A layer's fields depend on the first operation it sees alone. */
  lemma {:induction false} FirstSeenDecides<D>(ops: seq<Op<D>>)
    ensures LayerAfter(ops) ==
            match FirstSeen(ops)
            case None => UNTOUCHED
            case Some(op) => Layer(if op.Header? then op.code else 0, true)
  {
    if ops != [] {
      var front := ops[..|ops| - 1];
      FirstSeenDecides(front);
      FirstSeenOfLonger(front, ops[|ops| - 1]);
      assert ops == front + [ops[|ops| - 1]];
    }
  }

  /** The final status depends on the very first operation alone; an informational header does not count. */
  lemma {:induction false} FirstOperationDecides<D>(ops: seq<Op<D>>)
    requires ops != []
    ensures var w := WireAfter(ops);
            && FinalStatus(w) == (if ops[0].Header? && !Informational(ops[0].code) then ops[0].code else 200)
            && (w.status.None? ==> ops[0].Header? && Informational(ops[0].code))
            && (ops[0].Header? ==> LayerAfter(ops).wroteHeader)
  {
    var front := ops[..|ops| - 1];
    if front == [] {
      assert WireAfter(ops) == WireStep(UNTOUCHED, Fresh(), ops[0]);
    } else {
      FirstOperationDecides(front);
    }
  }

  /**
   * Every layer of a stack of any depth reports the status the client gets, whatever the
   * handler does, exactly when the handler did not mislead the layers.
   */
  lemma LayersAgreeIff<D>(ops: seq<Op<D>>)
    ensures Reported(LayerAfter(ops)) == FinalStatus(WireAfter(ops)) <==> !Misled(ops)
  {
    FirstSeenDecides(ops);
    if ops != [] {
      FirstOperationDecides(ops);
    }
  }

  /** The smallest misled handlers: the client gets 200, every layer reports something else. */
  lemma MisledExamples<D>()
    ensures var early: seq<Op<D>> := [Flush, Header(500)];
            && Reported(LayerAfter(early)) == 500 && FinalStatus(WireAfter(early)) == 200
    ensures var hints: seq<Op<D>> := [Header(103), Header(404)];
            && Reported(LayerAfter(hints)) == 103 && FinalStatus(WireAfter(hints)) == 200
  {
    var early: seq<Op<D>>, hints: seq<Op<D>> := [Flush, Header(500)], [Header(103), Header(404)];
    assert early[1..] == [Header(500)];
    FirstSeenDecides(early);
    FirstOperationDecides(early);
    FirstSeenDecides(hints);
    FirstOperationDecides(hints);
  }

  /** With final statuses only and no flush before the first write, they always agree. */
  lemma FinalStatusesAgree<D>(ops: seq<Op<D>>)
    requires forall i :: 0 <= i < |ops| && ops[i].Header? ==> ops[i].code >= 200
    requires ops != [] ==> !ops[0].Flush?
    ensures Reported(LayerAfter(ops)) == FinalStatus(WireAfter(ops))
  {
    LayersAgreeIff(ops);
  }

  /** At most one WriteHeader call ever reaches the connection, and only the first operation's. */
  lemma {:induction false} OneHeaderReachesWire<D>(ops: seq<Op<D>>)
    ensures WireAfter(ops).calls == if FirstSeen(ops).Some? && FirstSeen(ops).value.Header? then 1 else 0
  {
    if ops != [] {
      var front := ops[..|ops| - 1];
      OneHeaderReachesWire(front);
      FirstSeenDecides(front);
      FirstSeenOfLonger(front, ops[|ops| - 1]);
      assert ops == front + [ops[|ops| - 1]];
    }
  }

  /** The first operation that commits a connection written to directly. */
  function FirstCommitting<D>(ops: seq<Op<D>>): Option<Op<D>> {
    if ops == [] then None
    else if ops[0].Header? && Informational(ops[0].code) then FirstCommitting(ops[1..])
    else Some(ops[0])
  }

  lemma {:induction false} FirstCommittingOfLonger<D>(ops: seq<Op<D>>, op: Op<D>)
    ensures FirstCommitting(ops + [op]) ==
            if FirstCommitting(ops).Some? then FirstCommitting(ops) else FirstCommitting([op])
  {
    if ops == [] {
      assert [] + [op] == [op];
    } else {
      assert (ops + [op])[1..] == ops[1..] + [op];
      FirstCommittingOfLonger(ops[1..], op);
    }
  }

  lemma {:induction false} BareStatus<D>(ops: seq<Op<D>>)
    ensures BareAfter(ops).status ==
            match FirstCommitting(ops)
            case None => None
            case Some(op) => Some(if op.Header? then op.code else 200)
    ensures BareAfter(ops).body == WireAfter(ops).body
  {
    if ops != [] {
      var front, last := ops[..|ops| - 1], ops[|ops| - 1];
      BareStatus(front);
      FirstCommittingOfLonger(front, last);
      assert ops == front + [last];
      assert FirstCommitting([last]) == if last.Header? && Informational(last.code) then None else Some(last);
    }
  }

  /**
   * The client gets the body, and unless the handler started with an informational header and
   * then set a final status other than 200, the status it would get without any layer.
   */
  lemma LayersAreTransparentIff<D>(ops: seq<Op<D>>)
    ensures WireAfter(ops).body == BareAfter(ops).body
    ensures FinalStatus(WireAfter(ops)) == FinalStatus(BareAfter(ops)) <==>
            !(&& ops != [] && ops[0].Header? && Informational(ops[0].code)
              && FirstCommitting(ops).Some? && FirstCommitting(ops).value.Header?
              && FirstCommitting(ops).value.code != 200)
  {
    BareStatus(ops);
    if ops != [] {
      FirstOperationDecides(ops);
    }
  }

  // -------------------------------------------------------------------- Recover

  datatype Ending = Returned | Panicked | Aborted

  /** What Recover makes of a response whose handler did ops and then ended that way. */
  function RecoveredWire<D>(ops: seq<Op<D>>, ending: Ending, errorJson: D): Wire<D> {
    if ending == Panicked && !LayerAfter(ops).wroteHeader then
      WireData(WireHeader(WireAfter(ops), 500), errorJson)
    else WireAfter(ops)
  }

  /**
   * middleware.go:40-58: the handler writes through `depth` further layers above Recover's own;
   * `rethrown` is set when the panic is passed on.
   */
  method Recover<D>(wire: Connection<D>, depth: nat, ops: seq<Op<D>>, ending: Ending, errorJson: D)
    returns (tracked: StatusWriter<D>, rethrown: bool)
    requires wire.state == Fresh()
    modifies wire
    ensures rethrown <==> ending == Aborted
    ensures wire.state == RecoveredWire(ops, ending, errorJson)
    ensures tracked.wire == wire && fresh(tracked)
    ensures ending != Panicked || LayerAfter(ops).wroteHeader ==> tracked.View() == LayerAfter(ops)
    ensures ending == Panicked && !LayerAfter(ops).wroteHeader ==> tracked.View() == Layer(500, true)
  {
    tracked := new StatusWriter.OnWire(wire);
    var top := tracked;
    for i := 0 to depth
      invariant top.Linked() && top.Uniform(UNTOUCHED) && top.wire == wire && wire.state == Fresh()
      invariant tracked in top.chain && fresh(top.chain)
    {
      top := new StatusWriter.Over(top);
    }
    top.Handle(ops);
    if ending == Aborted {
      return tracked, true;
    }
    if ending == Panicked {
      if !tracked.wroteHeader {
        tracked.WriteHeader(500);
        tracked.Write(errorJson);
      }
    }
    return tracked, false;
  }

  /**
   * Recovering from a panic changes the status exactly when nothing at all was sent, and then
   * sends a clean 500; it changes the response exactly when no layer saw a write.
   */
  lemma RecoverChangesStatusIff<D>(ops: seq<Op<D>>, errorJson: D)
    ensures var before, after := WireAfter(ops), RecoveredWire(ops, Panicked, errorJson);
            && (FinalStatus(after) != FinalStatus(before) <==> ops == [])
            && (ops == [] ==> after == Wire(1, Some(500), [errorJson]))
            && (after != before <==> FirstSeen(ops).None?)
  {
    FirstSeenDecides(ops);
    if ops != [] {
      FirstOperationDecides(ops);
    }
  }

  // ------------------------------------------------------- the streaming handler

  /** The operations behind one entry of a streaming response's log. */
  function OpsOf(entry: Stream.WireOp): seq<Op<Stream.WireOp>>
    requires entry.Status? ==> 100 <= entry.code <= 999
  {
    match entry
    case Status(code) => [Header(code)]
    case Body(_) => [Data(entry)]
    case Event(_, _, delivery) => if delivery.WriteFailed? then [Data(entry)] else [Data(entry), Flush]
  }

  function AllOpsOf(log: seq<Stream.WireOp>): seq<Op<Stream.WireOp>>
    requires forall i :: 0 <= i < |log| && log[i].Status? ==> 100 <= log[i].code <= 999
  {
    if log == [] then [] else OpsOf(log[0]) + AllOpsOf(log[1..])
  }

  /** A streaming response is logged and counted with the very status its client received. */
  lemma StreamStatusIsReported(log: seq<Stream.WireOp>)
    requires Stream.Transcript(log)
    ensures Reported(LayerAfter(AllOpsOf(log))) == log[0].code == FinalStatus(WireAfter(AllOpsOf(log)))
  {
    var ops := AllOpsOf(log);
    assert ops[0] == Header(log[0].code);
    LayersAgreeIff(ops);
    FirstOperationDecides(ops);
  }

  /** A backoff that panics under a streaming request still gives its client a clean 500. */
  lemma PanickedStreamGets500(q: Stream.Request, n: nat, errorJson: Stream.WireOp)
    requires Stream.LastStream(q, Stream.FRESH, n) && Stream.StreamOutcome(q, Stream.FRESH, n).Panicked?
    ensures Stream.Wire(q, n).log == []
    ensures RecoveredWire(AllOpsOf(Stream.Wire(q, n).log), Panicked, errorJson) == Wire(1, Some(500), [errorJson])
  {
    var _ := Stream.StreamTranscript(q, n);
    RecoverChangesStatusIff(AllOpsOf(Stream.Wire(q, n).log), errorJson);
  }
}
