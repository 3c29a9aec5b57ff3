/** The event funnel: any number of input channels drained into one output channel, which is closed once the
    context is done and every drain has finished.  Goroutines interleave freely. */
module EventFunnel {
  import opened Base

  datatype Event = Event(payload: string)

  /** A drain goroutine: accepted but not yet running, reading, holding an event it is about to send,
      ended with its decrement still to be delivered, or finished. */
  datatype Phase = Starting | Reading | Holding(event: Event) | Ending | Finished

  datatype Drain = Drain(phase: Phase, taken: seq<Event>)

  /** noticed: the loop has seen that the context is done.  running: the loop still receives. */
  datatype Funnel = Funnel(
    ctxDone: bool,
    noticed: bool,
    counter: int,
    running: bool,
    outClosed: bool,
    doneClosed: bool,
    drains: map<nat, Drain>,
    out: seq<(nat, Event)>)

  datatype Label =
    | CancelContext
    | NoticeContext
    | Accept(input: nat)
    | Reject
    | StartDrain(input: nat)
    | Take(input: nat, event: Event)
    | Send(input: nat)
    | InputClosed(input: nat)
    | Decrement(input: nat)
    | CloseOut
    | CloseDone

  const INITIAL := Funnel(false, false, 0, true, false, false, map[], [])

  /** The check at the end of each turn of the loop. */
  function TurnEnd(f: Funnel): Funnel {
    if f.noticed && f.counter <= 0 then f.(running := false) else f
  }

  predicate In(f: Funnel, i: nat, phase: Phase) {
    i in f.drains && f.drains[i].phase == phase
  }

  function SetPhase(f: Funnel, i: nat, phase: Phase): Funnel
    requires i in f.drains
  {
    f.(drains := f.drains[i := f.drains[i].(phase := phase)])
  }

  function Step(f: Funnel, l: Label): Option<Funnel> {
    match l
    case CancelContext => Some(f.(ctxDone := true))
    case NoticeContext =>
      if f.running && f.ctxDone && !f.noticed then Some(TurnEnd(f.(noticed := true))) else None
    case Accept(i) =>
      if f.running && i !in f.drains then
        Some(TurnEnd(f.(counter := f.counter + 1, drains := f.drains[i := Drain(Starting, [])])))
      else None
    case Reject => if f.ctxDone then Some(f) else None
    case StartDrain(i) => if In(f, i, Starting) then Some(SetPhase(f, i, Reading)) else None
    case Take(i, e) =>
      if In(f, i, Reading) then Some(f.(drains := f.drains[i := Drain(Holding(e), f.drains[i].taken + [e])])) else None
    case Send(i) =>
      if i in f.drains && f.drains[i].phase.Holding? && !f.outClosed then
        Some(SetPhase(f, i, Reading).(out := f.out + [(i, f.drains[i].phase.event)]))
      else None
    case InputClosed(i) => if In(f, i, Reading) then Some(SetPhase(f, i, Ending)) else None
    case Decrement(i) =>
      if f.running && In(f, i, Ending) then Some(TurnEnd(SetPhase(f, i, Finished).(counter := f.counter - 1))) else None
    case CloseOut => if !f.running && !f.outClosed then Some(f.(outClosed := true)) else None
    case CloseDone => if f.outClosed && !f.doneClosed then Some(f.(doneClosed := true)) else None
  }

  function Exec(labels: seq<Label>): Option<Funnel> {
    if labels == [] then Some(INITIAL)
    else
      match Exec(labels[..|labels| - 1])
      case None => None
      case Some(f) => Step(f, labels[|labels| - 1])
  }

  ghost predicate Reachable(f: Funnel) {
    exists labels :: Exec(labels) == Some(f)
  }

  // ---------- The invariant ----------

  /** The accepted inputs whose drain has not finished. */
  function Unfinished(f: Funnel): set<nat> {
    set i | i in f.drains && f.drains[i].phase != Finished
  }

  /** The events of one input, in the order they came out. */
  function From(out: seq<(nat, Event)>, i: nat): seq<Event> {
    if out == [] then []
    else
      var front := From(out[..|out| - 1], i);
      if out[|out| - 1].0 == i then front + [out[|out| - 1].1] else front
  }

  function Held(p: Phase): seq<Event> {
    if p.Holding? then [p.event] else []
  }

  ghost predicate Counts(f: Funnel) {
    && f.counter == |Unfinished(f)|
    && (f.noticed ==> f.ctxDone)
    && (f.running <==> !(f.noticed && Unfinished(f) == {}))
    && (f.outClosed ==> !f.running)
    && (f.doneClosed ==> f.outClosed)
  }

  /** What came out of each input, and what is held, is what was taken from it. */
  ghost predicate Streams(drains: map<nat, Drain>, out: seq<(nat, Event)>) {
    && (forall i :: i in drains ==> From(out, i) + Held(drains[i].phase) == drains[i].taken)
    && (forall i: nat :: i !in drains ==> From(out, i) == [])
  }

  ghost predicate Ok(f: Funnel) {
    Counts(f) && Streams(f.drains, f.out)
  }

  lemma FromSnoc(out: seq<(nat, Event)>, i: nat, e: Event, j: nat)
    ensures From(out + [(i, e)], j) == if i == j then From(out, j) + [e] else From(out, j)
  {
    assert (out + [(i, e)])[..|out|] == out;
  }

  lemma PhaseCount(f: Funnel, i: nat, d: Drain)
    requires i in f.drains ==> (f.drains[i].phase == Finished <==> d.phase == Finished)
    requires i in f.drains
    ensures Unfinished(f.(drains := f.drains[i := d])) == Unfinished(f)
  {
  }

  lemma AcceptCount(f: Funnel, i: nat)
    requires i !in f.drains
    ensures Unfinished(f.(drains := f.drains[i := Drain(Starting, [])])) == Unfinished(f) + {i}
    ensures |Unfinished(f) + {i}| == |Unfinished(f)| + 1 && Unfinished(f) + {i} != {}
  {
    assert i in Unfinished(f) + {i};
  }

  lemma FinishCount(f: Funnel, i: nat)
    requires In(f, i, Ending)
    ensures Unfinished(SetPhase(f, i, Finished)) == Unfinished(f) - {i}
    ensures |Unfinished(f) - {i}| == |Unfinished(f)| - 1
    ensures |Unfinished(f) - {i}| == 0 <==> Unfinished(f) - {i} == {}
  {
  }

  /** A drain moves on without finishing or sending. */
  lemma DrainMoveOk(f: Funnel, g: Funnel, i: nat, d: Drain)
    requires Ok(f) && i in f.drains && f.drains[i].phase != Finished && d.phase != Finished
    requires g == f.(drains := f.drains[i := d])
    requires From(f.out, i) + Held(d.phase) == d.taken
    ensures Ok(g)
  {
    PhaseCount(f, i, d);
    hide Unfinished, From;
  }

  lemma SendStreams(drains: map<nat, Drain>, out: seq<(nat, Event)>, i: nat, e: Event)
    requires Streams(drains, out) && i in drains && drains[i].phase == Holding(e)
    ensures Streams(drains[i := drains[i].(phase := Reading)], out + [(i, e)])
  {
    var drains', out' := drains[i := drains[i].(phase := Reading)], out + [(i, e)];
    hide From;
    forall j | j in drains' ensures From(out', j) + Held(drains'[j].phase) == drains'[j].taken {
      FromSnoc(out, i, e, j);
      if j == i {
        assert From(out, i) + [e] + [] == From(out, i) + [e] == drains[i].taken;
      }
    }
    forall j: nat | j !in drains' ensures From(out', j) == [] {
      FromSnoc(out, i, e, j);
    }
  }

  lemma SendOk(f: Funnel, g: Funnel, i: nat)
    requires Ok(f) && Step(f, Send(i)) == Some(g)
    ensures Ok(g)
  {
    PhaseCount(f, i, f.drains[i].(phase := Reading));
    SendStreams(f.drains, f.out, i, f.drains[i].phase.event);
    assert Unfinished(g) == Unfinished(f);
    hide Unfinished, Streams;
  }

  lemma StepOk(f: Funnel, l: Label, g: Funnel)
    requires Ok(f) && Step(f, l) == Some(g)
    ensures Ok(g)
  {
    match l
    case Accept(i) => AcceptOk(f, i, g);
    case StartDrain(i) => DrainMoveOk(f, g, i, f.drains[i].(phase := Reading));
    case Take(i, e) => DrainMoveOk(f, g, i, Drain(Holding(e), f.drains[i].taken + [e]));
    case Send(i) => SendOk(f, g, i);
    case InputClosed(i) => DrainMoveOk(f, g, i, f.drains[i].(phase := Ending));
    case Decrement(i) => DecrementOk(f, i, g);
    case _ =>
      assert Unfinished(g) == Unfinished(f);
      assert |Unfinished(f)| == 0 <==> Unfinished(f) == {};
  }

  lemma AcceptOk(f: Funnel, i: nat, g: Funnel)
    requires Ok(f) && Step(f, Accept(i)) == Some(g)
    ensures Ok(g)
  {
    AcceptCount(f, i);
    assert Unfinished(g) == Unfinished(f) + {i};
  }

  lemma DecrementOk(f: Funnel, i: nat, g: Funnel)
    requires Ok(f) && Step(f, Decrement(i)) == Some(g)
    ensures Ok(g)
  {
    FinishCount(f, i);
    assert Unfinished(g) == Unfinished(f) - {i};
  }

  lemma {:induction false} ExecOk(labels: seq<Label>)
    requires Exec(labels).Some?
    ensures Ok(Exec(labels).value)
  {
    if labels != [] {
      ExecOk(labels[..|labels| - 1]);
      StepOk(Exec(labels[..|labels| - 1]).value, labels[|labels| - 1], Exec(labels).value);
    } else {
      assert Unfinished(INITIAL) == {};
    }
  }

  // ---------- What a reader may rely on ----------

  /** The counter is always the number of accepted inputs whose drain has not finished. */
  lemma CounterExact(f: Funnel)
    requires Reachable(f)
    ensures f.counter == |Unfinished(f)|
  {
    var labels :| Exec(labels) == Some(f);
    ExecOk(labels);
  }

  /** The loop has stopped exactly when it noticed the context and every drain has finished: no wake-up is missed,
      and the output is never closed while a drain could still send on it. */
  lemma ClosesOnlyWhenQuiet(f: Funnel)
    requires Reachable(f)
    ensures !f.running <==> f.noticed && forall i :: i in f.drains ==> f.drains[i].phase == Finished
    ensures f.outClosed ==> f.ctxDone && forall i :: i in f.drains ==> f.drains[i].phase == Finished
    ensures f.doneClosed ==> f.outClosed
  {
    var labels :| Exec(labels) == Some(f);
    ExecOk(labels);
    assert (forall i :: i in f.drains ==> f.drains[i].phase == Finished) <==> Unfinished(f) == {} by {
      if Unfinished(f) == {} {
        forall i | i in f.drains ensures f.drains[i].phase == Finished {
          assert i !in Unfinished(f);
        }
      }
    }
  }

  /** An event a drain holds can always be sent, and an ended drain can always report: nothing blocks or panics
      because the funnel closed too early. */
  lemma DrainsNeverStuck(f: Funnel, i: nat)
    requires Reachable(f) && i in f.drains
    ensures f.drains[i].phase.Holding? ==> Step(f, Send(i)).Some?
    ensures f.drains[i].phase == Ending ==> Step(f, Decrement(i)).Some?
  {
    ClosesOnlyWhenQuiet(f);
  }

  /** Per input, the events come out in the order they were taken; at most the one held is missing,
      and none once the drain has finished, so none is missing when the output is closed. */
  lemma InputsInOrder(f: Funnel, i: nat)
    requires Reachable(f)
    ensures i in f.drains ==> From(f.out, i) + Held(f.drains[i].phase) == f.drains[i].taken
    ensures i in f.drains && (f.drains[i].phase == Finished || f.outClosed) ==> From(f.out, i) == f.drains[i].taken
    ensures i !in f.drains ==> From(f.out, i) == []
  {
    var labels :| Exec(labels) == Some(f);
    ExecOk(labels);
    ClosesOnlyWhenQuiet(f);
  }

  /** Once the loop has stopped it stays stopped and accepts no input; adding one can only return the closed error. */
  lemma {:induction false} ClosedForGood(labels: seq<Label>, more: seq<Label>)
    requires Exec(labels).Some? && !Exec(labels).value.running && Exec(labels + more).Some?
    ensures var f, g := Exec(labels).value, Exec(labels + more).value;
      && !g.running && g.drains == f.drains && g.out == f.out
      && Step(g, Reject) == Some(g) && forall i :: Step(g, Accept(i)) == None
  {
    ExecOk(labels);
    if more == [] {
      assert labels + more == labels;
      var f := Exec(labels).value;
      assert f.ctxDone;
    } else {
      var front := more[..|more| - 1];
      assert (labels + more)[..|labels + more| - 1] == labels + front;
      ClosedForGood(labels, front);
      var g := Exec(labels + front).value;
      assert Reachable(g);
      ClosesOnlyWhenQuiet(g);
    }
  }

  // ---------- The loop itself ----------

  /** What the loop receives. */
  datatype Received = Delta(delta: int) | ContextDone

  function Sum(s: seq<Received>): int {
    if s == [] then 0
    else Sum(s[..|s| - 1]) + if s[|s| - 1].Delta? then s[|s| - 1].delta else 0
  }

  predicate Quiet(s: seq<Received>) {
    ContextDone in s && Sum(s) <= 0
  }

  /** The goroutine of the funnel: counts until the context is done and the count is not positive.
      It closes after the first non-empty prefix of what it receives for which both hold. */
  method CountInputs(received: seq<Received>) returns (inputs: int, closed: bool, used: nat)
    ensures used <= |received| && inputs == Sum(received[..used])
    ensures closed ==> used > 0 && Quiet(received[..used])
    ensures !closed ==> used == |received|
    ensures forall k :: 0 < k <= used && (k < used || !closed) ==> !Quiet(received[..k])
  {
    inputs, closed, used := 0, false, 0;
    var ctxDone := false;
    while used < |received|
      invariant used <= |received| && inputs == Sum(received[..used])
      invariant ctxDone <==> ContextDone in received[..used]
      invariant forall k :: 0 < k <= used ==> !Quiet(received[..k])
    {
      assert received[..used + 1][..used] == received[..used];
      match received[used] {
        case Delta(delta) => inputs := inputs + delta;
        case ContextDone => ctxDone := true;
      }
      used := used + 1;
      if ctxDone && inputs <= 0 {
        closed := true;
        return;
      }
    }
  }

  function DeliveredBy(l: Label): seq<Received> {
    match l
    case NoticeContext => [ContextDone]
    case Accept(_) => [Delta(1)]
    case Decrement(_) => [Delta(-1)]
    case _ => []
  }

  /** What the labels of a run deliver to the loop while it receives. */
  function Delivered(labels: seq<Label>): seq<Received> {
    if labels == [] then [] else Delivered(labels[..|labels| - 1]) + DeliveredBy(labels[|labels| - 1])
  }

  /** One label and what it delivers. */
  lemma LoopStep(f: Funnel, l: Label, g: Funnel, e: seq<Received>, d: seq<Received>)
    requires Step(f, l) == Some(g) && (f.running <==> !(f.noticed && f.counter <= 0))
    requires f.counter == Sum(e) && (f.noticed <==> ContextDone in e)
    requires d == e + DeliveredBy(l)
    ensures g.counter == Sum(d) && (g.noticed <==> ContextDone in d) && (g.running <==> !(g.noticed && g.counter <= 0))
  {
    if DeliveredBy(l) == [] {
      assert d == e;
    } else {
      assert d[..|d| - 1] == e;
    }
  }

  /** The state machine's counter and closing are those of the loop on what it was delivered. */
  lemma {:induction false} LoopAgrees(labels: seq<Label>)
    requires Exec(labels).Some?
    ensures var f, d := Exec(labels).value, Delivered(labels);
      f.counter == Sum(d) && (f.noticed <==> ContextDone in d) && (f.running <==> !(f.noticed && f.counter <= 0))
    ensures !Exec(labels).value.running <==> Quiet(Delivered(labels))
  {
    if labels != [] {
      var front, l := labels[..|labels| - 1], labels[|labels| - 1];
      LoopAgrees(front);
      LoopStep(Exec(front).value, l, Exec(labels).value, Delivered(front), Delivered(labels));
      hide Step, Sum;
    }
  }
}
