/** The output side of a TCP connection: payloads are queued in a buffer chain and leave in
  * whatever pieces the kernel takes.
  *
  * The kernel's answers to the send calls of one operation are a parameter; when they run out
  * it would block. A send never takes more bytes than it was offered.
  */
module ConnectionOutput {
  import opened Bits
  import opened BufferChain

  datatype Answer = Sent(n: nat) | Interrupted | WouldBlock | Failed
  datatype SendResult = Accepted | Backpressure | Closed
  datatype CloseReason = Local | Error
  datatype Closing = Open | ClosedBy(reason: CloseReason)

  // Why a flush stopped writing.
  datatype Stop = Emptied | TookNothing | Blocked | Broken

  const MAX_VIEWS: nat := 64

  function Min(a: nat, b: nat): nat {
    if a < b then a else b
  }

  // ---- What a flush does to queued buffers of these lengths ----

  datatype Flushed = Flushed(stop: Stop, lens: seq<nat>)

  function Flush(lens: seq<nat>, answers: seq<Answer>): Flushed
    decreases |answers|
  {
    if lens == [] then Flushed(Emptied, lens)
    else if answers == [] then Flushed(Blocked, lens)
    else
      match answers[0]
      case Sent(n) => if n == 0 then Flushed(TookNothing, lens) else Flush(Taken(lens, n), answers[1..])
      case Interrupted => Flush(lens, answers[1..])
      case WouldBlock => Flushed(Blocked, lens)
      case Failed => Flushed(Broken, lens)
  }

  // The lengths left after a send that took up to n bytes of what was offered.
  function Taken(lens: seq<nat>, n: nat): seq<nat> {
    DropBytes(lens, Min(n, Offered(lens, MAX_VIEWS)))
  }

  predicate Goes(a: Answer) {
    a == Interrupted || (a.Sent? && a.n > 0)
  }

  // The lengths left after answers that all let the loop go on.
  function After(lens: seq<nat>, answers: seq<Answer>): seq<nat>
    decreases |answers|
  {
    if answers == [] then lens
    else After(if answers[0].Sent? then Taken(lens, answers[0].n) else lens, answers[1..])
  }

  // The flush comes to its k-th answer: all before it let it go on, and bytes were queued throughout.
  ghost predicate Reaches(lens: seq<nat>, answers: seq<Answer>, k: nat) {
    && k <= |answers| && (forall i: nat | i < k :: Goes(answers[i]))
    && (forall i: nat | i <= k :: After(lens, answers[..i]) != [])
  }

  // ... and that answer, or that there is none, is a reason to stop.
  ghost predicate StopsAt(lens: seq<nat>, answers: seq<Answer>, k: nat, stop: Stop) {
    && Reaches(lens, answers, k)
    && match stop
       case Emptied => false
       case TookNothing => k < |answers| && answers[k] == Sent(0)
       case Blocked => k == |answers| || answers[k] == WouldBlock
       case Broken => k < |answers| && answers[k] == Failed
  }

  lemma AfterFirst(lens: seq<nat>, answers: seq<Answer>, i: nat)
    requires 0 < i <= |answers| && Goes(answers[0])
    ensures After(lens, answers[..i])
         == After(if answers[0].Sent? then Taken(lens, answers[0].n) else lens, answers[1..][..i - 1])
  {
    assert answers[..i][1..] == answers[1..][..i - 1];
  }

  // One answer that lets the loop go on shifts the place where it stops.
  lemma ReachesLater(lens: seq<nat>, answers: seq<Answer>, k: nat)
    requires lens != [] && answers != [] && Goes(answers[0])
    ensures Reaches(lens, answers, k + 1)
       <==> Reaches(if answers[0].Sent? then Taken(lens, answers[0].n) else lens, answers[1..], k)
  {
    var rest := if answers[0].Sent? then Taken(lens, answers[0].n) else lens;
    if Reaches(lens, answers, k + 1) {
      forall i: nat | i <= k
        ensures After(rest, answers[1..][..i]) != []
      {
        AfterFirst(lens, answers, i + 1);
      }
      assert forall i: nat | i < k :: answers[1..][i] == answers[i + 1];
    }
    if Reaches(rest, answers[1..], k) {
      forall i: nat | i <= k + 1
        ensures After(lens, answers[..i]) != []
      {
        if i > 0 {
          AfterFirst(lens, answers, i);
        }
      }
      assert forall i: nat | 0 < i < k + 1 :: answers[i] == answers[1..][i - 1];
    }
  }

  lemma StopsLater(lens: seq<nat>, answers: seq<Answer>, k: nat, stop: Stop)
    requires lens != [] && answers != [] && Goes(answers[0])
    ensures StopsAt(lens, answers, k + 1, stop)
       <==> StopsAt(if answers[0].Sent? then Taken(lens, answers[0].n) else lens, answers[1..], k, stop)
  {
    ReachesLater(lens, answers, k);
  }

  lemma StopsAtFirst(lens: seq<nat>, answers: seq<Answer>, stop: Stop)
    requires lens == [] || answers == [] || !Goes(answers[0])
    ensures Flush(lens, answers).stop == stop && stop != Emptied <==> StopsAt(lens, answers, 0, stop)
    ensures forall k: nat :: StopsAt(lens, answers, k, stop) ==> k == 0
  {
    assert After(lens, answers[..0]) == lens;
    forall k: nat | StopsAt(lens, answers, k, stop)
      ensures k == 0
    {
      assert After(lens, answers[..0]) != [];
    }
  }

  /** A flush stops with bytes queued because a send took nothing, would block or failed, if and
    * only if some answer says so while bytes are still queued and every answer before it let the
    * flush go on; running out of answers is blocking.
    */
  lemma {:induction false} StopsExactly(lens: seq<nat>, answers: seq<Answer>, stop: Stop)
    ensures Flush(lens, answers).stop == stop && stop != Emptied <==> exists k: nat :: StopsAt(lens, answers, k, stop)
    decreases |answers|
  {
    if lens == [] || answers == [] || !Goes(answers[0]) {
      StopsAtFirst(lens, answers, stop);
    } else {
      var rest := if answers[0].Sent? then Taken(lens, answers[0].n) else lens;
      StopsExactly(rest, answers[1..], stop);
      forall k: nat
        ensures StopsAt(lens, answers, k + 1, stop) <==> StopsAt(rest, answers[1..], k, stop)
      {
        StopsLater(lens, answers, k, stop);
      }
      if k: nat :| StopsAt(lens, answers, k, stop) {
        assert k > 0 && StopsAt(lens, answers, k - 1 + 1, stop);
        assert StopsAt(rest, answers[1..], k - 1, stop);
      }
      if k: nat :| StopsAt(rest, answers[1..], k, stop) {
        assert StopsAt(lens, answers, k + 1, stop);
      }
    }
  }

  /** It runs out of bytes exactly when nothing is left, and it stops short for an error or a
    * send that took nothing only if there is such an answer.
    */
  lemma {:induction false} FlushStops(lens: seq<nat>, answers: seq<Answer>)
    ensures var f := Flush(lens, answers);
            && (f.stop == Emptied <==> f.lens == [])
            && (f.stop == TookNothing ==> Sent(0) in answers)
            && (f.stop == Broken ==> Failed in answers)
    decreases |answers|
  {
    if lens != [] && answers != [] && Goes(answers[0]) {
      FlushStops(if answers[0].Sent? then Taken(lens, answers[0].n) else lens, answers[1..]);
    }
  }

  // ---- What the direct send of n bytes does ----

  datatype Tried = Tried(taken: nat, broken: bool)

  function Direct(n: nat, answers: seq<Answer>): (r: Tried)
    ensures r.taken <= n && (r.broken ==> r.taken == 0)
  {
    if answers == [] then Tried(0, false)
    else
      match answers[0]
      case Sent(m) => Tried(Min(m, n), false)
      case Interrupted => Direct(n, answers[1..])
      case WouldBlock => Tried(0, false)
      case Failed => Tried(0, true)
  }

  /** The first answer that is not an interruption decides the direct send. */
  lemma {:induction false} DirectIsDecidedBy(n: nat, answers: seq<Answer>, k: nat)
    requires k <= |answers| && (forall i: nat | i < k :: answers[i] == Interrupted)
    requires k < |answers| ==> answers[k] != Interrupted
    ensures Direct(n, answers).broken <==> k < |answers| && answers[k] == Failed
    ensures Direct(n, answers).taken == if k < |answers| && answers[k].Sent? then Min(answers[k].n, n) else 0
    decreases |answers|
  {
    if k > 0 {
      assert forall i: nat | i < k - 1 :: answers[1..][i] == answers[i + 1];
      DirectIsDecidedBy(n, answers[1..], k - 1);
    }
  }

  class Connection {
    const output: Chain
    const watermark: nat
    var closing: Closing
    var queued: nat
    var closeAfterFlush: bool
    var shutdownRequested: bool
    var shutdownDone: bool
    var readPaused: bool
    var wantsWritable: bool        // the writable interest registered for the socket

    ghost var wire: seq<Byte>      // everything the kernel took
    ghost var due: seq<Byte>       // everything sent or queued, in order
    ghost var accepted: seq<Byte>  // all accepted payloads, one after the other
    ghost var torn: bool           // a part of a refused payload was sent

    ghost predicate Intact()
      reads this, output
    {
      && output.Valid() && output.Full()
      && wire <= due && (!torn ==> due == accepted)
      && (closing == Open ==> wire + output.Contents() == due)
      && (closing == Open ==> queued == |output.Contents()| <= watermark)
    }

    // Queued output always waits for the socket to become writable.
    ghost predicate Armed()
      requires output.Valid()
      reads this, output
    {
      closing == Open && output.Contents() != [] ==> wantsWritable
    }

    ghost predicate Valid()
      reads this, output
    {
      Intact() && Armed()
    }

    constructor (limit: nat)
      ensures Valid() && closing == Open && watermark == limit && fresh(output) && output.Lens() == []
      ensures wire == [] && due == [] && accepted == [] && !torn
      ensures !closeAfterFlush && !shutdownRequested && !shutdownDone
    {
      output := new Chain();
      watermark, closing, queued := limit, Open, 0;
      closeAfterFlush, shutdownRequested, shutdownDone, readPaused := false, false, false, false;
      wantsWritable := false;
      wire, due, accepted, torn := [], [], [], false;
    }

    method UpdateInterest()
      requires Intact()
      modifies `wantsWritable
      ensures Valid()
      ensures if closing == Open then wantsWritable <==> output.Lens() != [] else wantsWritable == old(wantsWritable)
    {
      if closing == Open {
        var empty := output.IsEmpty();
        wantsWritable := !empty;
      }
    }

    method CloseNow(reason: CloseReason)
      requires Intact()
      modifies `closing
      ensures Valid() && closing == if old(closing) == Open then ClosedBy(reason) else old(closing)
    {
      if closing == Open {
        closing := ClosedBy(reason);
      }
    }

    // One send call: what was offered and taken moves from the chain to the wire.
    method SendOnce(n: nat)
      requires Intact() && closing == Open && output.Lens() != [] && n > 0
      modifies this`queued, this`wire, output
      ensures Intact() && old(wire) <= wire
      ensures output.Lens() == Taken(old(output.Lens()), n)
      ensures |wire| == |old(wire)| + Min(n, Offered(old(output.Lens()), MAX_VIEWS)) > |old(wire)|
    {
      var views := output.FillViews(MAX_VIEWS);
      var offered := Concat(views);
      var taken := Min(n, |offered|);
      SomeOffered(output.Lens());
      Moved(wire, output.Contents(), offered, taken);
      wire := wire + offered[..taken];
      queued := queued - taken;
      output.RemovePrefix(taken);
    }

    // The loop of flush_output.
    method Drain(answers: seq<Answer>) returns (stop: Stop)
      requires Intact() && closing == Open
      modifies this`queued, this`wire, output
      ensures Intact() && old(wire) <= wire
      ensures Flushed(stop, output.Lens()) == Flush(old(output.Lens()), answers)
      ensures stop == Emptied <==> output.Contents() == []
    {
      var i := 0;
      FlushStops(output.Lens(), answers);
      assert answers[0..] == answers;
      while true
        invariant 0 <= i <= |answers| && Intact() && old(wire) <= wire
        invariant Flush(output.Lens(), answers[i..]) == Flush(old(output.Lens()), answers)
        decreases |answers| - i
      {
        var empty := output.IsEmpty();
        if empty {
          return Emptied;
        }
        if i == |answers| {
          return Blocked;
        }
        assert answers[i..][0] == answers[i] && answers[i..][1..] == answers[i + 1..];
        match answers[i] {
          case Sent(n) =>
            if n == 0 {
              return TookNothing;
            }
            SendOnce(n);
          case Interrupted =>
          case WouldBlock => return Blocked;
          case Failed => return Broken;
        }
        i := i + 1;
      }
    }

    // Why a flush of the queue as it is will stop.
    ghost function WillStop(answers: seq<Answer>): Stop
      requires output.Valid()
      reads this, output
    {
      Flush(output.Lens(), answers).stop
    }

    // How a flush that stops for this reason leaves an open connection.
    ghost function ClosingFor(stop: Stop): Closing
      reads this
    {
      if stop == Broken then ClosedBy(Error)
      else if closeAfterFlush && stop != Blocked then ClosedBy(Local)
      else Open
    }

    /** Writes out what the kernel takes, and then closes or half-closes as asked: exactly when
      * the queue ran empty or a send took nothing. Everything was written exactly in the first
      * of these cases.
      */
    method FlushOutput(answers: seq<Answer>, shutdownOk: bool)
      requires Intact() && closing == Open && (shutdownRequested ==> Armed())
      modifies `queued, `wire, `closing, `shutdownDone, `wantsWritable, output
      ensures Valid() && old(wire) <= wire
      ensures var stop := old(WillStop(answers));
              && (wire == due <==> stop == Emptied)
              && closing == ClosingFor(stop)
              && shutdownDone == (old(shutdownDone)
                                  || (closing == Open && stop != Blocked && shutdownRequested && shutdownOk))
      ensures Sent(0) !in answers ==> (closing == ClosedBy(Local) <==> closeAfterFlush && wire == due)
      ensures Sent(0) !in answers && shutdownDone && !old(shutdownDone) ==> wire == due
      ensures closing == Open && (shutdownRequested ==> shutdownDone) ==> (wantsWritable <==> output.Lens() != [])
    {
      FlushStops(output.Lens(), answers);
      var stop := Drain(answers);
      assert stop == Emptied <==> wire == due;
      match stop {
        case Blocked => UpdateInterest();
        case Broken => CloseNow(Error);
        case _ =>
          if closeAfterFlush {
            CloseNow(Local);
          } else if shutdownRequested && !shutdownDone {
            var _ := ShutdownWriteNow(shutdownOk);
          } else {
            UpdateInterest();
          }
      }
    }

    method ShutdownWriteNow(ok: bool) returns (done: bool)
      requires Valid()
      modifies `shutdownDone, `wantsWritable
      ensures Valid() && done == (closing == Open && !old(shutdownDone) && ok)
      ensures shutdownDone == (old(shutdownDone) || done)
      ensures done ==> (wantsWritable <==> output.Lens() != [])
    {
      if closing != Open || shutdownDone || !ok {
        return false;
      }
      shutdownDone := true;
      UpdateInterest();
      return true;
    }

    predicate Refuses()
      reads this
    {
      closing != Open || shutdownRequested || shutdownDone
    }

    predicate TooMuch(size: nat)
      reads this
    {
      queued >= watermark || size > watermark - queued
    }

    /** Accepts the whole payload or nothing: it is accepted exactly when the connection takes
      * payloads, there is room and memory for it, and the flush does not close the connection.
      */
    method SendBuffer(b: Buffer, memory: bool, answers: seq<Answer>) returns (r: SendResult)
      requires Valid() && b.Valid()
      modifies `queued, `wire, `due, `accepted, `closing, `shutdownDone, `wantsWritable, output
      ensures Valid() && old(wire) <= wire
      ensures r == Backpressure <==> !old(Refuses()) && b.size > 0 && (old(TooMuch(b.size)) || !memory)
      ensures if old(Refuses()) || r == Backpressure
              then due == old(due) && accepted == old(accepted) && wire == old(wire)
              else due == old(due) + b.View() && accepted == old(accepted) + b.View()
      ensures r == Accepted ==> closing == Open && accepted == old(accepted) + b.View()
      ensures r == Closed <==> old(Refuses()) || closing != Open
      ensures shutdownDone == old(shutdownDone)
      ensures !(old(Admits(b.size)) && memory) ==> closing == old(closing)
      ensures old(Admits(b.size)) && memory ==>
                var stop := Flush(old(output.Lens()) + [b.size], answers).stop;
                && closing == ClosingFor(stop) && (wire == due <==> stop == Emptied)
                && (closing == Open ==> (wantsWritable <==> output.Lens() != []))
    {
      if closing != Open || shutdownRequested || shutdownDone {
        return Closed;
      }
      if b.size == 0 {
        return Accepted;
      }
      if queued >= watermark || b.size > watermark - queued {
        return Backpressure;
      }
      if !memory {
        return Backpressure;
      }
      Enqueue(b);
      FlushOutput(answers, true);
      return if closing == Open then Accepted else Closed;
    }

    method Enqueue(b: Buffer)
      requires Intact() && closing == Open && b.Valid() && queued + b.size <= watermark
      modifies this`queued, this`due, this`accepted, output
      ensures Intact() && due == old(due) + b.View() && accepted == old(accepted) + b.View()
      ensures output.Lens() == if b.size == 0 then old(output.Lens()) else old(output.Lens()) + [b.size]
    {
      output.PushBack(b);
      queued := queued + b.size;
      due := due + b.View();
      accepted := accepted + b.View();
    }

    // The direct send of a payload while nothing is queued. What went out counts as accepted
    // unless the rest cannot be kept.
    method SendDirectly(view: seq<Byte>, answers: seq<Answer>, ghost memory: bool) returns (taken: nat, broken: bool)
      requires Valid() && closing == Open && output.Lens() == [] && |view| > 0
      modifies this`wire, this`due, this`accepted, this`torn
      ensures Valid() && Tried(taken, broken) == Direct(|view|, answers)
      ensures wire == old(wire) + view[..taken] && due == old(due) + view[..taken]
      ensures torn == (old(torn) || (!memory && 0 < taken < |view|))
      ensures accepted == if !memory && 0 < taken < |view| then old(accepted) else old(accepted) + view[..taken]
    {
      var i := 0;
      assert answers[0..] == answers;
      while i < |answers|
        invariant 0 <= i <= |answers| && Direct(|view|, answers[i..]) == Direct(|view|, answers)
        invariant wire == old(wire) && due == old(due) && accepted == old(accepted) && torn == old(torn)
      {
        assert answers[i..][0] == answers[i] && answers[i..][1..] == answers[i + 1..];
        match answers[i] {
          case Sent(n) =>
            taken := Min(n, |view|);
            wire := wire + view[..taken];
            due := due + view[..taken];
            if !memory && 0 < taken < |view| {
              torn := true;
            } else {
              accepted := accepted + view[..taken];
            }
            return taken, false;
          case Interrupted =>
          case WouldBlock => return 0, false;
          case Failed => return 0, true;
        }
        i := i + 1;
      }
      return 0, false;
    }

    // What the direct send, tried only while nothing is queued, will do with n bytes.
    ghost function Tries(n: nat, direct: seq<Answer>): Tried
      requires output.Valid()
      reads this, output
    {
      if output.Lens() == [] then Direct(n, direct) else Tried(0, false)
    }

    // The call gets as far as the socket or the queue.
    ghost predicate Admits(n: nat)
      reads this
    {
      !Refuses() && n > 0 && !TooMuch(n)
    }

    /** Tries the socket first when nothing is queued, and queues what it did not take. The
      * payload is accepted whole, or nothing of it goes out; it is torn if and only if the
      * socket took a part of it and there is no memory for the rest.
      */
    method SendView(view: seq<Byte>, memory: bool, direct: seq<Answer>, answers: seq<Answer>) returns (r: SendResult)
      requires Valid()
      modifies `queued, `wire, `due, `accepted, `torn, `closing, `shutdownDone, `wantsWritable, output
      ensures Valid() && old(wire) <= wire
      ensures var tried := old(Tries(|view|, direct));
              torn <==> old(torn) || (old(Admits(|view|)) && !memory && 0 < tried.taken < |view|)
      ensures var tried := old(Tries(|view|, direct));
              r == Backpressure <==>
                !old(Refuses()) && |view| > 0
                && (old(TooMuch(|view|)) || (!memory && !tried.broken && tried.taken < |view|))
      ensures var tried := old(Tries(|view|, direct));
              due == old(due) + if !old(Admits(|view|)) || tried.broken then []
                                else if memory then view else view[..tried.taken]
      ensures accepted == old(accepted) || accepted == old(accepted) + view
      ensures r == Accepted ==> closing == Open && accepted == old(accepted) + view
      ensures r == Backpressure ==> accepted == old(accepted)
      ensures r == Closed <==> old(Refuses()) || closing != Open
      ensures shutdownDone == old(shutdownDone)
      ensures var tried := old(Tries(|view|, direct));
              if old(Admits(|view|)) && memory && !tried.broken && tried.taken < |view| then
                var stop := Flush(old(output.Lens()) + [|view| - tried.taken], answers).stop;
                closing == ClosingFor(stop) && (wire == due <==> stop == Emptied)
              else closing == if old(Admits(|view|)) && tried.broken then ClosedBy(Error) else old(closing)
    {
      if closing != Open || shutdownRequested || shutdownDone {
        return Closed;
      }
      if |view| == 0 {
        return Accepted;
      }
      if queued >= watermark || |view| > watermark - queued {
        return Backpressure;
      }
      r := SendAdmitted(view, memory, direct, answers);
    }

    // The direct send, if nothing is queued, and then the queue.
    method SendAdmitted(view: seq<Byte>, memory: bool, direct: seq<Answer>, answers: seq<Answer>)
      returns (r: SendResult)
      requires Valid() && Admits(|view|)
      modifies `queued, `wire, `due, `accepted, `torn, `closing, `shutdownDone, `wantsWritable, output
      ensures Valid() && old(wire) <= wire && shutdownDone == old(shutdownDone)
      ensures var tried := old(Tries(|view|, direct));
              && (torn <==> old(torn) || (!memory && 0 < tried.taken < |view|))
              && (r == Backpressure <==> !memory && !tried.broken && tried.taken < |view|)
              && due == old(due) + (if tried.broken then [] else if memory then view else view[..tried.taken])
              && if memory && !tried.broken && tried.taken < |view| then
                   var stop := Flush(old(output.Lens()) + [|view| - tried.taken], answers).stop;
                   closing == ClosingFor(stop) && (wire == due <==> stop == Emptied)
                 else closing == if tried.broken then ClosedBy(Error) else Open
      ensures accepted == old(accepted) || accepted == old(accepted) + view
      ensures r == Accepted ==> closing == Open && accepted == old(accepted) + view
      ensures r == Backpressure ==> accepted == old(accepted)
      ensures r == Closed <==> closing != Open
    {
      var empty := output.IsEmpty();
      var taken := 0;
      if empty {
        var broken;
        taken, broken := SendDirectly(view, direct, memory);
        if broken {
          CloseNow(Error);
          return Closed;
        }
        if taken == |view| {
          return Accepted;
        }
      }
      Split(old(due), view, taken);
      Split(old(accepted), view, taken);
      r := SendRest(view[taken..], memory, answers);
    }

    // Queues a copy of what the socket did not take.
    method SendRest(rest: seq<Byte>, memory: bool, answers: seq<Answer>) returns (r: SendResult)
      requires Valid() && Admits(|rest|)
      modifies `queued, `wire, `due, `accepted, `closing, `shutdownDone, `wantsWritable, output
      ensures Valid() && old(wire) <= wire
      ensures due == (if memory then old(due) + rest else old(due))
      ensures accepted == (if memory then old(accepted) + rest else old(accepted))
      ensures r == Backpressure <==> !memory
      ensures r == Closed <==> closing != Open
      ensures shutdownDone == old(shutdownDone)
      ensures if memory then
                var stop := Flush(old(output.Lens()) + [|rest|], answers).stop;
                closing == ClosingFor(stop) && (wire == due <==> stop == Emptied)
              else closing == Open
    {
      var copy := Buffer(rest, 0, |rest|);
      assert copy.View() == rest;
      r := SendBuffer(copy, memory, answers);
    }

    /** Closes at once, locally, exactly when nothing is left to write. */
    method CloseAfterFlush()
      requires Valid()
      modifies `readPaused, `closeAfterFlush, `closing, `wantsWritable
      ensures Valid()
      ensures old(closing) == Open ==> closeAfterFlush && readPaused
      ensures old(closing) == Open ==> (closing == ClosedBy(Local) <==> wire == due)
      ensures old(closing) == Open ==> closing == Open || closing == ClosedBy(Local)
      ensures old(closing) != Open ==> closing == old(closing)
    {
      if closing != Open {
        return;
      }
      readPaused := true;
      closeAfterFlush := true;
      var empty := output.IsEmpty();
      if empty {
        CloseNow(Local);
      } else {
        UpdateInterest();
      }
    }

    /** Half-closes only after everything accepted has been written. */
    method ShutdownWrite(ok: bool) returns (r: bool)
      requires Valid()
      modifies `shutdownRequested, `shutdownDone, `wantsWritable
      ensures Valid()
      ensures shutdownDone && !old(shutdownDone) ==> wire == due && closing == Open
      ensures old(closing) == Open && !old(shutdownDone) ==> shutdownRequested
      ensures old(closing) == Open && !old(shutdownDone) ==> (shutdownDone <==> wire == due && ok)
      ensures r <==> old(closing) == Open && !old(shutdownDone) && (wire != due || ok)
      ensures !(old(closing) == Open && !old(shutdownDone)) ==> shutdownRequested == old(shutdownRequested)
    {
      if closing != Open || shutdownDone {
        return false;
      }
      shutdownRequested := true;
      var empty := output.IsEmpty();
      if !empty {
        UpdateInterest();
        return true;
      }
      r := ShutdownWriteNow(ok);
    }
  }

  lemma SomeOffered(lens: seq<nat>)
    requires lens != [] && lens[0] > 0
    ensures Offered(lens, MAX_VIEWS) > 0
  {
  }

  // Bytes that move from the front of the queue to the end of the wire.
  lemma Moved(wire: seq<Byte>, queue: seq<Byte>, offered: seq<Byte>, n: nat)
    requires offered <= queue && n <= |offered|
    ensures wire + offered[..n] + queue[n..] == wire + queue
  {
    assert offered[..n] == queue[..n];
  }

  lemma Split(before: seq<Byte>, view: seq<Byte>, k: nat)
    requires k <= |view|
    ensures before + view == before + view[..k] + view[k..]
  {
  }

  // ---- The failing inputs ----

  // One byte is queued because the socket would block.
  method OneByteQueued() returns (c: Connection)
    ensures fresh(c) && fresh(c.output) && c.Valid() && c.closing == Open && c.wire != c.due == [7]
    ensures !c.closeAfterFlush && !c.shutdownRequested && !c.shutdownDone
  {
    c := new Connection(10);
    var _ := c.SendView([7], true, [WouldBlock], []);
  }

  /** Asked to close after flushing, a connection closes with a byte unwritten when a send takes
    * nothing.
    */
  method ClosesWithBytesLeft() returns (c: Connection)
    ensures c.closing == ClosedBy(Local) && c.wire != c.due
  {
    c := OneByteQueued();
    c.CloseAfterFlush();
    c.FlushOutput([Sent(0)], true);
  }

  /** Asked to stop sending, it half-closes with a byte unwritten. */
  method HalfClosesWithBytesLeft() returns (c: Connection)
    ensures c.closing == Open && c.shutdownDone && c.wire != c.due
  {
    c := OneByteQueued();
    var _ := c.ShutdownWrite(true);
    c.FlushOutput([Sent(0)], true);
  }

  /** A payload of two bytes, of which one goes out before memory runs out, is refused and torn. */
  method TornPayload() returns (c: Connection, r: SendResult)
    ensures r == Backpressure && c.accepted == [] && c.due == [1] && c.torn
  {
    c := new Connection(10);
    r := c.SendView([1, 2], false, [Sent(1)], []);
  }
}
