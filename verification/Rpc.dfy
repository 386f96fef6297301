/** A caller, a callee and a dealer between them, as one step machine: the remote procedure call of
    the WAMP Basic Profile, section "Calling and Invocations". */
module Rpc {
  import opened Values
  import opened Wire
  import opened Session
  import Lifecycle
  import History

  /** One CALL that the dealer turned into an INVOCATION; its position in the dealer's list is one
      less than the id the dealer gives the INVOCATION. */
  datatype RoutedCall = RoutedCall(at: nat,              // which of the caller's messages it was
                                   id: nat,              // the id on the CALL
                                   registration: nat,
                                   details: seq<Entry>,
                                   payload: Payload,
                                   reply: Option<WireMsg>)

  /** One CALL that the dealer turned down. */
  datatype Refusal = Refusal(at: nat, answer: Session.Answer)

  datatype Dealer = Dealer(calls: seq<RoutedCall>, refused: map<nat, Refusal>,
                           callerRead: nat, calleeRead: nat,          // messages taken from each client
                           toCaller: seq<Value>, toCallee: seq<Value>) // messages sent to each client

  /** Both sessions, as the runs they have gone through, and how much of its input each has read. */
  datatype Net = Net(callerRun: seq<Label>, calleeRun: seq<Label>, dealer: Dealer,
                     callerGot: nat, calleeGot: nat)

  const Start: Net := Net([], [], Dealer([], map[], 0, 0, [], []), 0, 0)

  function Caller(n: Net): State { Exec(n.callerRun) }
  function Callee(n: Net): State { Exec(n.calleeRun) }

  // ---------------------------------------------------------------- what the dealer writes

  function InvocationMsg(id: nat, c: RoutedCall): Value {
    Array([UInt(INVOCATION), UInt(id), UInt(c.registration), Dict(c.details)] + PayloadItems(c.payload))
  }

  function ErrorMsg(call: nat, details: seq<Entry>, uri: string, p: Payload): Value {
    Array([UInt(ERROR), UInt(CALL), UInt(call), Dict(details), Str(uri)] + PayloadItems(p))
  }

  /** A YIELD becomes a RESULT and an ERROR stays one, arguments and all. */
  function RelayMsg(call: nat, m: WireMsg, details: seq<Entry>): Value
    requires IsReply(m)
  {
    match m
    case Yield(_, p) => Array([UInt(RESULT), UInt(call), Dict(details)] + PayloadItems(p))
    case ErrorReply(_, uri, p) => ErrorMsg(call, details, uri, p)
  }

  function PayloadArgs(p: Payload): seq<Value> {
    match p case NoArgs => [] case Args(args) => args case ArgsKw(args, _) => args
  }

  function PayloadKw(p: Payload): seq<Entry> {
    match p case ArgsKw(_, kw) => kw case _ => []
  }

  function KwOption(p: Payload): Option<seq<Entry>> {
    match p case ArgsKw(_, kw) => Some(kw) case _ => None
  }

  /** What a reply means to the caller. */
  function Meaning(m: WireMsg): Session.Answer
    requires IsReply(m)
  {
    match m
    case Yield(_, p) => ResultOf(PayloadArgs(p), PayloadKw(p))
    case ErrorReply(_, uri, p) => Failed(ErrorText(uri, KwOption(p)))
  }

  // ---------------------------------------------------------------- moves

  datatype Move =
    | CallerDoes(l: Label)                                   // an API call, a closure, a read error
    | CalleeDoes(l: Label)                                   // the same, or a reply, however late
    | CallerReads(o: seq<Behaviour>)                         // the next message to the caller
    | CalleeReads(o: seq<Behaviour>)
    | Route(registration: nat, details: seq<Entry>)          // the dealer takes the caller's next message
    | Refuse(uri: string, payload: Payload, details: seq<Entry>)
    | Relay(details: seq<Entry>)                             // the dealer takes the callee's next message
    | TellCaller(v: Value)                                   // anything else a router may say
    | TellCallee(v: Value)

  /** Not an answer to a CALL. */
  predicate Unrelated(v: Value) {
    match History.Reads(v)
    case Some(a) => !a.kind.CallKind?
    case None => true
  }

  function NextFromCaller(n: Net): Option<WireMsg> {
    var sent := Caller(n).output.sent;
    if n.dealer.callerRead < |sent| then Some(sent[n.dealer.callerRead]) else None
  }

  function NextFromCallee(n: Net): Option<WireMsg> {
    var sent := Callee(n).output.sent;
    if n.dealer.calleeRead < |sent| then Some(sent[n.dealer.calleeRead]) else None
  }

  /** The dealer invokes the procedure for a CALL, under an invocation id of its own. */
  function Routed(d: Dealer, m: WireMsg, registration: nat, details: seq<Entry>): Dealer {
    if m.Call? then
      var c := RoutedCall(d.callerRead, m.id, registration, details, m.payload, None);
      d.(callerRead := d.callerRead + 1, calls := d.calls + [c],
         toCallee := d.toCallee + [InvocationMsg(|d.calls| + 1, c)])
    else d.(callerRead := d.callerRead + 1)
  }

  function Refused(d: Dealer, m: WireMsg, uri: string, p: Payload, details: seq<Entry>): Dealer {
    if m.Call? then
      d.(callerRead := d.callerRead + 1,
         refused := d.refused[m.id := Refusal(d.callerRead, Failed(ErrorText(uri, KwOption(p))))],
         toCaller := d.toCaller + [ErrorMsg(m.id, details, uri, p)])
    else d.(callerRead := d.callerRead + 1)
  }

  /** Does message `m` reply to a routed call that still waits for its reply? */
  predicate Replies(d: Dealer, m: WireMsg) {
    IsReply(m) && 1 <= m.invocation <= |d.calls| && d.calls[m.invocation - 1].reply.None?
  }

  /** The dealer relays the first reply to each INVOCATION and drops everything else. */
  function Relayed(d: Dealer, m: WireMsg, details: seq<Entry>): Dealer {
    if Replies(d, m) then
      var t := m.invocation - 1;
      d.(calleeRead := d.calleeRead + 1, calls := d.calls[t := d.calls[t].(reply := Some(m))],
         toCaller := d.toCaller + [RelayMsg(d.calls[t].id, m, details)])
    else d.(calleeRead := d.calleeRead + 1)
  }

  function Advance(n: Net, m: Move): Net {
    match m
    case CallerDoes(l) => if l.Receive? then n else n.(callerRun := n.callerRun + [l])
    case CalleeDoes(l) => if l.Receive? then n else n.(calleeRun := n.calleeRun + [l])
    case CallerReads(o) =>
      if n.callerGot < |n.dealer.toCaller| then
        n.(callerRun := n.callerRun + [Receive(n.dealer.toCaller[n.callerGot], o)], callerGot := n.callerGot + 1)
      else n
    case CalleeReads(o) =>
      if n.calleeGot < |n.dealer.toCallee| then
        n.(calleeRun := n.calleeRun + [Receive(n.dealer.toCallee[n.calleeGot], o)], calleeGot := n.calleeGot + 1)
      else n
    case Route(registration, details) =>
      if NextFromCaller(n).Some? then
        n.(dealer := Routed(n.dealer, NextFromCaller(n).value, registration, details))
      else n
    case Refuse(uri, p, details) =>
      if NextFromCaller(n).Some? then
        n.(dealer := Refused(n.dealer, NextFromCaller(n).value, uri, p, details))
      else n
    case Relay(details) =>
      if NextFromCallee(n).Some? then
        n.(dealer := Relayed(n.dealer, NextFromCallee(n).value, details))
      else n
    case TellCaller(v) => if Unrelated(v) then n.(dealer := n.dealer.(toCaller := n.dealer.toCaller + [v])) else n
    case TellCallee(v) =>
      if !Lifecycle.Is(v, INVOCATION) then
        n.(dealer := n.dealer.(toCallee := n.dealer.toCallee + [v]))
      else n
  }

  function Play(moves: seq<Move>): Net {
    if moves == [] then Start else Advance(Play(moves[..|moves| - 1]), moves[|moves| - 1])
  }
}
