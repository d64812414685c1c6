/**
 Concurrent turns of the app-server runtime: notifications of many threads interleave,
 the app-server may exit or be replaced, and each turn settles once with its own result.
 */
module TurnRuntime {
  import opened Outcomes
  import opened Json

  type Thread = string
  type TransportId = nat

  datatype Usage = Usage(promptTokens: int, completionTokens: int)

  datatype Outcome =
    | Completed(message: Value, usage: Usage)
    | RateLimited
    | Unauthorized
    | ContextLimit
    | Interrupted
    | Failed(reason: string)

  /** `finalMessage` is null as long as no agent message came. */
  datatype Turn = Turn(future: Option<Outcome>, finalMessage: Value, usage: Usage)

  const NEW_TURN := Turn(None, Null, Usage(0, 0))

  datatype Runtime = Runtime(turns: map<Thread, Turn>, transport: Option<TransportId>, ready: bool)

  /** `int` of a value: a number, a TypeError or ValueError, or the OverflowError of an infinite number. */
  datatype IntResult = Made(value: int) | Refused | Overflows

  /** Python built-ins the handlers use: `int`, the zero test of a number and the error-code normaliser. */
  datatype Builtins = Builtins(toInt: Value -> IntResult, isZero: string -> bool, normalize: string -> string)

  // ---------------------------------------------------------------------
  // One notification on one turn
  // ---------------------------------------------------------------------

  predicate IsFalsy(py: Builtins, v: Value) {
    match v
    case Null => true
    case Bool(b) => !b
    case Number(lexeme) => py.isZero(lexeme)
    case Text(s) => s == ""
    case List(items) => items == []
    case Object(members) => members == []
  }

  /** `v or {}`. */
  function OrEmpty(py: Builtins, v: Value): Value {
    if IsFalsy(py, v) then Object([]) else v
  }

  /** `v.get(key)`; none where Python raises because `v` is no dict. */
  function Lookup(v: Value, key: string): Option<Value> {
    if v.Object? then Some(At(v.members, key)) else None
  }

  /** `int(members.get(key, 0))`. */
  function IntAt(py: Builtins, members: seq<Member>, key: string): IntResult {
    match Get(members, key) case Some(v) => py.toInt(v) case None => Made(0)
  }

  /** How a handler ended: it returned, raised an error that is caught, or one that escapes it. */
  datatype Ending = Returned | Caught | Escaped

  /** The turn after a notification, and how the handler ended. */
  datatype Applied = Applied(turn: Turn, ending: Ending)

  function OnItem(py: Builtins, turn: Turn, params: Value): Applied {
    match Lookup(params, "item")
    case None => Applied(turn, Caught)
    case Some(raw) =>
      var item := OrEmpty(py, raw);
      if !item.Object? then Applied(turn, Caught)
      else if At(item.members, "type") == Text("agentMessage") then
        Applied(turn.(finalMessage := At(item.members, "text")), Returned)
      else Applied(turn, Returned)
  }

  function OnUsage(py: Builtins, turn: Turn, params: Value): Applied {
    var last :- match Lookup(params, "tokenUsage")
                case None => OnRaise(turn)
                case Some(raw) =>
                  match Lookup(OrEmpty(py, raw), "last")
                  case None => OnRaise(turn)
                  case Some(v) => Found(OrEmpty(py, v));
    if !last.Object? then Applied(turn, Caught)
    else
      match (IntAt(py, last.members, "inputTokens"), IntAt(py, last.members, "outputTokens"))
      case (Made(p), Made(c)) => Applied(turn.(usage := Usage(p, c)), Returned)
      case (Overflows, _) => Applied(turn, Escaped)
      case (Made(_), Overflows) => Applied(turn, Escaped)
      case _ => Applied(turn, Caught)
  }

  /** A value found, or the raise that ends the handler. */
  datatype Finding = Found(value: Value) | OnRaise(turn: Turn) {
    predicate IsFailure() { OnRaise? }
    function PropagateFailure(): Applied requires OnRaise? { Applied(turn, Caught) }
    function Extract(): Value requires Found? { value }
  }

  datatype Scan = NoMessage | Message(text: Value) | Raises

  /** The scan of a completed turn's items from the last to the first. */
  function ScanBack(items: seq<Value>): Scan {
    if |items| == 0 then NoMessage
    else
      var item := items[|items| - 1];
      if !item.Object? then Raises
      else if At(item.members, "type") == Text("agentMessage") then Message(At(item.members, "text"))
      else ScanBack(items[..|items| - 1])
  }

  /** Non-empty dicts and strings can be reversed too, but their elements are no items. */
  function Fallback(py: Builtins, items: Value): Scan {
    if IsFalsy(py, items) then NoMessage else if items.List? then ScanBack(items.items) else Raises
  }

  function ErrorCode(py: Builtins, info: Value): string {
    match info
    case Text(s) => py.normalize(s)
    case Object(members) => if members == [] then "" else py.normalize(members[0].key)
    case _ => ""
  }

  function Verdict(code: string, status: Value, message: Value, usage: Usage): Outcome {
    if status == Text("completed") && message != Null then Completed(message, usage)
    else if code in {"usagelimitexceeded", "serveroverloaded", "sessionbudgetexceeded"} then RateLimited
    else if code == "unauthorized" then Unauthorized
    else if code == "contextwindowexceeded" then ContextLimit
    else if status == Text("interrupted") then Interrupted
    else Failed("turn failed")
  }

  function OnCompleted(py: Builtins, turn: Turn, params: Value): Applied
    requires turn.future.None?
  {
    var done :- match Lookup(params, "turn")
                case None => OnRaise(turn)
                case Some(raw) => if OrEmpty(py, raw).Object? then Found(OrEmpty(py, raw)) else OnRaise(turn);
    var scan := if turn.finalMessage == Null then Fallback(py, At(done.members, "items")) else NoMessage;
    if scan.Raises? then Applied(turn, Caught)
    else
      var known := if scan.Message? then turn.(finalMessage := scan.text) else turn;
      var error := OrEmpty(py, At(done.members, "error"));
      if !error.Object? then Applied(known, Caught)
      else
        var code := ErrorCode(py, At(error.members, "codexErrorInfo"));
        Applied(known.(future := Some(Verdict(code, At(done.members, "status"), known.finalMessage, known.usage))),
            Returned)
  }

  /** `_apply_notification`. */
  function ApplyNotification(py: Builtins, turn: Turn, kind: string, params: Value): Applied {
    if kind == "item/completed" then OnItem(py, turn, params)
    else if kind == "thread/tokenUsage/updated" then OnUsage(py, turn, params)
    else if kind != "turn/completed" || turn.future.Some? then Applied(turn, Returned)
    else OnCompleted(py, turn, params)
  }

  const INVALID: Outcome := Failed("notification was invalid")

  /**
   A caught raise settles the turn as failed, unless it is settled already; an error that
   escapes ends in the dispatcher, which goes on with the next notification.
   */
  function Notify(py: Builtins, turn: Turn, kind: string, params: Value): Turn {
    var applied := ApplyNotification(py, turn, kind, params);
    if applied.ending.Caught? && applied.turn.future.None? then applied.turn.(future := Some(INVALID)) else applied.turn
  }

  // ---------------------------------------------------------------------
  // Events of the runtime
  // ---------------------------------------------------------------------

  datatype Event =
    | Registered(thread: Thread)
    | Removed(thread: Thread)
    | Notified(transport: TransportId, kind: string, params: Value)
    | Exited(transport: TransportId)
    | Replaced(transport: TransportId)
    | Stopped

  function ThreadOf(params: Value): Option<Thread> {
    match Lookup(params, "threadId")
    case None => None
    case Some(v) => if v.Text? then Some(v.chars) else None
  }

  function FailTurn(turn: Turn, reason: string): Turn {
    if turn.future.None? then turn.(future := Some(Failed(reason))) else turn
  }

  function FailTurns(turns: map<Thread, Turn>, reason: string): map<Thread, Turn> {
    map t | t in turns :: FailTurn(turns[t], reason)
  }

  function Step(py: Builtins, rt: Runtime, e: Event): Runtime {
    match e
    case Registered(t) => rt.(turns := rt.turns[t := NEW_TURN])
    case Removed(t) => rt.(turns := rt.turns - {t})
    case Notified(transport, kind, params) =>
      var t := ThreadOf(params);
      if rt.transport != Some(transport) || t.None? || t.value !in rt.turns then rt
      else
        var turn := Notify(py, rt.turns[t.value], kind, params);
        var lost := rt.turns[t.value].future.None? && turn.future == Some(Unauthorized);
        rt.(turns := rt.turns[t.value := turn], ready := rt.ready && !lost)
    case Exited(transport) =>
      if rt.transport != Some(transport) then rt
      else Runtime(FailTurns(rt.turns, "app-server exited"), None, false)
    case Replaced(transport) =>
      Runtime(if rt.transport.None? then rt.turns else FailTurns(rt.turns, "app-server was replaced"),
              Some(transport), true)
    case Stopped => Runtime(FailTurns(rt.turns, "runtime stopped"), None, false)
  }

  function Run(py: Builtins, rt: Runtime, events: seq<Event>): Runtime {
    if |events| == 0 then rt else Step(py, Run(py, rt, events[..|events| - 1]), events[|events| - 1])
  }

  function TurnOf(rt: Runtime, t: Thread): Option<Turn> {
    if t in rt.turns then Some(rt.turns[t]) else None
  }

  // ---------------------------------------------------------------------
  // Turns do not disturb each other
  // ---------------------------------------------------------------------

  /** The events that can matter to a thread: its own, and those of the transport. */
  predicate Concerns(e: Event, t: Thread) {
    match e
    case Registered(x) => x == t
    case Removed(x) => x == t
    case Notified(_, _, params) => ThreadOf(params) == Some(t)
    case _ => true
  }

  function Own(events: seq<Event>, t: Thread): seq<Event> {
    if |events| == 0 then []
    else Own(events[..|events| - 1], t) + if Concerns(events[|events| - 1], t) then [events[|events| - 1]] else []
  }

  lemma StepIsLocal(py: Builtins, rt: Runtime, e: Event, t: Thread)
    requires !Concerns(e, t)
    ensures TurnOf(Step(py, rt, e), t) == TurnOf(rt, t) && Step(py, rt, e).transport == rt.transport
  {
    hide Notify;
  }

  lemma StepSeesOwnTurn(py: Builtins, a: Runtime, b: Runtime, e: Event, t: Thread)
    requires TurnOf(a, t) == TurnOf(b, t) && a.transport == b.transport && Concerns(e, t)
    ensures TurnOf(Step(py, a, e), t) == TurnOf(Step(py, b, e), t)
            && Step(py, a, e).transport == Step(py, b, e).transport
  {
    hide Notify;
  }

  /** What a turn becomes does not depend on the notifications of other threads, however they interleave. */
  lemma {:induction false} TurnsAreIsolated(py: Builtins, rt: Runtime, events: seq<Event>, t: Thread)
    ensures TurnOf(Run(py, rt, events), t) == TurnOf(Run(py, rt, Own(events, t)), t)
    ensures Run(py, rt, events).transport == Run(py, rt, Own(events, t)).transport
  {
    if |events| > 0 {
      hide Step, TurnOf;
      var before, e := events[..|events| - 1], events[|events| - 1];
      TurnsAreIsolated(py, rt, before, t);
      if Concerns(e, t) {
        var own := Own(before, t) + [e];
        assert own[..|own| - 1] == Own(before, t);
        StepSeesOwnTurn(py, Run(py, rt, before), Run(py, rt, Own(before, t)), e, t);
      } else {
        assert Own(before, t) + [] == Own(before, t);
        StepIsLocal(py, Run(py, rt, before), e, t);
      }
    }
  }

  // ---------------------------------------------------------------------
  // A turn settles once
  // ---------------------------------------------------------------------

  predicate Settled(rt: Runtime, t: Thread, o: Outcome) {
    t in rt.turns && rt.turns[t].future == Some(o)
  }

  lemma NotifyKeepsOutcome(py: Builtins, turn: Turn, kind: string, params: Value)
    requires turn.future.Some?
    ensures Notify(py, turn, kind, params).future == turn.future
  {
  }

  lemma StepKeepsOutcome(py: Builtins, rt: Runtime, e: Event, t: Thread, o: Outcome)
    requires Settled(rt, t, o) && e != Registered(t) && e != Removed(t)
    ensures Settled(Step(py, rt, e), t, o)
  {
    hide Notify;
    if e.Notified? { NotifyKeepsOutcome(py, rt.turns[t], e.kind, e.params); }
  }

  /** The first event that settles a turn decides; nothing later changes its outcome while it is registered. */
  lemma {:induction false} FirstSettlementStays(py: Builtins, rt: Runtime, events: seq<Event>, t: Thread, o: Outcome)
    requires Settled(rt, t, o) && forall i :: 0 <= i < |events| ==>
               events[i] != Registered(t) && events[i] != Removed(t)
    ensures Settled(Run(py, rt, events), t, o)
  {
    if |events| > 0 {
      hide Step;
      FirstSettlementStays(py, rt, events[..|events| - 1], t, o);
      StepKeepsOutcome(py, Run(py, rt, events[..|events| - 1]), events[|events| - 1], t, o);
    }
  }

  /** An exit of the current transport leaves no registered turn unsettled, and keeps every outcome. */
  lemma ExitSettlesAll(py: Builtins, rt: Runtime, t: Thread)
    requires t in rt.turns && rt.transport.Some?
    ensures var after := Step(py, rt, Exited(rt.transport.value));
            Settled(after, t, match rt.turns[t].future case Some(o) => o case None => Failed("app-server exited"))
  {
  }

  /** The end that an event puts to all turns of the runtime: its reason, or none when the turns go on. */
  function EndReason(rt: Runtime, e: Event): Option<string> {
    match e
    case Exited(transport) => if rt.transport == Some(transport) then Some("app-server exited") else None
    case Replaced(_) => if rt.transport.Some? then Some("app-server was replaced") else None
    case Stopped => Some("runtime stopped")
    case _ => None
  }

  /** An exit, a replacement or a stop fails exactly the open turns, and only a start brings readiness back. */
  lemma EndsSettleAll(py: Builtins, rt: Runtime, e: Event, t: Thread)
    requires (e.Exited? || e.Replaced? || e.Stopped?) && t in rt.turns
    ensures var u := Step(py, rt, e);
            && t in u.turns && u.turns[t] == rt.turns[t].(future := u.turns[t].future)
            && u.turns[t].future ==
               (if rt.turns[t].future.Some? || EndReason(rt, e).None? then rt.turns[t].future
                else Some(Failed(EndReason(rt, e).value)))
            && (e.Replaced? ==> u.ready && u.transport == Some(e.transport))
            && (!e.Replaced? && EndReason(rt, e).Some? ==> !u.ready && u.transport.None?)
            && (EndReason(rt, e).None? && !e.Replaced? ==> u == rt)
  {
  }

  /** Once a transport is gone, what it still sends changes nothing. */
  lemma GoneTransportIsIgnored(py: Builtins, rt: Runtime, e: Event)
    requires (e.Notified? || e.Exited?) && rt.transport != Some(e.transport)
    ensures Step(py, rt, e) == rt
  {
  }

  /** A usage report with an infinite number changes nothing: it neither settles the turn nor is counted. */
  lemma OverflowLeavesTurnOpen(py: Builtins, turn: Turn, last: seq<Member>, rest: seq<Member>)
    requires IntAt(py, last, "inputTokens").Overflows? && last != []
    ensures var params := Object([Member("tokenUsage", Object([Member("last", Object(last))]))] + rest);
            Notify(py, turn, "thread/tokenUsage/updated", params) == turn
  {
    hide OnItem, OnCompleted, Get;
    FirstMember("last", Object(last), []);
    FirstMember("tokenUsage", Object([Member("last", Object(last))]), rest);
    assert [Member("last", Object(last))] + [] == [Member("last", Object(last))];
    assert "thread/tokenUsage/updated" != "item/completed" by {
      assert "thread/tokenUsage/updated"[0] == 't' && "item/completed"[0] == 'i';
    }
  }

  lemma FirstMember(key: string, value: Value, rest: seq<Member>)
    ensures Get([Member(key, value)] + rest, key) == Some(value)
  {
  }

  // ---------------------------------------------------------------------
  // What a turn's own notifications make of it
  // ---------------------------------------------------------------------

  datatype Notification = Notification(kind: string, params: Value)

  function Feed(py: Builtins, turn: Turn, ns: seq<Notification>): Turn {
    if |ns| == 0 then turn
    else Notify(py, Feed(py, turn, ns[..|ns| - 1]), ns[|ns| - 1].kind, ns[|ns| - 1].params)
  }

  /** The notifications that the current transport sends for a thread. */
  function Received(events: seq<Event>, transport: TransportId, t: Thread): seq<Notification> {
    if |events| == 0 then []
    else
      var e := events[|events| - 1];
      Received(events[..|events| - 1], transport, t) +
      if IsFor(e, transport, t) then [Notification(e.kind, e.params)] else []
  }

  /** Neither registers or removes the thread nor touches the transport. */
  predicate LeavesTransport(e: Event, transport: TransportId, t: Thread) {
    match e
    case Notified(_, _, _) => true
    case Registered(x) => x != t
    case Removed(x) => x != t
    case Exited(x) => x != transport
    case _ => false
  }

  predicate IsFor(e: Event, transport: TransportId, t: Thread) {
    e.Notified? && e.transport == transport && ThreadOf(e.params) == Some(t)
  }

  lemma OneEvent(py: Builtins, rt: Runtime, e: Event, transport: TransportId, t: Thread)
    requires t in rt.turns && rt.transport == Some(transport) && LeavesTransport(e, transport, t)
    ensures Step(py, rt, e).transport == rt.transport
    ensures TurnOf(Step(py, rt, e), t) ==
            Some(if IsFor(e, transport, t) then Notify(py, rt.turns[t], e.kind, e.params) else rt.turns[t])
  {
    hide Notify;
  }

  /** While the transport stays, a turn is exactly what its own notifications make of it. */
  lemma {:induction false} TurnIsItsNotifications(py: Builtins, rt: Runtime, events: seq<Event>,
                                                  transport: TransportId, t: Thread)
    requires t in rt.turns && rt.transport == Some(transport)
    requires forall i :: 0 <= i < |events| ==> LeavesTransport(events[i], transport, t)
    ensures TurnOf(Run(py, rt, events), t) == Some(Feed(py, rt.turns[t], Received(events, transport, t)))
    ensures Run(py, rt, events).transport == rt.transport
  {
    if |events| > 0 {
      hide Notify, Step, IsFor, LeavesTransport;
      var before, e := events[..|events| - 1], events[|events| - 1];
      TurnIsItsNotifications(py, rt, before, transport, t);
      OneEvent(py, Run(py, rt, before), e, transport, t);
      var ns := Received(before, transport, t);
      if IsFor(e, transport, t) {
        var more := ns + [Notification(e.kind, e.params)];
        assert more[..|more| - 1] == ns;
      } else {
        assert ns + [] == ns;
      }
    }
  }

  /** A completed agent message; its text may be missing. */
  predicate IsAgentMessage(n: Notification) {
    && n.kind == "item/completed" && n.params.Object?
    && var item := At(n.params.members, "item");
       item.Object? && At(item.members, "type") == Text("agentMessage")
  }

  function MessageText(n: Notification): Value
    requires IsAgentMessage(n)
  {
    At(At(n.params.members, "item").members, "text")
  }

  /** The text of the last agent message so far, or null. */
  function LastMessage(ns: seq<Notification>): Value {
    if |ns| == 0 then Null
    else if IsAgentMessage(ns[|ns| - 1]) then MessageText(ns[|ns| - 1])
    else LastMessage(ns[..|ns| - 1])
  }

  /** The members of an object under a key; none of them when nothing is there. */
  function MembersAt(py: Builtins, members: seq<Member>, key: string): Option<seq<Member>> {
    var v := At(members, key);
    if v.Object? then Some(v.members) else if IsFalsy(py, v) then Some([]) else None
  }

  function CountAt(py: Builtins, members: seq<Member>, key: string): Option<int> {
    if !Has(members, key) then Some(0)
    else if py.toInt(At(members, key)).Made? then Some(py.toInt(At(members, key)).value) else None
  }

  /** The usage that a notification reports, if it is a well-formed usage report. */
  function ReportedUsage(py: Builtins, n: Notification): Option<Usage> {
    if n.kind != "thread/tokenUsage/updated" || !n.params.Object? then None
    else
      var report :- MembersAt(py, n.params.members, "tokenUsage");
      var last :- MembersAt(py, report, "last");
      var prompt :- CountAt(py, last, "inputTokens");
      var completion :- CountAt(py, last, "outputTokens");
      Some(Usage(prompt, completion))
  }

  /** The handler sets the usage exactly when the notification reports one. */
  lemma UsageIsReported(py: Builtins, turn: Turn, params: Value)
    ensures var applied := OnUsage(py, turn, params);
            match ReportedUsage(py, Notification("thread/tokenUsage/updated", params))
            case Some(u) => applied == Applied(turn.(usage := u), Returned)
            case None => !applied.ending.Returned? && applied.turn == turn
  {
    hide IsFalsy, Get;
    if params.Object? {
      PartIsMembers(py, params.members, "tokenUsage");
      if MembersAt(py, params.members, "tokenUsage").Some? {
        PartIsMembers(py, MembersAt(py, params.members, "tokenUsage").value, "last");
      }
    }
  }

  lemma PartIsMembers(py: Builtins, members: seq<Member>, key: string)
    ensures match MembersAt(py, members, key)
            case Some(ms) => OrEmpty(py, At(members, key)) == Object(ms)
            case None => !OrEmpty(py, At(members, key)).Object?
  {
    hide At;
  }

  function LastUsage(py: Builtins, ns: seq<Notification>): Usage {
    if |ns| == 0 then Usage(0, 0)
    else
      match ReportedUsage(py, ns[|ns| - 1])
      case Some(u) => u
      case None => LastUsage(py, ns[..|ns| - 1])
  }

  lemma KindsDiffer()
    ensures "turn/completed" != "item/completed" && "item/completed" != "thread/tokenUsage/updated"
    ensures "turn/completed" != "thread/tokenUsage/updated"
  {
    assert "turn/completed"[1] == 'u' && "item/completed"[1] == 't' && "thread/tokenUsage/updated"[1] == 'h';
  }

  lemma UsageStep(py: Builtins, turn: Turn, params: Value)
    requires turn.future.None? && Notify(py, turn, "thread/tokenUsage/updated", params).future.None?
    ensures var after := Notify(py, turn, "thread/tokenUsage/updated", params);
            after.finalMessage == turn.finalMessage
            && after.usage == match ReportedUsage(py, Notification("thread/tokenUsage/updated", params))
                              case Some(u) => u
                              case None => turn.usage
  {
    KindsDiffer();
    UsageIsReported(py, turn, params);
    hide OnUsage, OnItem, OnCompleted, ReportedUsage;
  }

  lemma OtherStep(py: Builtins, turn: Turn, n: Notification)
    requires n.kind != "thread/tokenUsage/updated"
    requires turn.future.None? && Notify(py, turn, n.kind, n.params).future.None?
    ensures var after := Notify(py, turn, n.kind, n.params);
            after.usage == turn.usage
            && after.finalMessage == if IsAgentMessage(n) then MessageText(n) else turn.finalMessage
  {
    KindsDiffer();
    hide Get, OnUsage, ErrorCode, Verdict;
  }

  lemma UnsettledStep(py: Builtins, turn: Turn, n: Notification)
    requires turn.future.None? && Notify(py, turn, n.kind, n.params).future.None?
    ensures var after := Notify(py, turn, n.kind, n.params);
            && after.finalMessage == (if IsAgentMessage(n) then MessageText(n) else turn.finalMessage)
            && after.usage == (match ReportedUsage(py, n) case Some(u) => u case None => turn.usage)
  {
    KindsDiffer();
    hide Notify, At, MembersAt, CountAt;
    if n.kind == "thread/tokenUsage/updated" {
      UsageStep(py, turn, n.params);
      assert n == Notification("thread/tokenUsage/updated", n.params);
    } else {
      OtherStep(py, turn, n);
    }
  }

  lemma {:induction false} UnsettledBefore(py: Builtins, turn: Turn, ns: seq<Notification>)
    requires |ns| > 0 && Feed(py, turn, ns).future.None?
    ensures Feed(py, turn, ns[..|ns| - 1]).future.None?
  {
    var before := Feed(py, turn, ns[..|ns| - 1]);
    if before.future.Some? {
      NotifyKeepsOutcome(py, before, ns[|ns| - 1].kind, ns[|ns| - 1].params);
    }
  }

  /** As long as a turn is open it holds the last agent message and the last usage report. */
  lemma {:induction false} LastReportsWin(py: Builtins, ns: seq<Notification>)
    requires Feed(py, NEW_TURN, ns).future.None?
    ensures Feed(py, NEW_TURN, ns).finalMessage == LastMessage(ns)
    ensures Feed(py, NEW_TURN, ns).usage == LastUsage(py, ns)
  {
    if |ns| > 0 {
      hide Notify, IsAgentMessage, ReportedUsage;
      var before := ns[..|ns| - 1];
      UnsettledBefore(py, NEW_TURN, ns);
      LastReportsWin(py, before);
      UnsettledStep(py, Feed(py, NEW_TURN, before), ns[|ns| - 1]);
    }
  }

  lemma CompletedStep(py: Builtins, turn: Turn, n: Notification)
    requires turn.future.None?
    requires var o := Notify(py, turn, n.kind, n.params).future; o.Some? && o.value.Completed?
    ensures var o := Notify(py, turn, n.kind, n.params).future.value;
            && n.kind == "turn/completed" && n.params.Object? && At(n.params.members, "turn").Object?
            && o.usage == turn.usage && o.message != Null
            && (if turn.finalMessage != Null then o.message == turn.finalMessage
                else Fallback(py, At(At(n.params.members, "turn").members, "items")) == Message(o.message))
  {
    hide Fallback, ErrorCode, OnItem, OnUsage, At;
    OnlyCompletionSettles(py, turn, n.kind, n.params);
    if n.kind == "turn/completed" && n.params.Object? {
      EmptyHasNoStatus();
      assert At([], "status") == Null;
    }
  }

  lemma EmptyHasNoStatus()
    ensures At([], "status") == Null
  {
  }

  lemma OnlyCompletionSettles(py: Builtins, turn: Turn, kind: string, params: Value)
    requires turn.future.None?
    ensures kind != "turn/completed" ==> ApplyNotification(py, turn, kind, params).turn.future.None?
  {
  }

  /**
   A turn completes with the last agent message and the last usage, or, when no message
   came, with the last agent message among the items of the completion itself.
   */
  lemma CompletionReportsLast(py: Builtins, ns: seq<Notification>, n: Notification)
    requires Feed(py, NEW_TURN, ns).future.None?
    requires var o := Notify(py, Feed(py, NEW_TURN, ns), n.kind, n.params).future; o.Some? && o.value.Completed?
    ensures var o := Notify(py, Feed(py, NEW_TURN, ns), n.kind, n.params).future.value;
            && n.kind == "turn/completed" && n.params.Object? && At(n.params.members, "turn").Object?
            && o.usage == LastUsage(py, ns) && o.message != Null
            && (if LastMessage(ns) != Null then o.message == LastMessage(ns)
                else Fallback(py, At(At(n.params.members, "turn").members, "items")) == Message(o.message))
  {
    hide Notify, Fallback;
    LastReportsWin(py, ns);
    CompletedStep(py, Feed(py, NEW_TURN, ns), n);
  }

  /** The fallback finds the last item that is an agent message. */
  lemma {:induction false} FallbackIsLastMessage(items: seq<Value>, text: Value)
    requires ScanBack(items) == Message(text)
    ensures exists i :: 0 <= i < |items| && items[i].Object? && At(items[i].members, "type") == Text("agentMessage")
              && At(items[i].members, "text") == text
              && forall j :: i < j < |items| ==>
                   items[j].Object? && At(items[j].members, "type") != Text("agentMessage")
  {
    var n := |items|;
    if At(items[n - 1].members, "type") != Text("agentMessage") {
      FallbackIsLastMessage(items[..n - 1], text);
    }
  }

  // ---------------------------------------------------------------------
  // How a completion ends a turn, over the notification
  // ---------------------------------------------------------------------

  /** The object that the notification calls its turn; empty when it has none. */
  function DoneOf(params: Value): seq<Member> {
    if params.Object? && At(params.members, "turn").Object? then At(params.members, "turn").members else []
  }

  /** Behind item `i` there are only objects that are no agent messages; `text` is that of item `i`, or null. */
  ghost predicate FoundAt(items: seq<Value>, i: int, text: Value) {
    && -1 <= i < |items|
    && (forall j :: i < j < |items| ==> items[j].Object? && At(items[j].members, "type") != Text("agentMessage"))
    && if i < 0 then text == Null
       else items[i].Object? && At(items[i].members, "type") == Text("agentMessage")
            && text == At(items[i].members, "text")
  }

  /** The message of a turn when it completes: the last one that came, else the last one among the items. */
  ghost predicate Finds(py: Builtins, last: Value, done: seq<Member>, message: Value) {
    if last != Null then message == last
    else
      var items := At(done, "items");
      (IsFalsy(py, items) && message == Null) || (items.List? && exists i :: FoundAt(items.items, i, message))
  }

  /** The error code: the normalised text of the error info, or its first key when it is an object. */
  ghost predicate IsCode(py: Builtins, done: seq<Member>, code: string) {
    var error := At(done, "error");
    var info := if error.Object? then At(error.members, "codexErrorInfo") else Null;
    code == if info.Text? then py.normalize(info.chars)
            else if info.Object? && info.members != [] then py.normalize(info.members[0].key) else ""
  }

  /** The parts that the handler takes apart are objects, or as good as missing. */
  ghost predicate IsReadable(py: Builtins, params: Value) {
    && params.Object?
    && (At(params.members, "turn").Object? || IsFalsy(py, At(params.members, "turn")))
    && (At(DoneOf(params), "error").Object? || IsFalsy(py, At(DoneOf(params), "error")))
  }

  predicate IsLimitCode(code: string) {
    code == "usagelimitexceeded" || code == "serveroverloaded" || code == "sessionbudgetexceeded"
  }

  /** The outcome for a status, an error code and a message that may be null. */
  ghost predicate Decides(status: Value, code: string, message: Value, usage: Usage, o: Outcome) {
    var failed := status != Text("completed") || message == Null;
    var named := IsLimitCode(code) || code == "unauthorized" || code == "contextwindowexceeded";
    && (o.Completed? <==> !failed) && (o.Completed? ==> o == Completed(message, usage))
    && (o == RateLimited <==> failed && IsLimitCode(code))
    && (o == Unauthorized <==> failed && code == "unauthorized")
    && (o == ContextLimit <==> failed && code == "contextwindowexceeded")
    && (o == Interrupted <==> failed && !named && status == Text("interrupted"))
    && (o == Failed("turn failed") <==> failed && !named && status != Text("interrupted"))
  }

  lemma VerdictDecides(code: string, status: Value, message: Value, usage: Usage)
    ensures Decides(status, code, message, usage, Verdict(code, status, message, usage))
  {
    assert |"usagelimitexceeded"| == 18 && |"serveroverloaded"| == 16 && |"sessionbudgetexceeded"| == 21
           && |"unauthorized"| == 12 && |"contextwindowexceeded"| == 21;
    assert "sessionbudgetexceeded"[0] == 's' && "contextwindowexceeded"[0] == 'c';
    assert |"completed"| == 9 && |"interrupted"| == 11;
  }

  lemma {:induction false} ScanBackFinds(items: seq<Value>, i: int, text: Value)
    requires FoundAt(items, i, text)
    ensures ScanBack(items) == if i < 0 then NoMessage else Message(text)
  {
    hide At;
    if |items| > 0 && i < |items| - 1 { ScanBackFinds(items[..|items| - 1], i, text); }
  }

  lemma {:induction false} ScanBackStops(items: seq<Value>) returns (i: int, text: Value)
    requires !ScanBack(items).Raises?
    ensures FoundAt(items, i, text)
  {
    hide At;
    if |items| == 0 {
      i, text := -1, Null;
    } else if At(items[|items| - 1].members, "type") == Text("agentMessage") {
      i, text := |items| - 1, At(items[|items| - 1].members, "text");
    } else {
      i, text := ScanBackStops(items[..|items| - 1]);
      assert forall j :: 0 <= j < |items| - 1 ==> items[..|items| - 1][j] == items[j];
    }
  }

  /** What the handler takes for the message. */
  lemma FallbackFinds(py: Builtins, items: Value, message: Value)
    requires (IsFalsy(py, items) && message == Null) || (items.List? && exists i :: FoundAt(items.items, i, message))
    ensures var scan := Fallback(py, items);
            !scan.Raises? && message == if scan.Message? then scan.text else Null
  {
    hide IsFalsy, FoundAt;
    if items.List? && exists i :: FoundAt(items.items, i, message) {
      var i :| FoundAt(items.items, i, message);
      ScanBackFinds(items.items, i, message);
      if i < 0 { NullWhenNone(items.items, i, message); }
      if IsFalsy(py, items) { EmptyList(py, items, i, message); }
    }
  }

  lemma NullWhenNone(items: seq<Value>, i: int, text: Value)
    requires FoundAt(items, i, text) && i < 0
    ensures text == Null
  {
  }

  lemma EmptyList(py: Builtins, items: Value, i: int, text: Value)
    requires items.List? && IsFalsy(py, items) && FoundAt(items.items, i, text)
    ensures text == Null
  {
  }

  lemma MissingAsEmpty(py: Builtins, v: Value)
    requires v.Object? || IsFalsy(py, v)
    ensures OrEmpty(py, v) == Object(if v.Object? then v.members else [])
  {
  }

  /** The handler on a completion, over its parts. */
  lemma ReadableCompletion(py: Builtins, turn: Turn, params: Value, code: string)
    requires turn.future.None? && IsReadable(py, params) && IsCode(py, DoneOf(params), code)
    ensures var done := DoneOf(params);
            var scan := if turn.finalMessage == Null then Fallback(py, At(done, "items")) else NoMessage;
            var message := if scan.Message? then scan.text else turn.finalMessage;
            !scan.Raises? ==>
              OnCompleted(py, turn, params).ending.Returned?
              && OnCompleted(py, turn, params).turn.future ==
                 Some(Verdict(code, At(done, "status"), message, turn.usage))
  {
    var done := DoneOf(params);
    MissingAsEmpty(py, At(params.members, "turn"));
    MissingAsEmpty(py, At(done, "error"));
    assert At([], "codexErrorInfo") == Null;
    hide IsFalsy, OrEmpty, Verdict, Fallback, At;
  }

  lemma CompletionIsHandled(py: Builtins, turn: Turn, params: Value)
    requires turn.future.None? && OnCompleted(py, turn, params).ending.Returned?
    ensures Notify(py, turn, "turn/completed", params) == OnCompleted(py, turn, params).turn
  {
    hide OnCompleted, OnItem, OnUsage;
    KindsDiffer();
  }

  /**
   An open turn ends with a readable completion as status, error code and message say, and in
   no other way.
   */
  lemma CompletionDecides(py: Builtins, turn: Turn, params: Value, message: Value, code: string)
    requires turn.future.None? && IsReadable(py, params)
    requires Finds(py, turn.finalMessage, DoneOf(params), message) && IsCode(py, DoneOf(params), code)
    ensures var o := Notify(py, turn, "turn/completed", params).future;
            o.Some? && Decides(At(DoneOf(params), "status"), code, message, turn.usage, o.value)
  {
    ReadableCompletion(py, turn, params, code);
    if turn.finalMessage == Null { FallbackFinds(py, At(DoneOf(params), "items"), message); }
    hide IsFalsy, Verdict, Decides, FoundAt, Fallback, At, OnCompleted, Notify, IsReadable, IsCode, DoneOf;
    CompletionIsHandled(py, turn, params);
    VerdictDecides(code, At(DoneOf(params), "status"), message, turn.usage);
  }

  /** A completion that cannot be read, or whose items hide the message, ends an open turn as invalid. */
  lemma UnreadableIsInvalid(py: Builtins, turn: Turn, params: Value)
    requires turn.future.None?
    requires !IsReadable(py, params) || forall message :: !Finds(py, turn.finalMessage, DoneOf(params), message)
    ensures Notify(py, turn, "turn/completed", params).future == Some(INVALID)
  {
    hide FoundAt, ScanBack, At, Verdict, ErrorCode, Fallback;
    KindsDiffer();
    var done := DoneOf(params);
    if IsReadable(py, params) && (turn.finalMessage != Null || !Fallback(py, At(done, "items")).Raises?) {
      var message := MessageIsFound(py, turn.finalMessage, done);
      assert false;
    }
  }

  lemma MessageIsFound(py: Builtins, last: Value, done: seq<Member>) returns (message: Value)
    requires last != Null || !Fallback(py, At(done, "items")).Raises?
    ensures Finds(py, last, done, message)
  {
    hide IsFalsy, ScanBack, At, FoundAt;
    message := last;
    if last == Null {
      var items := At(done, "items");
      if !IsFalsy(py, items) {
        var i, text := ScanBackStops(items.items);
        message := text;
      }
    }
  }

  /** Over a whole turn: the last reports before the completion, and what the completion says, decide. */
  lemma TurnEndsAsReported(py: Builtins, ns: seq<Notification>, params: Value, message: Value, code: string)
    requires Feed(py, NEW_TURN, ns).future.None? && IsReadable(py, params)
    requires Finds(py, LastMessage(ns), DoneOf(params), message) && IsCode(py, DoneOf(params), code)
    ensures var o := Notify(py, Feed(py, NEW_TURN, ns), "turn/completed", params).future;
            o.Some? && Decides(At(DoneOf(params), "status"), code, message, LastUsage(py, ns), o.value)
  {
    hide Notify, Decides, Finds, IsReadable, IsCode, DoneOf, At;
    LastReportsWin(py, ns);
    CompletionDecides(py, Feed(py, NEW_TURN, ns), params, message, code);
  }

  /** The runtime stops being ready with a notification exactly when it settles a turn as unauthorized. */
  lemma ReadinessIsLostExactlyWhen(py: Builtins, rt: Runtime, e: Event)
    requires e.Notified? && rt.ready
    ensures !Step(py, rt, e).ready <==>
            exists t :: t in rt.turns && rt.turns[t].future.None? && Settled(Step(py, rt, e), t, Unauthorized)
  {
    hide Notify;
  }

  /**
   A readable completion that the current transport sends for an open turn settles that turn as it
   says, and takes readiness away exactly when it says that the runtime is unauthorized.
   */
  ghost predicate EndsAsReported(py: Builtins, before: Runtime, after: Runtime, from: TransportId, params: Value) {
    forall t, message, code ::
      && ThreadOf(params) == Some(t) && before.transport == Some(from) && t in before.turns
      && before.turns[t].future.None? && IsReadable(py, params)
      && Finds(py, before.turns[t].finalMessage, DoneOf(params), message) && IsCode(py, DoneOf(params), code)
      ==>
        && t in after.turns && after.turns[t].future.Some?
        && Decides(At(DoneOf(params), "status"), code, message, before.turns[t].usage, after.turns[t].future.value)
        && (after.ready <==> before.ready && after.turns[t].future.value != Unauthorized)
  }

  lemma CompletionEndsTurn(py: Builtins, rt: Runtime, from: TransportId, params: Value)
    ensures EndsAsReported(py, rt, Step(py, rt, Notified(from, "turn/completed", params)), from, params)
  {
    hide Notify, Decides, Finds, IsReadable, IsCode, DoneOf, At;
    var after := Step(py, rt, Notified(from, "turn/completed", params));
    forall t, message, code |
      && ThreadOf(params) == Some(t) && rt.transport == Some(from) && t in rt.turns
      && rt.turns[t].future.None? && IsReadable(py, params)
      && Finds(py, rt.turns[t].finalMessage, DoneOf(params), message) && IsCode(py, DoneOf(params), code)
      ensures t in after.turns && after.turns[t].future.Some?
      ensures Decides(At(DoneOf(params), "status"), code, message, rt.turns[t].usage, after.turns[t].future.value)
      ensures after.ready <==> rt.ready && after.turns[t].future.value != Unauthorized
    {
      CompletionDecides(py, rt.turns[t], params, message, code);
    }
  }

  // ---------------------------------------------------------------------
  // The runtime object
  // ---------------------------------------------------------------------

  class CodexRuntime {
    var turns: map<Thread, Turn>
    var transport: Option<TransportId>
    var ready: bool

    constructor ()
      ensures View() == Runtime(map[], None, false)
    {
      turns, transport, ready := map[], None, false;
    }

    function View(): Runtime
      reads this
    {
      Runtime(turns, transport, ready)
    }

    method Register(t: Thread)
      modifies this`turns
      ensures forall py :: View() == Step(py, old(View()), Registered(t))
    {
      turns := turns[t := NEW_TURN];
    }

    method Remove(t: Thread)
      modifies this`turns
      ensures forall py :: View() == Step(py, old(View()), Removed(t))
    {
      turns := turns - {t};
    }

    /** `on_notification` with `_handle_notification`. */
    method HandleNotification(py: Builtins, from: TransportId, kind: string, params: Value)
      modifies this`turns, this`ready
      ensures View() == Step(py, old(View()), Notified(from, kind, params))
      ensures kind == "turn/completed" ==> EndsAsReported(py, old(View()), View(), from, params)
    {
      hide ApplyNotification, EndsAsReported;
      CompletionEndsTurn(py, View(), from, params);
      if transport != Some(from) { return; }
      var t := ThreadOf(params);
      if t.None? || t.value !in turns { return; }
      var before := turns[t.value];
      var applied := ApplyNotification(py, before, kind, params);
      turns := turns[t.value := applied.turn];
      if applied.ending.Caught? {
        if turns[t.value].future.None? {
          turns := turns[t.value := turns[t.value].(future := Some(INVALID))];
        }
      }
      if before.future.None? && turns[t.value].future == Some(Unauthorized) {
        ready := false;
      }
    }

    /** `_fail_turns`: settles the open turns, in any order. */
    method FailOpenTurns(reason: string)
      modifies this`turns
      ensures turns == FailTurns(old(turns), reason)
    {
      var open := turns.Keys;
      while open != {}
        invariant open <= turns.Keys == old(turns).Keys
        invariant forall t :: t in turns ==>
                    turns[t] == if t in open then old(turns)[t] else FailTurn(old(turns)[t], reason)
      {
        var t :| t in open;
        if turns[t].future.None? {
          turns := turns[t := turns[t].(future := Some(Failed(reason)))];
        }
        open := open - {t};
      }
    }

    /** `_handle_exit`. */
    method HandleExit(from: TransportId)
      modifies this
      ensures forall py :: View() == Step(py, old(View()), Exited(from))
    {
      if transport != Some(from) { return; }
      transport, ready := None, false;
      FailOpenTurns("app-server exited");
    }

    /** `_start_transport` with an app-server that comes up. */
    method StartTransport(started: TransportId)
      modifies this
      ensures forall py :: View() == Step(py, old(View()), Replaced(started))
    {
      if transport.Some? {
        transport := None;
        FailOpenTurns("app-server was replaced");
      }
      transport := Some(started);
      ready := true;
    }

    method Stop()
      modifies this
      ensures forall py :: View() == Step(py, old(View()), Stopped)
    {
      ready, transport := false, None;
      FailOpenTurns("runtime stopped");
    }
  }
}
