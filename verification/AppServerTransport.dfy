/**
 Requests and answers of the app-server transport: numbered requests wait on futures,
 answers arrive in any order, and the process may end at any time.
 */
module AppServerTransport {
  import opened Outcomes

  type ProcessId = nat
  type RequestId = nat

  datatype Future = Waiting | Answered(result: string) | Refused(code: int) | Closed(reason: string) | Cancelled

  datatype Answer = Success(result: string) | Failure(code: int)

  /** `futures` holds all futures ever made, `pending` those whose requester has not come back. */
  datatype Transport = Transport(process: Option<ProcessId>, nextId: nat, futures: map<RequestId, Future>,
      pending: set<RequestId>)

  const IDLE := Transport(None, 1, map[], {})

  datatype Event =
    | Started(process: ProcessId)
    | Requested
    | Replied(id: RequestId, answer: Answer)
    | Ended(process: ProcessId, reason: string)
    | CleanedUp(target: Option<ProcessId>, reason: string)
    | Returned(id: RequestId)

  function Settle(answer: Answer): Future {
    match answer case Success(result) => Answered(result) case Failure(code) => Refused(code)
  }

  /** `_fail_pending`. */
  function FailPending(t: Transport, reason: string): map<RequestId, Future> {
    map id | id in t.futures :: if id in t.pending && t.futures[id] == Waiting then Closed(reason) else t.futures[id]
  }

  function Step(t: Transport, e: Event): Transport {
    match e
    case Started(process) => if t.process.None? then t.(process := Some(process)) else t
    case Requested =>
      if t.process.None? then t
      else t.(nextId := t.nextId + 1, futures := t.futures[t.nextId := Waiting], pending := t.pending + {t.nextId})
    case Replied(id, answer) =>
      if id !in t.pending || id !in t.futures || t.futures[id] != Waiting then t
      else t.(futures := t.futures[id := Settle(answer)])
    case Ended(process, reason) =>
      if t.process != Some(process) then t else t.(process := None, futures := FailPending(t, reason))
    case CleanedUp(target, reason) =>
      t.(process := if target.Some? && t.process == target then None else t.process, futures := FailPending(t, reason))
    case Returned(id) =>
      t.(pending := t.pending - {id},
         futures := if id in t.pending && id in t.futures && t.futures[id] == Waiting
                    then t.futures[id := Cancelled] else t.futures)
  }

  function Run(t: Transport, events: seq<Event>): Transport {
    if |events| == 0 then t else Step(Run(t, events[..|events| - 1]), events[|events| - 1])
  }

  /** Ids are handed out once, and whoever still waits is pending on a transport that has a process. */
  ghost predicate Sound(t: Transport) {
    && t.pending <= t.futures.Keys
    && (forall id :: id in t.futures ==> id < t.nextId)
    && forall id :: id in t.futures && t.futures[id] == Waiting ==> id in t.pending && t.process.Some?
  }

  lemma StepKeepsSound(t: Transport, e: Event)
    requires Sound(t)
    ensures Sound(Step(t, e))
  {
  }

  lemma {:induction false} RunKeepsSound(events: seq<Event>)
    ensures Sound(Run(IDLE, events))
  {
    if |events| > 0 {
      hide Sound, Step;
      RunKeepsSound(events[..|events| - 1]);
      StepKeepsSound(Run(IDLE, events[..|events| - 1]), events[|events| - 1]);
    } else {
      assert Sound(IDLE);
    }
  }

  /** No request waits on a transport without a process, whatever happened before. */
  lemma NobodyWaitsOnTheDead(events: seq<Event>, id: RequestId)
    requires var t := Run(IDLE, events); t.process.None? && id in t.futures
    ensures Run(IDLE, events).futures[id] != Waiting
  {
    RunKeepsSound(events);
  }

  lemma StepKeepsSettled(t: Transport, e: Event, id: RequestId)
    requires Sound(t) && id in t.futures
    ensures id in Step(t, e).futures && (t.futures[id] != Waiting ==> Step(t, e).futures[id] == t.futures[id])
    ensures t.futures[id] == Waiting ==>
              Step(t, e).futures[id] ==
              match e
              case Replied(of, Success(result)) => if of == id then Answered(result) else Waiting
              case Replied(of, Failure(code)) => if of == id then Refused(code) else Waiting
              case Ended(process, reason) => if t.process == Some(process) then Closed(reason) else Waiting
              case CleanedUp(_, reason) => Closed(reason)
              case Returned(of) => if of == id then Cancelled else Waiting
              case _ => Waiting
  {
  }

  /** Who is pending after an event, and on which process. */
  lemma StepKeepsBooks(t: Transport, e: Event)
    requires Sound(t)
    ensures var u := Step(t, e);
            && (forall id :: id in u.pending <==>
                  (id in t.pending && e != Returned(id)) || (e == Requested && t.process.Some? && id == t.nextId))
            && (forall id :: id in u.futures <==>
                  id in t.futures || (e == Requested && t.process.Some? && id == t.nextId))
            && u.nextId == t.nextId + (if e == Requested && t.process.Some? then 1 else 0)
            && (u.process.None? <==>
                  match e
                  case Started(_) => false
                  case Ended(process, _) => t.process.None? || t.process == Some(process)
                  case CleanedUp(target, _) => t.process.None? || t.process == target
                  case _ => t.process.None?)
            && (u.process.Some? && u.process != t.process ==> t.process.None? && e == Started(u.process.value))
  {
  }

  /** A future settles once: by the answer to its own id, by the end of the process, or by its requester giving up. */
  lemma {:induction false} SettledStays(t: Transport, events: seq<Event>, id: RequestId)
    requires Sound(t) && id in t.futures && t.futures[id] != Waiting
    ensures Sound(Run(t, events)) && id in Run(t, events).futures && Run(t, events).futures[id] == t.futures[id]
  {
    if |events| > 0 {
      hide Sound, Step;
      var before := Run(t, events[..|events| - 1]);
      SettledStays(t, events[..|events| - 1], id);
      StepKeepsSound(before, events[|events| - 1]);
      StepKeepsSettled(before, events[|events| - 1], id);
    }
  }

  /** A new request never takes an id that was used before. */
  lemma RequestsGetFreshIds(events: seq<Event>)
    ensures var t := Run(IDLE, events);
            && t.nextId !in t.futures
            && (t.process.Some? ==> Step(t, Requested).futures == t.futures[t.nextId := Waiting])
  {
    RunKeepsSound(events);
  }

  class Connection {
    var process: Option<ProcessId>
    var nextId: nat
    var futures: map<RequestId, Future>
    var pending: set<RequestId>

    constructor ()
      ensures View() == IDLE
    {
      process, nextId, futures, pending := None, 1, map[], {};
    }

    function View(): Transport
      reads this
    {
      Transport(process, nextId, futures, pending)
    }

    /** The first part of `request`: none where it raises at once. */
    method Request() returns (id: Option<RequestId>)
      modifies this
      ensures View() == Step(old(View()), Requested)
      ensures id == if old(process).None? then None else Some(old(nextId))
    {
      if process.None? { return None; }
      id := Some(nextId);
      nextId := nextId + 1;
      futures := futures[id.value := Waiting];
      pending := pending + {id.value};
    }

    /** An answer read from stdout. */
    method Receive(id: RequestId, answer: Answer)
      modifies this`futures
      ensures View() == Step(old(View()), Replied(id, answer))
    {
      if id !in pending || id !in futures || futures[id] != Waiting { return; }
      futures := futures[id := Settle(answer)];
    }

    /** The final part of `request`. */
    method Return(id: RequestId)
      modifies this
      ensures View() == Step(old(View()), Returned(id))
    {
      if id in pending && id in futures && futures[id] == Waiting {
        futures := futures[id := Cancelled];
      }
      pending := pending - {id};
    }

    method FailAll(reason: string)
      modifies this`futures
      ensures futures == FailPending(old(View()), reason)
    {
      var rest := futures.Keys;
      while rest != {}
        invariant rest <= futures.Keys == old(futures).Keys
        invariant forall id :: id in futures ==>
                    futures[id] == if id in rest then old(futures)[id] else FailPending(old(View()), reason)[id]
      {
        var id :| id in rest;
        if id in pending && futures[id] == Waiting {
          futures := futures[id := Closed(reason)];
        }
        rest := rest - {id};
      }
    }

    /** `_begin_terminal`. */
    method BeginTerminal(from: ProcessId, reason: string)
      modifies this
      ensures View() == Step(old(View()), Ended(from, reason))
    {
      if process != Some(from) { return; }
      process := None;
      FailAll(reason);
    }

    /** `_cleanup_process`, as far as it concerns requests. */
    method CleanUp(from: Option<ProcessId>, reason: string)
      modifies this
      ensures View() == Step(old(View()), CleanedUp(from, reason))
    {
      if from.Some? && process == from { process := None; }
      FailAll(reason);
    }
  }
}
