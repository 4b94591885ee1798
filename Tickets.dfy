/**
 * Support tickets (src/account/ticket.js): a status and a priority checked
 * against allow-lists, and a `resolve` that refuses a ticket whose status is
 * already 'resolved'. Dates are integer ticks; "now" is a parameter of every
 * operation that stamps one.
 */
module Tickets {
  import opened Wrappers

  /** The statuses `updateStatus` accepts (line 84). */
  const VALID_STATUSES: seq<string> := ["open", "in-progress", "resolved", "closed"]

  /** The priorities `updatePriority` accepts (line 101). */
  const VALID_PRIORITIES: seq<string> := ["low", "normal", "high"]

  /** The errors lines 86, 103 and 118 throw. */
  datatype TicketError =
    | InvalidStatus(status: string)
    | InvalidPriority(priority: string)
    | AlreadyResolved

  /** The seven fields of a ticket. */
  datatype TicketRecord = TicketRecord(
    id: int,
    issue: string,
    status: string,
    priority: string,
    createdAt: int,
    updatedAt: Option<int>,
    resolvedAt: Option<int>)

  /**
   * The options object of the constructor. `None` is an absent (undefined or
   * null) option.
   */
  datatype TicketOptions = TicketOptions(
    id: int,
    issue: string,
    status: Option<string>,
    priority: Option<string>,
    createdAt: Option<int>,
    updatedAt: Option<int>,
    resolvedAt: Option<int>)

  /** `value || fallback` for an optional string: absent and empty strings are falsy. */
  function OrDefault(value: Option<string>, fallback: string): (r: string)
    ensures value.Some? && value.value != "" ==> r == value.value
    ensures value.None? || value.value == "" ==> r == fallback
  {
    if value.Some? && value.value != "" then value.value else fallback
  }

  /** Lines 28-73: the record a new ticket starts with, at time `now`. */
  function Created(options: TicketOptions, now: int): (t: TicketRecord)
    ensures t.status == OrDefault(options.status, "open")
    ensures t.priority == OrDefault(options.priority, "normal")
    ensures t.createdAt == (if options.createdAt.Some? then options.createdAt.value else now)
    ensures t.id == options.id && t.issue == options.issue
    ensures t.updatedAt == options.updatedAt && t.resolvedAt == options.resolvedAt
  {
    TicketRecord(
      options.id,
      options.issue,
      OrDefault(options.status, "open"),
      OrDefault(options.priority, "normal"),
      match options.createdAt case Some(d) => d case None => now,
      options.updatedAt,
      options.resolvedAt)
  }

  /** Lines 83-90: `updateStatus(status)` at time `now`. */
  function StatusUpdate(t: TicketRecord, status: string, now: int): (r: Result<TicketRecord, TicketError>)
    ensures r.Ok? <==> status == "open" || status == "in-progress" || status == "resolved" || status == "closed"
    ensures r.Err? ==> r.error == InvalidStatus(status)
    ensures r.Ok? ==> r.value.status == status && r.value.updatedAt == Some(now)
    ensures r.Ok? ==> r.value.(status := t.status, updatedAt := t.updatedAt) == t
  {
    if status !in VALID_STATUSES then Err(InvalidStatus(status))
    else Ok(t.(status := status, updatedAt := Some(now)))
  }

  /** Lines 100-107: `updatePriority(priority)` at time `now`. */
  function PriorityUpdate(t: TicketRecord, priority: string, now: int): (r: Result<TicketRecord, TicketError>)
    ensures r.Ok? <==> priority == "low" || priority == "normal" || priority == "high"
    ensures r.Err? ==> r.error == InvalidPriority(priority)
    ensures r.Ok? ==> r.value.priority == priority && r.value.updatedAt == Some(now)
    ensures r.Ok? ==> r.value.(priority := t.priority, updatedAt := t.updatedAt) == t
  {
    if priority !in VALID_PRIORITIES then Err(InvalidPriority(priority))
    else Ok(t.(priority := priority, updatedAt := Some(now)))
  }

  /**
   * Lines 116-123: `resolve()` at time `now`. Any status other than
   * 'resolved' may be resolved, 'closed' and unchecked constructor values
   * included.
   */
  function Resolution(t: TicketRecord, now: int): (r: Result<TicketRecord, TicketError>)
    ensures r.Ok? <==> t.status != "resolved"
    ensures r.Err? ==> r.error == AlreadyResolved
    ensures r.Ok? ==> r.value.status == "resolved" && r.value.resolvedAt == Some(now) && r.value.updatedAt == Some(now)
    ensures r.Ok? ==> r.value.(status := t.status, resolvedAt := t.resolvedAt, updatedAt := t.updatedAt) == t
  {
    if t.status == "resolved" then Err(AlreadyResolved)
    else Ok(t.(status := "resolved", resolvedAt := Some(now), updatedAt := Some(now)))
  }

  /** A call on a ticket, for reasoning about sequences of calls. */
  datatype Call =
    | UpdateStatusCall(status: string)
    | UpdatePriorityCall(priority: string)
    | ResolveCall

  /** The outcome of one call at time `now`. */
  function Apply(t: TicketRecord, call: Call, now: int): Result<TicketRecord, TicketError>
  {
    match call
    case UpdateStatusCall(s) => StatusUpdate(t, s, now)
    case UpdatePriorityCall(p) => PriorityUpdate(t, p, now)
    case ResolveCall => Resolution(t, now)
  }

  /** The ticket after a sequence of timed calls; a call that throws changes nothing. */
  function Run(t: TicketRecord, calls: seq<(Call, int)>): TicketRecord
    decreases |calls|
  {
    if |calls| == 0 then t
    else
      var r := Apply(t, calls[0].0, calls[0].1);
      Run(if r.Ok? then r.value else t, calls[1..])
  }

  predicate ValidStatus(s: string)
  {
    s in VALID_STATUSES
  }

  predicate ValidPriority(p: string)
  {
    p in VALID_PRIORITIES
  }

  /** A second `resolve` straight after a successful one always throws. */
  lemma ResolveTwice(t: TicketRecord, now1: int, now2: int)
    requires Resolution(t, now1).Ok?
    ensures Resolution(Resolution(t, now1).value, now2) == Err(AlreadyResolved)
  {
  }

  /**
   * Reopening makes a ticket resolvable again: `resolve`, `updateStatus('open')`,
   * `resolve` succeeds the second time too, and moves `resolvedAt` to its time.
   */
  lemma ResolveAfterReopen(t: TicketRecord, now1: int, now2: int, now3: int)
    requires Resolution(t, now1).Ok?
    ensures var reopened := StatusUpdate(Resolution(t, now1).value, "open", now2);
      && reopened.Ok?
      && Resolution(reopened.value, now3).Ok?
      && Resolution(reopened.value, now3).value.resolvedAt == Some(now3)
  {
  }

  /**
   * The calls never leave the allow-lists once inside them: a ticket whose
   * status and priority are valid keeps them valid through any calls.
   */
  lemma {:induction false} RunKeepsValid(t: TicketRecord, calls: seq<(Call, int)>)
    requires ValidStatus(t.status) && ValidPriority(t.priority)
    ensures ValidStatus(Run(t, calls).status) && ValidPriority(Run(t, calls).priority)
    decreases |calls|
  {
    if |calls| > 0 {
      var r := Apply(t, calls[0].0, calls[0].1);
      var next := if r.Ok? then r.value else t;
      assert ValidStatus(next.status) && ValidPriority(next.priority);
      RunKeepsValid(next, calls[1..]);
    }
  }

  /** The identity, the issue and the creation time never change. */
  lemma {:induction false} RunKeepsIdentity(t: TicketRecord, calls: seq<(Call, int)>)
    ensures Run(t, calls).id == t.id && Run(t, calls).issue == t.issue && Run(t, calls).createdAt == t.createdAt
    decreases |calls|
  {
    if |calls| > 0 {
      var r := Apply(t, calls[0].0, calls[0].1);
      RunKeepsIdentity(if r.Ok? then r.value else t, calls[1..]);
    }
  }

  /** Once set, `resolvedAt` stays set: no call clears it. */
  lemma {:induction false} RunKeepsResolvedAt(t: TicketRecord, calls: seq<(Call, int)>)
    requires t.resolvedAt.Some?
    ensures Run(t, calls).resolvedAt.Some?
    decreases |calls|
  {
    if |calls| > 0 {
      var r := Apply(t, calls[0].0, calls[0].1);
      RunKeepsResolvedAt(if r.Ok? then r.value else t, calls[1..]);
    }
  }

  /** Lines 15-124: a ticket whose fields the calls update in place. */
  class Ticket {
    var id: int
    var issue: string
    var status: string
    var priority: string
    var createdAt: int
    var updatedAt: Option<int>
    var resolvedAt: Option<int>

    /** All fields as one record. */
    function State(): TicketRecord
      reads this
    {
      TicketRecord(id, issue, status, priority, createdAt, updatedAt, resolvedAt)
    }

    /** Lines 28-73. */
    constructor (options: TicketOptions, now: int)
      ensures State() == Created(options, now)
    {
      id := options.id;
      issue := options.issue;
      status := OrDefault(options.status, "open");
      priority := OrDefault(options.priority, "normal");
      createdAt := if options.createdAt.Some? then options.createdAt.value else now;
      updatedAt := options.updatedAt;
      resolvedAt := options.resolvedAt;
    }

    /** Lines 83-90: a status outside the allow-list throws and changes nothing. */
    method UpdateStatus(newStatus: string, now: int) returns (r: Result<(), TicketError>)
      modifies this
      ensures var next := StatusUpdate(old(State()), newStatus, now);
        && (next.Ok? ==> r.Ok? && State() == next.value)
        && (next.Err? ==> r == Err(next.error) && State() == old(State()))
    {
      if newStatus !in VALID_STATUSES {
        return Err(InvalidStatus(newStatus));
      }
      status := newStatus;
      updatedAt := Some(now);
      r := Ok(());
    }

    /** Lines 100-107: a priority outside the allow-list throws and changes nothing. */
    method UpdatePriority(newPriority: string, now: int) returns (r: Result<(), TicketError>)
      modifies this
      ensures var next := PriorityUpdate(old(State()), newPriority, now);
        && (next.Ok? ==> r.Ok? && State() == next.value)
        && (next.Err? ==> r == Err(next.error) && State() == old(State()))
    {
      if newPriority !in VALID_PRIORITIES {
        return Err(InvalidPriority(newPriority));
      }
      priority := newPriority;
      updatedAt := Some(now);
      r := Ok(());
    }

    /** Lines 116-123: resolving a resolved ticket throws and changes nothing. */
    method Resolve(now: int) returns (r: Result<(), TicketError>)
      modifies this
      ensures var next := Resolution(old(State()), now);
        && (next.Ok? ==> r.Ok? && State() == next.value)
        && (next.Err? ==> r == Err(next.error) && State() == old(State()))
    {
      if status == "resolved" {
        return Err(AlreadyResolved);
      }
      status := "resolved";
      resolvedAt := Some(now);
      updatedAt := Some(now);
      r := Ok(());
    }
  }
}
