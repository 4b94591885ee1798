/**
 * A customer's boost (src/boost/index.js): a container of clients, boosters
 * and tickets searched by id for the first match. Boosters and tickets are
 * appended in place; the client list is set only by the constructor.
 * Elements are values here, so the sharing of a found or pushed object with
 * the caller is not modelled.
 */
module Boosts {
  import opened Wrappers

  /** A client or booster object, as far as the container looks at it. */
  datatype Member = Member(id: int, name: string)

  /** A ticket object in the boost's list. */
  datatype TicketEntry = TicketEntry(id: int, issue: string)

  function MemberId(m: Member): int
  {
    m.id
  }

  function TicketId(t: TicketEntry): int
  {
    t.id
  }

  /**
   * `r` is what `Array.prototype.find` returns for the test `idOf(x) === id`:
   * the element at the least index that passes it, or undefined (`None`) when
   * none does.
   */
  predicate IsFirstMatch<T(==)>(xs: seq<T>, idOf: T -> int, id: int, r: Option<T>)
  {
    match r
    case None => forall i :: 0 <= i < |xs| ==> idOf(xs[i]) != id
    case Some(x) =>
      exists i :: 0 <= i < |xs| && xs[i] == x && idOf(x) == id && forall j :: 0 <= j < i ==> idOf(xs[j]) != id
  }

  /** The first element of xs whose id is `id`. */
  function Find<T(==)>(xs: seq<T>, idOf: T -> int, id: int): (r: Option<T>)
    ensures IsFirstMatch(xs, idOf, id, r)
    decreases |xs|
  {
    if |xs| == 0 then None
    else if idOf(xs[0]) == id then Some(xs[0])
    else
      var r := Find(xs[1..], idOf, id);
      FirstMatchCons(xs, idOf, id, r);
      r
  }

  /** A first match in the tail is a first match in the whole list when the head does not match. */
  lemma FirstMatchCons<T>(xs: seq<T>, idOf: T -> int, id: int, r: Option<T>)
    requires |xs| > 0 && idOf(xs[0]) != id && IsFirstMatch(xs[1..], idOf, id, r)
    ensures IsFirstMatch(xs, idOf, id, r)
  {
    match r
    case None =>
      forall i | 0 <= i < |xs|
        ensures idOf(xs[i]) != id
      {
        if i > 0 {
          assert xs[i] == xs[1..][i - 1];
        }
      }
    case Some(x) =>
      var i :| 0 <= i < |xs[1..]| && xs[1..][i] == x && idOf(x) == id && forall j :: 0 <= j < i ==> idOf(xs[1..][j]) != id;
      assert xs[i + 1] == x;
      forall j | 0 <= j < i + 1
        ensures idOf(xs[j]) != id
      {
        if j > 0 {
          assert xs[j] == xs[1..][j - 1];
        }
      }
  }

  /** The first match is unique: `find` has exactly one possible result. */
  lemma FirstMatchUnique<T>(xs: seq<T>, idOf: T -> int, id: int, r1: Option<T>, r2: Option<T>)
    requires IsFirstMatch(xs, idOf, id, r1) && IsFirstMatch(xs, idOf, id, r2)
    ensures r1 == r2
  {
    if r1.Some? && r2.Some? {
      var i1 :| 0 <= i1 < |xs| && xs[i1] == r1.value && idOf(r1.value) == id && forall j :: 0 <= j < i1 ==> idOf(xs[j]) != id;
      var i2 :| 0 <= i2 < |xs| && xs[i2] == r2.value && idOf(r2.value) == id && forall j :: 0 <= j < i2 ==> idOf(xs[j]) != id;
      assert !(i1 < i2) && !(i2 < i1);
    }
  }

  /**
   * Searching a list with elements appended: the first match among the old
   * elements still wins, and only when there is none do the new ones count.
   */
  lemma {:induction false} FindAppend<T>(xs: seq<T>, ys: seq<T>, idOf: T -> int, id: int)
    ensures Find(xs + ys, idOf, id) == if Find(xs, idOf, id).Some? then Find(xs, idOf, id) else Find(ys, idOf, id)
    decreases |xs|
  {
    if |xs| > 0 {
      assert (xs + ys)[0] == xs[0];
      assert (xs + ys)[1..] == xs[1..] + ys;
      FindAppend(xs[1..], ys, idOf, id);
    } else {
      assert xs + ys == ys;
    }
  }

  /** What `addRoster` is given: one booster, or an array of them (line 130). */
  datatype RosterArg = One(booster: Member) | Many(boosters: seq<Member>)

  /** The boosters line 130 pushes, in order. */
  function Boosters(arg: RosterArg): (bs: seq<Member>)
    ensures arg.One? ==> bs == [arg.booster]
    ensures arg.Many? ==> bs == arg.boosters
  {
    match arg
    case One(b) => [b]
    case Many(bs) => bs
  }

  /**
   * The options object of the constructor; `None` is an absent option. The
   * client is an object, so any given client is truthy.
   */
  datatype BoostOptions = BoostOptions(
    id: int,
    boostType: string,
    client: Option<Member>,
    pot: real,
    version: Option<string>,
    count: Option<int>,
    discount: Option<real>)

  /** Lines 62-66: the settings of a boost. */
  datatype Settings = Settings(version: string, count: int, discount: real)

  /**
   * `value || fallback` on each setting: an absent option, the empty string
   * and the number 0 are falsy.
   */
  function SettingsOf(options: BoostOptions): (s: Settings)
    ensures s.version == (if options.version.Some? && options.version.value != "" then options.version.value else "retail")
    ensures s.count == (if options.count.Some? && options.count.value != 0 then options.count.value else 1)
    ensures s.discount == (if options.discount.Some? && options.discount.value != 0.0 then options.discount.value else 1.0)
    ensures s.version != "" && s.count != 0 && s.discount != 0.0
  {
    Settings(
      match options.version case Some(v) => if v != "" then v else "retail" case None => "retail",
      match options.count case Some(c) => if c != 0 then c else 1 case None => 1,
      match options.discount case Some(d) => if d != 0.0 then d else 1.0 case None => 1.0)
  }

  /** Lines 17-169. */
  class Boost {
    var id: int
    var boostType: string
    var client: seq<Member>
    var pot: real
    var settings: Settings
    var roster: seq<Member>
    var ticket: seq<TicketEntry>
    var modLog: seq<string>       // never written by this class
    var createdAt: Option<int>
    var startedAt: Option<int>
    var completedAt: Option<int>

    /** Lines 30-103. */
    constructor (options: BoostOptions)
      ensures id == options.id && boostType == options.boostType && pot == options.pot
      ensures client == (if options.client.Some? then [options.client.value] else [])
      ensures settings == SettingsOf(options)
      ensures roster == [] && ticket == [] && modLog == []
      ensures createdAt == None && startedAt == None && completedAt == None
    {
      id := options.id;
      boostType := options.boostType;
      client := if options.client.Some? then [options.client.value] else [];
      pot := options.pot;
      settings := SettingsOf(options);
      roster := [];
      ticket := [];
      modLog := [];
      createdAt := None;
      startedAt := None;
      completedAt := None;
    }

    /** Lines 105-107: a completion date is set (dates are objects, so always truthy). */
    function IsCompleted(): (b: bool)
      reads this
      ensures b <==> completedAt != None
    {
      completedAt.Some?
    }

    /** Lines 117-119. */
    function GetClient(clientId: int): (r: Option<Member>)
      reads this
      ensures IsFirstMatch(client, MemberId, clientId, r)
    {
      Find(client, MemberId, clientId)
    }

    /** Lines 141-143. */
    function GetRoster(boosterId: int): (r: Option<Member>)
      reads this
      ensures IsFirstMatch(roster, MemberId, boosterId, r)
    {
      Find(roster, MemberId, boosterId)
    }

    /** Lines 166-168. */
    function GetTicket(ticketId: int): (r: Option<TicketEntry>)
      reads this
      ensures IsFirstMatch(ticket, TicketId, ticketId, r)
    {
      Find(ticket, TicketId, ticketId)
    }

    /** Lines 129-131: push one booster, or every booster of an array in order. */
    method AddRoster(booster: RosterArg)
      modifies this
      ensures roster == old(roster) + Boosters(booster)
      ensures client == old(client) && ticket == old(ticket) && modLog == old(modLog)
      ensures id == old(id) && boostType == old(boostType) && pot == old(pot) && settings == old(settings)
      ensures createdAt == old(createdAt) && startedAt == old(startedAt) && completedAt == old(completedAt)
    {
      roster := roster + Boosters(booster);
    }

    /** Lines 154-156: push exactly one ticket. */
    method AddTicket(entry: TicketEntry)
      modifies this
      ensures ticket == old(ticket) + [entry]
      ensures client == old(client) && roster == old(roster) && modLog == old(modLog)
      ensures id == old(id) && boostType == old(boostType) && pot == old(pot) && settings == old(settings)
      ensures createdAt == old(createdAt) && startedAt == old(startedAt) && completedAt == old(completedAt)
    {
      ticket := ticket + [entry];
    }
  }

  /**
   * After `addTicket(t)`, `getTicket(t.id)` finds an earlier ticket with the
   * same id if there is one, and t otherwise.
   */
  method AddThenGetTicket(boost: Boost, entry: TicketEntry) returns (found: Option<TicketEntry>)
    modifies boost
    ensures found == if Find(old(boost.ticket), TicketId, entry.id).Some?
      then Find(old(boost.ticket), TicketId, entry.id) else Some(entry)
  {
    boost.AddTicket(entry);
    found := boost.GetTicket(entry.id);
    FindAppend(old(boost.ticket), [entry], TicketId, entry.id);
  }
}
