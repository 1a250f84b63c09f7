/** The browser session's console: a ring of entries, a count of all seen, and a read cursor. */
module BrowserConsole {
  import opened Options
  import opened Sequences
  import opened Delivery

  const RING_SIZE: nat := 200

  datatype Entry = Entry(level: string, text: string)

  datatype Level = Errors | Warnings | All

  predicate Passes(e: Entry, level: Level) {
    match level
    case All => true
    case Errors => e.level == "error"
    case Warnings => e.level == "error" || e.level == "warning"
  }

  function Filtered(entries: seq<Entry>, level: Level): seq<Entry> {
    if entries == [] then []
    else if !Passes(entries[0], level) then Filtered(entries[1..], level)
    else [entries[0]] + Filtered(entries[1..], level)
  }

  /** Only the start of a long text is kept. */
  function Shortened(e: Entry): (r: Entry)
    ensures r.level == e.level && |r.text| == (if |e.text| <= 500 then |e.text| else 500)
    ensures forall k | 0 <= k < |r.text| :: r.text[k] == e.text[k]
  {
    if |e.text| > 500 then e.(text := e.text[..500]) else e
  }

  /** Entries not read yet that are still in the ring. */
  function Fresh(log: seq<Entry>, unread: nat): (r: seq<Entry>)
    ensures |r| == if unread <= |log| then unread else |log|
    ensures forall k | 0 <= k < |r| :: r[k] == log[|log| - |r| + k]
  {
    if unread <= |log| then log[|log| - unread..] else log
  }

  /** Of the entries behind the cursor, the first that the ring still holds. */
  function FirstLeft(all: seq<Entry>, cursor: nat): (r: nat)
    requires cursor <= |all|
    ensures cursor <= r <= |all|
  {
    if cursor + 200 < |all| then |all| - 200 else cursor
  }

  class Session {
    var log: seq<Entry>
    var totalSeen: nat
    var readCursor: nat
    /** Every entry ever pushed, and what reads that mark have told of them. */
    ghost var all: seq<Entry>
    ghost var told: seq<Option<Entry>>

    /** The ring holds the newest 200 entries, and every entry up to the cursor was told once, in order:
        drained, or counted as dropped. */
    ghost predicate Valid()
      reads this
    {
      IsRing(log, all, 200) && totalSeen == |all| && readCursor == |told| && Covers(told, all, |all| - |log|)
    }

    constructor ()
      ensures Valid() && all == [] && told == []
    {
      log, totalSeen, readCursor := [], 0, 0;
      all, told := [], [];
    }

    method Push(e: Entry)
      requires Valid()
      modifies this
      ensures Valid() && all == old(all) + [Shortened(e)] && told == old(told)
    {
      RingPush(log, all, RING_SIZE, Shortened(e));
      CoversLongerLog(told, all, |all| - |log|, [Shortened(e)], |all| + 1 - (if |log| + 1 > RING_SIZE then |log| else |log| + 1));
      log := log + [Shortened(e)];
      totalSeen := totalSeen + 1;
      all := all + [Shortened(e)];
      if |log| > RING_SIZE {
        log := log[1..];
      }
    }

    method Unread() returns (unseen: seq<Entry>, dropped: nat)
      requires Valid()
      ensures unseen == Fresh(log, totalSeen - readCursor) && dropped == totalSeen - readCursor - |unseen|
    {
      var unread := totalSeen - readCursor;
      unseen := Fresh(log, unread);
      dropped := if unread > |unseen| then unread - |unseen| else 0;
    }

    method MarkRead(ghost unseen: seq<Entry>, ghost dropped: nat)
      requires Valid() && unseen == Fresh(log, totalSeen - readCursor) && dropped == totalSeen - readCursor - |unseen|
      modifies this
      ensures Valid() && log == old(log) && all == old(all)
      ensures readCursor == |all| && told == old(told) + Told(dropped, unseen)
    {
      FreshCovers(log, all, told, unseen, dropped);
      told := told + Told(dropped, unseen);
      readCursor := totalSeen;
    }

    /** Everything unread is either among the fresh entries or counted as dropped; a marking read moves the
        cursor past all of it, also past entries the level filters out. */
    method Drain(level: Level, markRead: bool) returns (entries: seq<Entry>, dropped: nat)
      requires Valid()
      modifies this
      ensures Valid() && log == old(log) && all == old(all)
      ensures dropped == FirstLeft(all, old(readCursor)) - old(readCursor)
      ensures entries == Filtered(all[FirstLeft(all, old(readCursor))..], level)
      ensures readCursor == if markRead then |all| else old(readCursor)
      ensures told == if markRead then old(told) + Told(dropped, all[FirstLeft(all, old(readCursor))..]) else old(told)
    {
      var unseen: seq<Entry>;
      unseen, dropped := Unread();
      FreshIsUnread(log, all, readCursor, unseen);
      if markRead {
        MarkRead(unseen, dropped);
      }
      entries := Filtered(unseen, level);
    }
  }

  lemma FreshCovers(log: seq<Entry>, all: seq<Entry>, told: seq<Option<Entry>>, unread: seq<Entry>, dropped: nat)
    requires IsRing(log, all, RING_SIZE) && Covers(told, all, |all| - |log|)
    requires unread == Fresh(log, |all| - |told|) && dropped == |all| - |told| - |unread|
    ensures Covers(told + Told(dropped, unread), all, |all| - |log|) && |told + Told(dropped, unread)| == |all|
  {
    CoversMore(told, all, |all| - |log|, dropped, unread);
  }

  lemma FreshIsUnread(log: seq<Entry>, all: seq<Entry>, cursor: nat, unread: seq<Entry>)
    requires IsRing(log, all, RING_SIZE) && cursor <= |all| && unread == Fresh(log, |all| - cursor)
    ensures unread == all[FirstLeft(all, cursor)..]
  {
    var rest := all[FirstLeft(all, cursor)..];
    assert |unread| == |rest|;
    forall k | 0 <= k < |unread|
      ensures unread[k] == rest[k]
    {
      assert unread[k] == log[|log| - |unread| + k];
    }
  }

  /** The positions of the entries that a level asks for. */
  ghost function Wanted(entries: seq<Entry>, level: Level): set<nat> {
    set k: nat | k < |entries| && (level == All || entries[k].level == "error"
                                   || (level == Warnings && entries[k].level == "warning"))
  }

  lemma {:induction false} FilteredLast(front: seq<Entry>, e: Entry, level: Level)
    ensures Filtered(front + [e], level) == Filtered(front, level) + if Passes(e, level) then [e] else []
  {
    if front == [] {
      assert front + [e] == [e] && [e][1..] == [];
    } else {
      FilteredLast(front[1..], e, level);
      assert (front + [e])[1..] == front[1..] + [e];
    }
  }

  /** Exactly those entries are left, in order. */
  lemma {:induction false} FilteredSays(entries: seq<Entry>, level: Level) returns (at: seq<nat>)
    ensures Lists(at, Wanted(entries, level)) && |Filtered(entries, level)| == |at|
    ensures forall i | 0 <= i < |at| :: at[i] < |entries| && Filtered(entries, level)[i] == entries[at[i]]
    decreases |entries|
  {
    at := [];
    if entries != [] {
      var front, e, n := entries[..|entries| - 1], entries[|entries| - 1], |entries| - 1;
      at := FilteredSays(front, level);
      FilteredLast(front, e, level);
      assert entries == front + [e];
      WantedLast(front, e, level);
      if Passes(e, level) {
        ListsMore(at, Wanted(front, level), n);
        at := at + [n];
      }
    }
  }

  lemma WantedLast(front: seq<Entry>, e: Entry, level: Level)
    ensures Wanted(front + [e], level) == Wanted(front, level) + if Passes(e, level) then {|front|} else {}
  {
    var all := front + [e];
    assert forall k | 0 <= k < |front| :: all[k] == front[k];
  }
}
