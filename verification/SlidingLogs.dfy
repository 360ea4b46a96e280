/**
 Sliding admission logs: a queue of the instants of recent admissions, pruned from the
 front.  The queue is exactly the part of the full history that is still in the window.
 */
module SlidingLogs {
  import opened Basics

  function Prune(log: seq<nat>, now: nat, window: nat): seq<nat> {
    if log != [] && Elapsed(now, log[0]) >= window then Prune(log[1..], now, window) else log
  }

  method PruneLog(log: seq<nat>, now: nat, window: nat) returns (kept: seq<nat>)
    ensures kept == Prune(log, now, window)
  {
    kept := log;
    while kept != [] && Elapsed(now, kept[0]) >= window
      invariant Prune(kept, now, window) == Prune(log, now, window)
      decreases |kept|
    {
      kept := kept[1..];
    }
  }

  // ----- the full history behind a log -----

  ghost predicate Sorted(times: seq<nat>) {
    forall i, j :: 0 <= i < j < |times| ==> times[i] <= times[j]
  }

  /** How many admissions of the history lie within the window that ends at `now`. */
  function CountRecent(times: seq<nat>, now: nat, window: nat): nat {
    if times == [] then 0
    else CountRecent(times[..|times| - 1], now, window) + (if times[|times| - 1] + window > now then 1 else 0)
  }

  /** `log` is the end of `times`; what is missing had left the window by `last`. */
  ghost predicate Tracks(times: seq<nat>, log: seq<nat>, last: nat, window: nat) {
    && Sorted(times) && |log| <= |times| && log == times[|times| - |log|..]
    && (forall i :: 0 <= i < |times| ==> times[i] <= last)
    && (forall i :: 0 <= i < |times| - |log| ==> times[i] + window <= last)
  }

  lemma {:induction false} PruneTracks(times: seq<nat>, log: seq<nat>, last: nat, now: nat, window: nat)
    requires Tracks(times, log, last, window) && last <= now
    ensures Tracks(times, Prune(log, now, window), now, window)
    ensures var kept := Prune(log, now, window); kept != [] ==> kept[0] + window > now
    decreases |log|
  {
    if log != [] && Elapsed(now, log[0]) >= window {
      var k := |times| - |log|;
      assert times[k] == log[0];
      assert forall i :: 0 <= i < k ==> times[i] <= times[k];
      PruneTracks(times, log[1..], now, now, window);
    }
  }

  lemma {:induction false} CountRecentSplit(times: seq<nat>, k: nat, now: nat, window: nat)
    requires k <= |times|
    requires forall i :: 0 <= i < k ==> times[i] + window <= now
    requires forall i :: k <= i < |times| ==> times[i] + window > now
    ensures CountRecent(times, now, window) == |times| - k
    decreases |times|
  {
    if times != [] {
      var n := |times| - 1;
      CountRecentSplit(times[..n], if k <= n then k else n, now, window);
    }
  }

  /** After pruning, the length of the log is the number of recent admissions. */
  lemma PrunedLength(times: seq<nat>, log: seq<nat>, last: nat, now: nat, window: nat)
    requires Tracks(times, log, last, window) && last <= now
    ensures |Prune(log, now, window)| == CountRecent(times, now, window)
  {
    PruneTracks(times, log, last, now, window);
    var kept := Prune(log, now, window);
    var k := |times| - |kept|;
    if kept != [] { assert times[k] == kept[0]; }
    CountRecentSplit(times, k, now, window);
  }

  /** `limit + 1` consecutive admissions span at least a window. */
  ghost predicate Spaced(times: seq<nat>, limit: nat, window: nat) {
    forall i :: 0 <= i && i + limit < |times| ==> times[i] + window <= times[i + limit]
  }

  lemma PushTracks(times: seq<nat>, log: seq<nat>, now: nat, window: nat)
    requires Tracks(times, log, now, window)
    ensures Tracks(times + [now], log + [now], now, window)
  {
  }

  lemma PushSpaced(times: seq<nat>, log: seq<nat>, now: nat, limit: nat, window: nat)
    requires Tracks(times, log, now, window) && Spaced(times, limit, window) && |log| < limit
    ensures Spaced(times + [now], limit, window)
  {
  }

  // ----- socket message limits -----

  /** Instants are nanoseconds.  The service prunes entries strictly older than the window,
      that is, at least one nanosecond more than the window old. */
  const SECOND: nat := 1_000_000_000
  const MESSAGE_WINDOW: nat := 2 * SECOND
  const MAX_MESSAGES: nat := 45
  const CHAT_WINDOW: nat := 10 * SECOND
  const MAX_CHAT_MESSAGES: nat := 5

  function Accept(log: seq<nat>, now: nat, window: nat, limit: nat): (seq<nat>, bool) {
    var kept := Prune(log, now, window + 1);
    if |kept| >= limit then (kept, false) else (kept + [now], true)
  }

  /** The two queues of one socket. */
  class RecentMessages {
    var messages: seq<nat>
    var chats: seq<nat>

    constructor ()
      ensures messages == [] && chats == []
    {
      messages, chats := [], [];
    }

    method AcceptMessage(now: nat) returns (accepted: bool)
      modifies `messages
      ensures (messages, accepted) == Accept(old(messages), now, MESSAGE_WINDOW, MAX_MESSAGES)
    {
      messages := PruneLog(messages, now, MESSAGE_WINDOW + 1);
      if |messages| >= MAX_MESSAGES {
        return false;
      }
      messages := messages + [now];
      return true;
    }

    method AcceptChatMessage(now: nat) returns (accepted: bool)
      modifies `chats
      ensures (chats, accepted) == Accept(old(chats), now, CHAT_WINDOW, MAX_CHAT_MESSAGES)
    {
      chats := PruneLog(chats, now, CHAT_WINDOW + 1);
      if |chats| >= MAX_CHAT_MESSAGES {
        return false;
      }
      chats := chats + [now];
      return true;
    }
  }

  /** The queue and the instants of all accepted messages after a run of attempts. */
  datatype Socket = Socket(log: seq<nat>, accepted: seq<nat>, last: nat)

  function Attempt(s: Socket, now: nat, window: nat, limit: nat): Socket {
    var r := Accept(s.log, now, window, limit);
    Socket(r.0, if r.1 then s.accepted + [now] else s.accepted, now)
  }

  function Attempts(s: Socket, times: seq<nat>, window: nat, limit: nat): Socket
    decreases times
  {
    if times == [] then s else Attempts(Attempt(s, times[0], window, limit), times[1..], window, limit)
  }

  ghost predicate SocketInv(s: Socket, window: nat, limit: nat) {
    Tracks(s.accepted, s.log, s.last, window + 1) && Spaced(s.accepted, limit, window + 1)
  }

  /** An attempt is accepted exactly when fewer than the limit were accepted in the window. */
  lemma AttemptExact(s: Socket, now: nat, window: nat, limit: nat)
    requires SocketInv(s, window, limit) && s.last <= now
    ensures SocketInv(Attempt(s, now, window, limit), window, limit)
    ensures Attempt(s, now, window, limit).accepted ==
            if CountRecent(s.accepted, now, window + 1) < limit then s.accepted + [now] else s.accepted
  {
    PrunedLength(s.accepted, s.log, s.last, now, window + 1);
    PruneTracks(s.accepted, s.log, s.last, now, window + 1);
    var kept := Prune(s.log, now, window + 1);
    PushTracks(s.accepted, kept, now, window + 1);
    if |kept| < limit { PushSpaced(s.accepted, kept, now, limit, window + 1); }
  }

  lemma {:induction false} AttemptsInv(s: Socket, times: seq<nat>, window: nat, limit: nat)
    requires SocketInv(s, window, limit)
    requires Sorted(times) && (times != [] ==> s.last <= times[0])
    ensures SocketInv(Attempts(s, times, window, limit), window, limit)
    decreases times
  {
    if times != [] {
      AttemptExact(s, times[0], window, limit);
      hide SocketInv;
      AttemptsInv(Attempt(s, times[0], window, limit), times[1..], window, limit);
    }
  }

  /** Any 46 accepted socket messages span more than two seconds, and any 6 accepted chat
      messages more than ten, whatever was attempted in between. */
  lemma MessagesSpread(times: seq<nat>, i: nat)
    requires Sorted(times)
    ensures var a := Attempts(Socket([], [], 0), times, MESSAGE_WINDOW, MAX_MESSAGES).accepted;
            i + 45 < |a| ==> a[i + 45] - a[i] > 2 * SECOND
    ensures var a := Attempts(Socket([], [], 0), times, CHAT_WINDOW, MAX_CHAT_MESSAGES).accepted;
            i + 5 < |a| ==> a[i + 5] - a[i] > 10 * SECOND
  {
    AttemptsInv(Socket([], [], 0), times, MESSAGE_WINDOW, MAX_MESSAGES);
    AttemptsInv(Socket([], [], 0), times, CHAT_WINDOW, MAX_CHAT_MESSAGES);
  }
}
