/**
 * The in-memory rate limiter (apps/telegram-bot/src/accessControl.ts:1-27), and how it compares
 * with the one the database keeps (apps/telegram-bot/src/privateComparisonQueue.ts:532-540).
 */
module RateLimiter {
  import opened Wrappers
  import QueueAdmission

  datatype Window = Window(startedAt: int, count: nat)

  predicate Opens(w: Option<Window>, windowMs: nat, now: int) {
    w == None || now < w.value.startedAt || now - w.value.startedAt >= windowMs
  }

  predicate Allows(w: Option<Window>, limit: nat, windowMs: nat, now: int) { Opens(w, windowMs, now)
          || w.value.count < limit }

  function After(w: Option<Window>, limit: nat, windowMs: nat, now: int): Option<Window> {
    if Opens(w, windowMs, now) then Some(Window(now, 1))
    else if w.value.count < limit then Some(Window(w.value.startedAt, w.value.count + 1))
    else w
  }

  function Lookup(windows: map<string, Window>, chat: string): Option<Window> { if chat in windows
          then Some(windows[chat]) else None }

  class FixedWindowRateLimiter {
    const limit: nat
    const windowMs: nat
    var windows: map<string, Window>

    constructor (limit: nat, windowMs: nat)
      requires limit > 0 && windowMs > 0
      ensures this.limit == limit && this.windowMs == windowMs && windows == map[]
    {
      this.limit, this.windowMs, windows := limit, windowMs, map[];
    }

    method Allow(key: string, now: int) returns (allowed: bool)
      modifies this
      ensures allowed == Allows(Lookup(old(windows), key), limit, windowMs, now)
      ensures Lookup(windows, key) == After(Lookup(old(windows), key), limit, windowMs, now)
      ensures forall k | k != key :: Lookup(windows, k) == Lookup(old(windows), k)
    {
      if key !in windows || now < windows[key].startedAt || now - windows[key].startedAt >= windowMs {
        windows := windows[key := Window(now, 1)];
        return true;
      }
      if windows[key].count >= limit { return false; }
      windows := windows[key := windows[key].(count := windows[key].count + 1)];
      return true;
    }
  }

  // ---------------------------------------------------------------- sequences of calls

  datatype Call = Call(chat: string, now: int)

  // The windows of all chats after the calls.
  function AllAfter(calls: seq<Call>, limit: nat, windowMs: nat): map<string, Window> {
    if |calls| == 0 then map[]
    else
      var before, last := AllAfter(calls[..|calls| - 1], limit, windowMs), calls[|calls| - 1];
      before[last.chat := After(Lookup(before, last.chat), limit, windowMs, last.now).value]
  }

  // Is the i-th call allowed?
  predicate IsAllowed(calls: seq<Call>, limit: nat, windowMs: nat, i: nat)
    requires i < |calls|
  {
    Allows(Lookup(AllAfter(calls[..i], limit, windowMs), calls[i].chat), limit, windowMs, calls[i].now)
  }

  function TimesOf(calls: seq<Call>, chat: string): seq<int> {
    if |calls| == 0 then []
    else TimesOf(calls[..|calls| - 1], chat) + if calls[|calls| - 1].chat == chat then [calls[|calls| - 1].now] else []
  }

  // The window of one chat on its own.
  function OneAfter(times: seq<int>, limit: nat, windowMs: nat): Option<Window> {
    if |times| == 0 then None
    else After(OneAfter(times[..|times| - 1], limit, windowMs), limit, windowMs, times[|times| - 1])
  }

  // Chats do not affect each other: each has the window its own calls alone would give it.
  lemma {:induction false} ChatsAreIndependent(calls: seq<Call>, limit: nat, windowMs: nat, chat: string)
    ensures Lookup(AllAfter(calls, limit, windowMs), chat) == OneAfter(TimesOf(calls, chat), limit, windowMs)
  {
    if |calls| > 0 {
      var before, last := calls[..|calls| - 1], calls[|calls| - 1];
      ChatsAreIndependent(before, limit, windowMs, chat);
      var times := TimesOf(before, chat);
      if last.chat == chat {
        assert TimesOf(calls, chat) == times + [last.now] && (times + [last.now])[..|times|] == times;
        WindowStays(OneAfter(times, limit, windowMs), limit, windowMs, last.now);
      } else {
        assert TimesOf(calls, chat) == times;
      }
    }
  }

  // ---------------------------------------------------------------- twice the limit in any window

  predicate IsOrdered(calls: seq<Call>) { forall i, j | 0 <= i <= j < |calls| :: calls[i].now <= calls[j].now }

  // The chat's allowed calls at or after `from` and before `from` + windowMs.
  function AllowedWithin(calls: seq<Call>, limit: nat, windowMs: nat, chat: string, from: int): nat {
    if |calls| == 0 then 0
    else
      var i := |calls| - 1;
      AllowedWithin(calls[..i], limit, windowMs, chat, from)
      + if calls[i].chat == chat && from <= calls[i].now < from + windowMs && IsAllowed(calls, limit, windowMs, i)
          then 1 else 0
  }

  // By where the chat's current window starts, how many of its calls the interval can hold.
  predicate IsBounded(w: Option<Window>, allowed: nat, limit: nat, windowMs: nat, from: int, last: int) {
    match w
    case None => allowed == 0
    case Some(window) =>
      && window.startedAt <= last && 1 <= window.count <= limit
      && (last < from || window.startedAt + windowMs <= from ==> allowed == 0)
      && (window.startedAt <= from ==> allowed <= window.count)
      && (window.startedAt < from + windowMs ==> allowed <= limit + window.count)
      && allowed <= 2 * limit
  }

  lemma {:induction false} StepIsBounded(w: Option<Window>, allowed: nat, limit: nat, windowMs: nat, from: int,
                                         last: int, now: int)
    requires limit > 0 && windowMs > 0 && last <= now && IsBounded(w, allowed, limit, windowMs, from, last)
    ensures IsBounded(After(w, limit, windowMs, now),
                      allowed + (if from <= now < from + windowMs && Allows(w, limit, windowMs, now) then 1 else 0),
                      limit, windowMs, from, now)
  {
  }

  lemma {:induction false} LaterIsBounded(w: Option<Window>, allowed: nat, limit: nat, windowMs: nat, from: int,
                                          last: int, now: int)
    requires last <= now && IsBounded(w, allowed, limit, windowMs, from, last)
    ensures IsBounded(w, allowed, limit, windowMs, from, now)
  {
  }

  lemma {:induction false} RunIsBounded(calls: seq<Call>, limit: nat, windowMs: nat, chat: string, from: int)
    requires limit > 0 && windowMs > 0 && IsOrdered(calls) && |calls| > 0
    ensures IsBounded(Lookup(AllAfter(calls, limit, windowMs), chat), AllowedWithin(calls, limit, windowMs, chat, from),
                      limit, windowMs, from, calls[|calls| - 1].now)
  {
    hide After, Allows, IsBounded;
    var i := |calls| - 1;
    var before, now := calls[..i], calls[i].now;
    var w, allowed := Lookup(AllAfter(before, limit, windowMs), chat),
        AllowedWithin(before, limit, windowMs, chat, from);
    var last := if i == 0 then now else calls[i - 1].now;
    if i == 0 {
      NothingIsBounded(limit, windowMs, from, now);
    } else {
      RunIsBounded(before, limit, windowMs, chat, from);
    }
    StepIsBounded(w, allowed, limit, windowMs, from, last, now);
    LaterIsBounded(w, allowed, limit, windowMs, from, last, now);
    WindowStays(Lookup(AllAfter(before, limit, windowMs), calls[i].chat), limit, windowMs, now);
  }

  lemma {:induction false} NothingIsBounded(limit: nat, windowMs: nat, from: int, now: int)
    ensures IsBounded(None, 0, limit, windowMs, from, now)
  {
  }

  lemma {:induction false} WindowStays(w: Option<Window>, limit: nat, windowMs: nat, now: int)
    ensures After(w, limit, windowMs, now).Some?
  {
  }

  // With a clock that does not run backwards, no interval of one window's length holds more than
  // twice the limit of a chat's allowed calls.
  lemma {:induction false} AtMostTwiceTheLimit(calls: seq<Call>, limit: nat, windowMs: nat, chat: string, from: int)
    requires limit > 0 && windowMs > 0 && IsOrdered(calls)
    ensures AllowedWithin(calls, limit, windowMs, chat, from) <= 2 * limit
  {
    if |calls| > 0 { RunIsBounded(calls, limit, windowMs, chat, from); }
  }

  // ---------------------------------------------------------------- the limiter in the database

  // One admission of one subject in the database: a row is opened with count zero when there is
  // none, and a refusal leaves it as it is.
  function DatabaseRow(w: Option<Window>, now: int): QueueAdmission.Window {
    if w.Some? then QueueAdmission.Window(w.value.startedAt, w.value.count) else QueueAdmission.Window(now, 0)
  }

  function DatabaseAfter(w: Option<Window>, now: int): QueueAdmission.Window {
    var row := DatabaseRow(w, now);
    if QueueAdmission.WithinLimit(row, now) then QueueAdmission.NextWindow(row, now) else row
  }

  predicate DecideAlike(w: Option<Window>, now: int) {
    var allowed := Allows(w, QueueAdmission.ADMISSION_LIMIT, QueueAdmission.ADMISSION_WINDOW_MS, now);
    var after := After(w, QueueAdmission.ADMISSION_LIMIT, QueueAdmission.ADMISSION_WINDOW_MS, now);
    && allowed == QueueAdmission.WithinLimit(DatabaseRow(w, now), now)
    && after.Some? && DatabaseAfter(w, now) == QueueAdmission.Window(after.value.startedAt, after.value.count)
  }

  // The two limiters decide alike and leave the same window exactly when the clock has not fallen
  // behind the window's start; then only the one in memory starts over.
  lemma {:induction false} LimitersAgreeExactly(w: Option<Window>, now: int)
    requires w.Some? ==> w.value.count <= QueueAdmission.ADMISSION_LIMIT
    ensures DecideAlike(w, now) <==> (w.Some? ==> w.value.startedAt <= now)
  {
  }

  lemma ClockBehindTheWindow()
    ensures var w := Some(Window(1000, 10));
            && Allows(w, QueueAdmission.ADMISSION_LIMIT, QueueAdmission.ADMISSION_WINDOW_MS, 0)
            && !QueueAdmission.WithinLimit(DatabaseRow(w, 0), 0)
  {
  }
}
