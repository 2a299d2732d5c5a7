/** The fixed-window limiter, and what it guarantees over any sequence of calls. */
module Limiter {
  import opened Sets

  type Key = string
  type Time = nat

  const WINDOW: nat := 15 * 60 * 1_000_000
  const MAX_COUNT: nat := 10
  const MAX_ENTRIES: nat := 10000

  datatype Throttle = Throttle(count: nat, expires: Time)

  type Entries = map<Key, Throttle>

  // The entry that counts at `now`; a missing or expired one counts as a new window.
  function Current(entries: Entries, key: Key, now: Time): Throttle {
    if key in entries && now < entries[key].expires then entries[key] else Throttle(0, now + WINDOW)
  }

  function Unexpired(entries: Entries, now: Time): Entries {
    map key | key in entries && now < entries[key].expires :: entries[key]
  }

  function Purged(entries: Entries, now: Time): Entries {
    if |entries| >= MAX_ENTRIES then Unexpired(entries, now) else entries
  }

  predicate Admitted(entries: Entries, key: Key, now: Time) {
    Current(entries, key, now).count < MAX_COUNT && |Purged(entries, now)| < MAX_ENTRIES
  }

  function After(entries: Entries, key: Key, now: Time): Entries {
    var v := Current(entries, key, now);
    if v.count >= MAX_COUNT then entries
    else if |Purged(entries, now)| >= MAX_ENTRIES then Purged(entries, now)
    else Purged(entries, now)[key := Throttle(v.count + 1, v.expires)]
  }

  class Limiter {
    var entries: Entries

    constructor ()
      ensures entries == map[]
    {
      entries := map[];
    }

    /** Purging may delete the caller's own expired entry; the new window is stored all the same. */
    method Allow(key: Key, now: Time) returns (ok: bool)
      modifies this
      ensures ok <==> Admitted(old(entries), key, now)
      ensures entries == After(old(entries), key, now)
      ensures |old(entries)| <= MAX_ENTRIES ==> |entries| <= MAX_ENTRIES
    {
      var v := Throttle(0, 0);
      if key in entries { v := entries[key]; }
      if v.expires <= now { v := Throttle(0, now + WINDOW); }
      if v.count >= MAX_COUNT { return false; }
      if |entries| >= MAX_ENTRIES {
        ghost var before := entries;
        var rest := entries.Keys;
        while rest != {}
          invariant rest <= entries.Keys <= before.Keys
          invariant forall k | k in entries :: entries[k] == before[k]
          invariant forall k | k in before.Keys - rest :: k in entries <==> now < before[k].expires
          decreases |rest|
        {
          var k :| k in rest;
          if entries[k].expires <= now { entries := entries - {k}; }
          rest := rest - {k};
        }
        OnlyUnexpired(before, entries, now);
        if |entries| >= MAX_ENTRIES { return false; }
      }
      v := Throttle(v.count + 1, v.expires);
      entries := entries[key := v];
      return true;
    }
  }

  lemma OnlyUnexpired(before: Entries, entries: Entries, now: Time)
    requires entries.Keys <= before.Keys && forall k | k in entries :: entries[k] == before[k]
    requires forall k | k in before :: k in entries <==> now < before[k].expires
    ensures entries == Unexpired(before, now) && |entries| <= |before|
  {
    UnexpiredSize(before, now);
  }

  lemma UnexpiredSize(entries: Entries, now: Time)
    ensures |Unexpired(entries, now)| <= |entries|
  {
    SubsetSize(Unexpired(entries, now).Keys, entries.Keys);
  }

  // ---- sequences of calls ----

  datatype Call = Call(key: Key, time: Time)

  ghost predicate Chronological(calls: seq<Call>) {
    forall i, j | 0 <= i <= j < |calls| :: calls[i].time <= calls[j].time
  }

  // The entries after the first n calls.
  function Play(calls: seq<Call>, n: nat): Entries
    requires n <= |calls|
  {
    if n == 0 then map[] else After(Play(calls, n - 1), calls[n - 1].key, calls[n - 1].time)
  }

  predicate Allowed(calls: seq<Call>, i: nat)
    requires i < |calls|
  {
    Admitted(Play(calls, i), calls[i].key, calls[i].time)
  }

  // The last window of every key, kept even when its entry is purged.
  function Windows(calls: seq<Call>, n: nat): Entries
    requires n <= |calls|
  {
    if n == 0 then map[]
    else if Allowed(calls, n - 1)
    then Windows(calls, n - 1)[calls[n - 1].key := Play(calls, n)[calls[n - 1].key]]
    else Windows(calls, n - 1)
  }

  // Allowed calls of a key at times in [from, to), among the first n calls.
  function Allows(calls: seq<Call>, key: Key, from: Time, to: Time, n: nat): nat
    requires n <= |calls|
  {
    if n == 0 then 0
    else Allows(calls, key, from, to, n - 1)
         + if calls[n - 1].key == key && from <= calls[n - 1].time < to && Allowed(calls, n - 1) then 1 else 0
  }

  // What the entries still know about a key is what its last window says.
  ghost predicate Tracks(entries: Entries, windows: Entries, now: Time) {
    && (forall key | key in entries :: key in windows && entries[key] == windows[key])
    && (forall key | key in windows :: key in entries || windows[key].expires <= now)
    && (forall key | key in windows ::
          1 <= windows[key].count <= MAX_COUNT && WINDOW <= windows[key].expires <= now + WINDOW)
  }

  lemma {:induction false} PlayTracks(calls: seq<Call>, n: nat, now: Time)
    requires Chronological(calls) && n <= |calls|
    requires forall i | 0 <= i < n :: calls[i].time <= now
    ensures Tracks(Play(calls, n), Windows(calls, n), now)
  {
    if n > 0 { PlayTracks(calls, n - 1, calls[n - 1].time); }
  }

  lemma {:induction false} WindowBounds(calls: seq<Call>, n: nat, now: Time, key: Key)
    requires Chronological(calls) && n <= |calls|
    requires forall i | 0 <= i < n :: calls[i].time <= now
    ensures var w := Windows(calls, n);
            key in w ==> 1 <= w[key].count <= MAX_COUNT && WINDOW <= w[key].expires <= now + WINDOW
  {
    PlayTracks(calls, n, now);
  }

  /** The table never outgrows its bound. */
  lemma {:induction false} TableBounded(calls: seq<Call>, n: nat)
    requires n <= |calls|
    ensures |Play(calls, n)| <= 10000
  {
    if n > 0 {
      TableBounded(calls, n - 1);
      UnexpiredSize(Play(calls, n - 1), calls[n - 1].time);
    }
  }

  // How the last window of the caller's key moves when call n - 1 is allowed.
  lemma AllowedStep(calls: seq<Call>, n: nat)
    requires Chronological(calls) && 0 < n <= |calls| && Allowed(calls, n - 1)
    ensures var key, now, w := calls[n - 1].key, calls[n - 1].time, Windows(calls, n - 1);
            var w' := Windows(calls, n);
            && key in w'
            && w' == w[key := w'[key]]
            && (if key in w && now < w[key].expires
                then w[key].count < MAX_COUNT && w'[key] == Throttle(w[key].count + 1, w[key].expires)
                else w'[key] == Throttle(1, now + WINDOW))
  {
    PlayTracks(calls, n - 1, calls[n - 1].time);
  }

  // One more allowed call at `now` moves the last window from w to w'.
  ghost predicate Moves(now: Time, w: Throttle, w': Throttle) {
    if now < w.expires then w.count < MAX_COUNT && w' == Throttle(w.count + 1, w.expires)
    else w' == Throttle(1, now + WINDOW)
  }

  // What the allowed call n - 1 does to the last window of any key.
  lemma WindowMoves(calls: seq<Call>, n: nat, key: Key)
    requires Chronological(calls) && 0 < n <= |calls| && Allowed(calls, n - 1)
    ensures var now, w, w' := calls[n - 1].time, Windows(calls, n - 1), Windows(calls, n);
            if calls[n - 1].key != key then (key in w <==> key in w') && (key in w ==> w'[key] == w[key])
            else key in w' && if key in w then Moves(now, w[key], w'[key]) else w'[key] == Throttle(1, now + WINDOW)
  {
    AllowedStep(calls, n);
  }

  // Allowed calls of a key all lie before the end of its last window.
  lemma {:induction false} NoneAfterWindow(calls: seq<Call>, key: Key, from: Time, to: Time, n: nat)
    requires Chronological(calls) && n <= |calls|
    requires key in Windows(calls, n) ==> Windows(calls, n)[key].expires <= from
    ensures Allows(calls, key, from, to, n) == 0
  {
    if n > 0 {
      if Allowed(calls, n - 1) {
        WindowMoves(calls, n, key);
        WindowBounds(calls, n - 1, calls[n - 1].time, key);
      }
      NoneAfterWindow(calls, key, from, to, n - 1);
    }
  }

  lemma {:induction false} NoneBefore(calls: seq<Call>, key: Key, from: Time, to: Time, n: nat)
    requires Chronological(calls) && n <= |calls|
    requires n > 0 ==> calls[n - 1].time < from
    ensures Allows(calls, key, from, to, n) == 0
  {
    if n > 0 {
      assert n > 1 ==> calls[n - 2].time <= calls[n - 1].time;
      NoneBefore(calls, key, from, to, n - 1);
    }
  }

  // Call i opens a window: it is allowed, and its key has no window running.
  predicate Opens(calls: seq<Call>, i: nat)
    requires i < |calls|
  {
    Allowed(calls, i) && Current(Play(calls, i), calls[i].key, calls[i].time).count == 0
  }

  // `allows` calls were allowed in [start, start + WINDOW), and `w` is the key's last window.
  ghost predicate InWindow(start: Time, w: Throttle, allows: nat) {
    && allows <= MAX_COUNT
    && (w.expires == start + WINDOW ==> allows <= w.count)
    && (w.expires == start + WINDOW || w.expires >= start + 2 * WINDOW)
  }

  lemma WindowOpens(calls: seq<Call>, i: nat)
    requires Chronological(calls) && i < |calls| && Opens(calls, i)
    ensures var key, start, w := calls[i].key, calls[i].time, Windows(calls, i + 1);
            key in w && InWindow(start, w[key], Allows(calls, key, start, start + WINDOW, i + 1))
  {
    var key, start := calls[i].key, calls[i].time;
    AllowedStep(calls, i + 1);
    PlayTracks(calls, i, start);
    NoneAfterWindow(calls, key, start, start + WINDOW, i);
  }

  lemma WindowStep(start: Time, now: Time, w: Throttle, w': Throttle, allows: nat)
    requires InWindow(start, w, allows) && start <= now && w.expires <= now + WINDOW && Moves(now, w, w')
    ensures InWindow(start, w', allows + if now < start + WINDOW then 1 else 0)
  {
  }

  lemma {:induction false} WindowCount(calls: seq<Call>, i: nat, n: nat)
    requires Chronological(calls) && i < n <= |calls| && Opens(calls, i)
    ensures var key, start, w := calls[i].key, calls[i].time, Windows(calls, n);
            key in w && InWindow(start, w[key], Allows(calls, key, start, start + WINDOW, n))
  {
    if n == i + 1 {
      WindowOpens(calls, i);
    } else {
      WindowCount(calls, i, n - 1);
      OneMoreInWindow(calls, i, n);
    }
  }

  // One more call keeps the count of the window that call i opened.
  lemma {:induction false} OneMoreInWindow(calls: seq<Call>, i: nat, n: nat)
    requires Chronological(calls) && i + 1 < n <= |calls|
    requires var key, start, w := calls[i].key, calls[i].time, Windows(calls, n - 1);
             key in w && InWindow(start, w[key], Allows(calls, key, start, start + WINDOW, n - 1))
    ensures var key, start, w := calls[i].key, calls[i].time, Windows(calls, n);
            key in w && InWindow(start, w[key], Allows(calls, key, start, start + WINDOW, n))
  {
    var key, start, now := calls[i].key, calls[i].time, calls[n - 1].time;
    var w, allows := Windows(calls, n - 1), Allows(calls, key, start, start + WINDOW, n - 1);
    assert start <= now;
    if Allowed(calls, n - 1) && calls[n - 1].key == key {
      WindowMoves(calls, n, key);
      WindowBounds(calls, n - 1, now, key);
      WindowStep(start, now, w[key], Windows(calls, n)[key], allows);
    } else {
      OtherWindow(calls, n, key, start, start + WINDOW);
    }
  }

  // A call that is refused, or of another key, leaves window and count of a key alone.
  lemma {:induction false} OtherWindow(calls: seq<Call>, n: nat, key: Key, from: Time, to: Time)
    requires Chronological(calls) && 0 < n <= |calls| && !(Allowed(calls, n - 1) && calls[n - 1].key == key)
    ensures var w, w' := Windows(calls, n - 1), Windows(calls, n);
            (key in w <==> key in w') && (key in w ==> w'[key] == w[key])
    ensures Allows(calls, key, from, to, n) == Allows(calls, key, from, to, n - 1)
  {
    if Allowed(calls, n - 1) { WindowMoves(calls, n, key); }
  }

  /** At most ten allowed calls of a key fall into any window that one of its calls opens. */
  lemma {:induction false} AtMostTenPerWindow(calls: seq<Call>, i: nat)
    requires Chronological(calls) && i < |calls| && Opens(calls, i)
    ensures Allows(calls, calls[i].key, calls[i].time, calls[i].time + 900_000_000, |calls|) <= 10
  {
    WindowCount(calls, i, |calls|);
  }

  // `allows` calls were allowed in [from, from + WINDOW), and `w` is the key's last window.
  ghost predicate InInterval(from: Time, w: Throttle, allows: nat) {
    && (w.expires < from + WINDOW ==> allows <= w.count)
    && (from + WINDOW <= w.expires < from + 2 * WINDOW ==> allows <= MAX_COUNT + w.count)
    && allows <= 2 * MAX_COUNT
  }

  lemma IntervalStep(from: Time, now: Time, w: Throttle, w': Throttle, allows: nat)
    requires InInterval(from, w, allows) && from <= now && w.count <= MAX_COUNT
    requires w.expires <= now + WINDOW && Moves(now, w, w')
    ensures InInterval(from, w', allows + if now < from + WINDOW then 1 else 0)
  {
  }

  lemma {:induction false} IntervalCount(calls: seq<Call>, key: Key, from: Time, n: nat)
    requires Chronological(calls) && n <= |calls|
    ensures var w, allows := Windows(calls, n), Allows(calls, key, from, from + WINDOW, n);
            && (key !in w ==> allows == 0)
            && (key in w ==> InInterval(from, w[key], allows))
  {
    if n > 0 {
      IntervalCount(calls, key, from, n - 1);
      WindowBounds(calls, n - 1, calls[n - 1].time, key);
      if Allowed(calls, n - 1) {
        WindowMoves(calls, n, key);
        var now := calls[n - 1].time;
        if now < from {
          NoneBefore(calls, key, from, from + WINDOW, n);
        } else if calls[n - 1].key == key && key in Windows(calls, n - 1) {
          IntervalStep(from, now, Windows(calls, n - 1)[key], Windows(calls, n)[key],
                       Allows(calls, key, from, from + WINDOW, n - 1));
        }
      }
    }
  }

  /** However the windows fall, a key is allowed at most twenty calls in any fifteen minutes. */
  lemma AtMostTwentyPerInterval(calls: seq<Call>, key: Key, from: Time)
    requires Chronological(calls)
    ensures Allows(calls, key, from, from + 900_000_000, |calls|) <= 20
  {
    IntervalCount(calls, key, from, |calls|);
  }

  /**
  A call is refused only if its own key has used up a running window, or if 10000 keys have running
  entries; other keys and expired entries never count against it.
  */
  lemma {:induction false} NotStricterThanNeeded(calls: seq<Call>, i: nat)
    requires Chronological(calls) && i < |calls|
    ensures var w, key, now := Windows(calls, i), calls[i].key, calls[i].time;
            Allowed(calls, i) <==>
              && !(key in w && now < w[key].expires && w[key].count >= 10)
              && |set k | k in Play(calls, i) && now < Play(calls, i)[k].expires| < 10000
  {
    var entries, now := Play(calls, i), calls[i].time;
    assert Unexpired(entries, now).Keys == set k | k in entries && now < entries[k].expires;
    UnexpiredSize(entries, now);
    PlayTracks(calls, i, calls[i].time);
  }
}
