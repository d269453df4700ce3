/** The intrusion monitor's fault-rate window for one VM, on its own: which faults
    raise a storm alert, how often that can be, and what it cannot miss. */
module StormWindow {
  import opened Words

  datatype Window = Window(start: int, count: int)

  predicate Expired(w: Window, t: int) {
    Sub64(t, w.start) > 1_000_000
  }

  function Tick(w: Window, t: int): Window {
    if Expired(w, t) then Window(t, 1) else w.(count := Inc32(w.count))
  }

  /** The fault at `t` is the fifth of its window. */
  predicate Raises(w: Window, t: int) {
    !Expired(w, t) && Inc32(w.count) == 5
  }

  function Ticks(w: Window, ts: seq<int>): Window {
    if ts == [] then w else Tick(Ticks(w, ts[..|ts| - 1]), ts[|ts| - 1])
  }

  function Alerts(w: Window, ts: seq<int>): seq<int> {
    if ts == [] then []
    else
      var init, t := ts[..|ts| - 1], ts[|ts| - 1];
      if Raises(Ticks(w, init), t) then Alerts(w, init) + [t] else Alerts(w, init)
  }

  lemma OneMore(w: Window, ts: seq<int>, t: int)
    ensures Ticks(w, ts + [t]) == Tick(Ticks(w, ts), t)
    ensures Alerts(w, ts + [t]) == if Raises(Ticks(w, ts), t) then Alerts(w, ts) + [t] else Alerts(w, ts)
  {
    assert (ts + [t])[..|ts|] == ts;
  }

  /** The clock does not go back, and fewer than 2^32 faults are counted. */
  predicate Timely(w: Window, ts: seq<int>) {
    && 0 <= w.start && 0 <= w.count
    && (forall i :: 0 <= i < |ts| ==> ts[i] < 0x1_0000_0000_0000_0000)
    && (forall i, j :: 0 <= i <= j < |ts| ==> ts[i] <= ts[j])
    && (ts != [] ==> w.start <= ts[0])
    && w.count + |ts| < 0x1_0000_0000
  }

  /** No wrap-around happens in a timely run. */
  lemma TickPlain(w: Window, t: int)
    requires 0 <= w.start <= t < 0x1_0000_0000_0000_0000 && 0 <= w.count < 0xFFFF_FFFF
    ensures Expired(w, t) <==> t - w.start > 1_000_000
    ensures Tick(w, t) == if t - w.start > 1_000_000 then Window(t, 1) else Window(w.start, w.count + 1)
    ensures Raises(w, t) <==> t - w.start <= 1_000_000 && w.count == 4
  {
  }

  lemma TimelyInit(w: Window, ts: seq<int>)
    requires ts != [] && Timely(w, ts)
    ensures Timely(w, ts[..|ts| - 1])
  {
  }

  lemma {:induction false} TicksBound(w: Window, ts: seq<int>)
    requires Timely(w, ts)
    ensures 0 <= Ticks(w, ts).start && 0 <= Ticks(w, ts).count <= w.count + |ts|
    ensures ts == [] ==> Ticks(w, ts) == w
    ensures ts != [] ==> w.start <= Ticks(w, ts).start <= ts[|ts| - 1] && Ticks(w, ts).count >= 1
    ensures ts != [] ==> ts[|ts| - 1] - Ticks(w, ts).start <= 1_000_000
  {
    if ts != [] {
      TimelyInit(w, ts);
      TicksBound(w, ts[..|ts| - 1]);
      TickPlain(Ticks(w, ts[..|ts| - 1]), ts[|ts| - 1]);
    }
  }

  /** Where the last two alerts lie relative to the current window. */
  predicate AlertsPlaced(a: seq<int>, w: Window) {
    && (|a| >= 1 ==> a[|a| - 1] <= w.start + 1_000_000)
    && (|a| >= 1 && w.count < 5 ==> a[|a| - 1] < w.start)
    && (|a| >= 2 ==> if w.count >= 5 then a[|a| - 2] < w.start else a[|a| - 2] + 1_000_000 < w.start)
    && forall j :: 0 <= j < |a| - 2 ==> a[j] + 1_000_000 < a[j + 2]
  }

  lemma PlacedStep(a: seq<int>, w: Window, t: int)
    requires AlertsPlaced(a, w) && 0 <= w.start <= t < 0x1_0000_0000_0000_0000 && 0 <= w.count < 0xFFFF_FFFF
    ensures AlertsPlaced(if Raises(w, t) then a + [t] else a, Tick(w, t))
  {
    TickPlain(w, t);
  }

  /** Every window raises at most one alert, so any three consecutive alerts for a
      VM span more than the one-second window. */
  lemma {:induction false} AlertRate(w: Window, ts: seq<int>)
    requires Timely(w, ts)
    ensures AlertsPlaced(Alerts(w, ts), Ticks(w, ts))
  {
    if ts != [] {
      TimelyInit(w, ts);
      AlertRate(w, ts[..|ts| - 1]);
      TicksBound(w, ts[..|ts| - 1]);
      PlacedStep(Alerts(w, ts[..|ts| - 1]), Ticks(w, ts[..|ts| - 1]), ts[|ts| - 1]);
    }
  }

  /** A window that has counted five faults has raised its alert. */
  lemma {:induction false} FiveMeansAlert(w: Window, ts: seq<int>)
    requires Timely(w, ts) && w.count < 5 && Ticks(w, ts).count >= 5
    ensures var a := Alerts(w, ts);
            a != [] && Ticks(w, ts).start <= a[|a| - 1] <= ts[|ts| - 1]
  {
    var init, t := ts[..|ts| - 1], ts[|ts| - 1];
    TimelyInit(w, ts);
    TicksBound(w, init);
    TickPlain(Ticks(w, init), t);
    if Ticks(w, init).count >= 5 {
      FiveMeansAlert(w, init);
    }
  }

  // ---------- what a window can miss ----------

  /** How many of the faults still fall into the window that was open before. */
  function InOpenWindow(w: Window, ts: seq<int>): nat {
    if ts == [] then 0
    else InOpenWindow(w, ts[..|ts| - 1]) + if ts[|ts| - 1] - w.start <= 1_000_000 then 1 else 0
  }

  /** A burst within one second meets at most one window boundary. */
  lemma {:induction false} Burst(w: Window, ts: seq<int>)
    requires Timely(w, ts) && (ts != [] ==> ts[|ts| - 1] - ts[0] <= 1_000_000)
    ensures var m := InOpenWindow(w, ts);
            && m <= |ts|
            && (forall i :: 0 <= i < |ts| ==> (ts[i] - w.start <= 1_000_000 <==> i < m))
            && Ticks(w, ts) == if m == |ts| then Window(w.start, w.count + m) else Window(ts[m], |ts| - m)
  {
    if ts != [] {
      var init, t := ts[..|ts| - 1], ts[|ts| - 1];
      TimelyInit(w, ts);
      Burst(w, init);
      TicksBound(w, init);
      TickPlain(Ticks(w, init), t);
    }
  }

  predicate ReachesFive(w: Window, ts: seq<int>) {
    exists i :: 0 < i <= |ts| && Ticks(w, ts[..i]).count >= 5
  }

  lemma BurstPrefix(w: Window, ts: seq<int>, i: int)
    requires Timely(w, ts) && 0 < i <= |ts| && ts[|ts| - 1] - ts[0] <= 1_000_000
    ensures var m := InOpenWindow(w, ts);
            m <= |ts| && Ticks(w, ts[..i]).count == if i <= m then w.count + i else i - m
  {
    Burst(w, ts);
    Burst(w, ts[..i]);
    var p := ts[..i];
    var m, k := InOpenWindow(w, ts), InOpenWindow(w, p);
    assert forall j :: 0 <= j < i ==> p[j] == ts[j] && (j < k <==> j < m);
    assert k == if i <= m then i else m;
  }

  /** Where a burst can fill a window: the one open before, with what it had counted
      already, or the next one. */
  lemma BurstFills(w: Window, ts: seq<int>)
    requires Timely(w, ts) && ts != [] && ts[|ts| - 1] - ts[0] <= 1_000_000
    ensures var m := InOpenWindow(w, ts);
            ReachesFive(w, ts) <==> (m > 0 && w.count + m >= 5) || |ts| - m >= 5
  {
    var m, n := InOpenWindow(w, ts), |ts|;
    forall i | 0 < i <= n ensures Ticks(w, ts[..i]).count == if i <= m then w.count + i else i - m {
      BurstPrefix(w, ts, i);
    }
    Burst(w, ts);
    if m > 0 && w.count + m >= 5 {
      assert Ticks(w, ts[..m]).count >= 5;
    }
    if n - m >= 5 {
      assert Ticks(w, ts[..n]).count >= 5;
    }
  }

  /** A burst of faults within one second raises an alert exactly when it brings the
      window open before from fewer than five faults to five, or has five faults for the
      next window. */
  lemma {:induction false} BurstNoticed(w: Window, ts: seq<int>)
    requires Timely(w, ts) && (ts != [] ==> ts[|ts| - 1] - ts[0] <= 1_000_000)
    ensures var m := InOpenWindow(w, ts);
            Alerts(w, ts) != [] <==> (w.count < 5 && m > 0 && w.count + m >= 5) || |ts| - m >= 5
  {
    if ts != [] {
      var init, t := ts[..|ts| - 1], ts[|ts| - 1];
      TimelyInit(w, ts);
      BurstNoticed(w, init);
      Burst(w, init);
      Burst(w, ts);
      TicksBound(w, init);
      TickPlain(Ticks(w, init), t);
    }
  }

  /** Nine faults within one second always mean a storm alert in the last two. */
  lemma NineFaultsAlert(w: Window, ts: seq<int>, late: seq<int>)
    requires Timely(w, ts + late) && w.count < 5
    requires |late| == 9 && late[8] - late[0] <= 1_000_000
    ensures exists a :: a in Alerts(w, ts + late) && late[8] - 2_000_000 <= a <= late[8]
  {
    hide Ticks, Alerts;
    SplitTimely(w, ts, late);
    var v := Ticks(w, ts);
    BurstFills(v, late);
    var i :| 0 < i <= 9 && Ticks(v, late[..i]).count >= 5;
    TicksSplit(w, ts, late[..i]);
    assert ts + late[..i] == (ts + late)[..|ts| + i];
    assert (ts + late)[|ts| + i - 1] == late[i - 1];
    FullWindowAlert(w, ts + late, |ts| + i);
  }

  /** If the window is full after the first n faults, an alert lies within the last
      second before the n-th. */
  lemma FullWindowAlert(w: Window, ts: seq<int>, n: nat)
    requires Timely(w, ts) && w.count < 5 && 0 < n <= |ts| && Ticks(w, ts[..n]).count >= 5
    ensures exists a :: a in Alerts(w, ts) && ts[n - 1] - 1_000_000 <= a <= ts[n - 1]
  {
    TimelyPrefix(w, ts, n);
    FiveMeansAlert(w, ts[..n]);
    TicksBound(w, ts[..n]);
    var a := Alerts(w, ts[..n]);
    AlertsGrow(w, ts, n);
    assert a[|a| - 1] in Alerts(w, ts);
  }

  lemma TimelyPrefix(w: Window, ts: seq<int>, n: nat)
    requires Timely(w, ts) && n <= |ts|
    ensures Timely(w, ts[..n])
  {
  }

  lemma SplitTimely(w: Window, ts: seq<int>, late: seq<int>)
    requires Timely(w, ts + late)
    ensures Timely(w, ts) && Timely(Ticks(w, ts), late)
  {
    hide Ticks;
    var all := ts + late;
    assert ts == all[..|ts|] && late == all[|ts|..];
    TimelyPrefix(w, all, |ts|);
    TicksBound(w, ts);
    LateTimely(w, all, |ts|, Ticks(w, ts));
  }

  lemma LateTimely(w: Window, all: seq<int>, n: nat, v: Window)
    requires Timely(w, all) && n <= |all| && 0 <= v.start && 0 <= v.count <= w.count + n
    requires if n == 0 then v == w else v.start <= all[n - 1]
    ensures Timely(v, all[n..])
  {
  }

  lemma {:induction false} TicksSplit(w: Window, ts: seq<int>, late: seq<int>)
    ensures Ticks(w, ts + late) == Ticks(Ticks(w, ts), late)
  {
    if late == [] {
      assert ts + late == ts;
    } else {
      assert (ts + late)[..|ts + late| - 1] == ts + late[..|late| - 1];
      TicksSplit(w, ts, late[..|late| - 1]);
    }
  }

  lemma {:induction false} AlertsGrow(w: Window, ts: seq<int>, n: nat)
    requires n <= |ts|
    ensures Alerts(w, ts[..n]) <= Alerts(w, ts)
  {
    if n < |ts| {
      AlertsGrow(w, ts[..|ts| - 1], n);
      assert ts[..|ts| - 1][..n] == ts[..n];
    } else {
      assert ts[..n] == ts;
    }
  }

  /** Eight faults within four microseconds can pass unnoticed, although the limit
      is given as more than four a second. */
  lemma EightFaultsMissed()
    ensures var ts := [999_997, 999_998, 999_999, 1_000_000, 1_000_001, 1_000_001, 1_000_001, 1_000_001];
            Timely(Window(0, 0), ts) && Alerts(Window(0, 0), ts) == []
  {
    var ts := [999_997, 999_998, 999_999, 1_000_000, 1_000_001, 1_000_001, 1_000_001, 1_000_001];
    var w := Window(0, 0);
    BurstNoticed(w, ts);
    Burst(w, ts);
    assert ts[3] - w.start <= 1_000_000 < ts[4] - w.start;
  }
}
