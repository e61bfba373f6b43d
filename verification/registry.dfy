/**
 * The two handler registries of src/Irc.php: action handlers, fired for
 * received messages whose class shares a bit with the handler's mask and
 * whose text matches the handler's pattern, and time handlers, fired when
 * their interval has passed. Callbacks are identified, not invoked; the
 * regular-expression engine is a parameter.
 */
module Registry {
  import opened Wrappers
  import opened Text
  import HT = HandlerType

  /** A callback: a callable value, or an object and method name; both stand for references the model does not follow. */
  datatype Callback = Callable(target: nat) | Bound(target: nat, name: string)

  /** registerActionHandler/registerTimeHandler: a method name that PHP deems non-empty binds it to the object. */
  function MakeCallback(target: nat, methodName: string): (cb: Callback)
    ensures cb.Bound? <==> methodName != "" && methodName != "0"
    ensures cb.target == target
  {
    if IsEmpty(Some(methodName)) then Callable(target) else Bound(target, methodName)
  }

  datatype ActionHandler = ActionHandler(id: nat, mask: HT.Mask, pattern: string, callback: Callback)

  /** Handler ids strictly increase along the list. */
  predicate IdsIncreasing(hs: seq<ActionHandler>)
  {
    forall i, j :: 0 <= i < j < |hs| ==> hs[i].id < hs[j].id
  }

  /** Every id in the list is below the next id to hand out. */
  predicate IdsBelow(hs: seq<ActionHandler>, next: nat)
  {
    forall i :: 0 <= i < |hs| ==> hs[i].id < next
  }

  /** The registration precheck: the type must share a bit with ALL. */
  predicate ValidType(mask: HT.Mask)
  {
    mask & HT.ALL != 0
  }

  /**
   * registerActionHandler: a type outside ALL is refused and nothing
   * changes; otherwise the handler is appended with the current counter as
   * its id and the counter moves on.
   */
  function RegisterAction(hs: seq<ActionHandler>, next: nat, mask: HT.Mask, pattern: string, cb: Callback)
    : (r: (seq<ActionHandler>, nat, Option<nat>))
    ensures !ValidType(mask) ==> r == (hs, next, None)
    ensures ValidType(mask) ==> r == (hs + [ActionHandler(next, mask, pattern, cb)], next + 1, Some(next))
  {
    if !ValidType(mask) then (hs, next, None)
    else (hs + [ActionHandler(next, mask, pattern, cb)], next + 1, Some(next))
  }

  /** Registration keeps ids unique and increasing, and below the counter. */
  lemma RegisterKeepsOrder(hs: seq<ActionHandler>, next: nat, mask: HT.Mask, pattern: string, cb: Callback)
    requires IdsIncreasing(hs) && IdsBelow(hs, next)
    ensures var (hs', next', _) := RegisterAction(hs, next, mask, pattern, cb);
      IdsIncreasing(hs') && IdsBelow(hs', next') && next <= next'
  {
  }

  /**
   * The position of the first entry satisfying the unregister test for an
   * id; `idOf` reads an action or a time handler's id.
   */
  function FindId<T>(hs: seq<T>, idOf: T -> nat, id: nat): (r: Option<nat>)
    ensures r.Some? ==> r.value < |hs| && idOf(hs[r.value]) == id && forall j :: 0 <= j < r.value ==> idOf(hs[j]) != id
    ensures r.None? ==> forall j :: 0 <= j < |hs| ==> idOf(hs[j]) != id
    decreases |hs|
  {
    if hs == [] then None
    else if idOf(hs[0]) == id then Some(0)
    else match FindId(hs[1..], idOf, id)
      case Some(k) => Some(k + 1)
      case None => None
  }

  function ActionId(h: ActionHandler): nat { h.id }

  function TimeId(h: TimeHandler): nat { h.id }

  /** `unset` followed by `array_values`: the entry at `i` goes, the rest keep their order. */
  function RemoveAt<T>(xs: seq<T>, i: nat): (ys: seq<T>)
    requires i < |xs|
    ensures |ys| == |xs| - 1
    ensures forall j :: 0 <= j < i ==> ys[j] == xs[j]
    ensures forall j :: i <= j < |ys| ==> ys[j] == xs[j + 1]
  {
    xs[..i] + xs[i + 1..]
  }

  /** unregisterActionId: the entry with that id goes and the others keep their order; an unknown id changes nothing. */
  function UnregisterId(hs: seq<ActionHandler>, id: nat): (r: (seq<ActionHandler>, bool))
    ensures r.1 <==> exists j :: 0 <= j < |hs| && hs[j].id == id
    ensures !r.1 ==> r.0 == hs
    ensures r.1 ==> |r.0| == |hs| - 1
  {
    match FindId(hs, ActionId, id)
    case Some(i) => (RemoveAt(hs, i), true)
    case None => (hs, false)
  }

  /** With unique ids, unregistering removes exactly the handler with that id and keeps the rest, in order and with unique ids. */
  lemma UnregisterRemovesOnly(hs: seq<ActionHandler>, id: nat)
    requires IdsIncreasing(hs)
    ensures var (hs', _) := UnregisterId(hs, id);
      IdsIncreasing(hs')
      && (forall j :: 0 <= j < |hs'| ==> hs'[j].id != id)
      && (forall j :: 0 <= j < |hs| && hs[j].id != id ==> hs[j] in hs')
      && (forall h :: h in hs' ==> h in hs)
  {
    match FindId(hs, ActionId, id)
    case None =>
    case Some(i) =>
      var hs' := RemoveAt(hs, i);
      forall j | 0 <= j < |hs| && hs[j].id != id
        ensures hs[j] in hs'
      {
        if j < i {
          assert hs'[j] == hs[j];
        } else {
          assert j > i;
          assert hs'[j - 1] == hs[j];
        }
      }
      forall h | h in hs'
        ensures h in hs
      {
        var k :| 0 <= k < |hs'| && hs'[k] == h;
        if k < i {
          assert hs[k] == h;
        } else {
          assert hs[k + 1] == h;
        }
      }
  }

  /** unregisterActionHandler's test: same type, same pattern, same callback. */
  function FindHandler(hs: seq<ActionHandler>, mask: HT.Mask, pattern: string, cb: Callback): (r: Option<nat>)
    ensures r.Some? ==> r.value < |hs| && hs[r.value].mask == mask && hs[r.value].pattern == pattern && hs[r.value].callback == cb
    ensures r.Some? ==> forall j :: 0 <= j < r.value ==> !(hs[j].mask == mask && hs[j].pattern == pattern && hs[j].callback == cb)
    ensures r.None? ==> forall j :: 0 <= j < |hs| ==> !(hs[j].mask == mask && hs[j].pattern == pattern && hs[j].callback == cb)
    decreases |hs|
  {
    if hs == [] then None
    else if hs[0].mask == mask && hs[0].pattern == pattern && hs[0].callback == cb then Some(0)
    else match FindHandler(hs[1..], mask, pattern, cb)
      case Some(k) => Some(k + 1)
      case None => None
  }

  /** unregisterActionHandler: refused for a type outside ALL; otherwise the first matching entry goes. */
  function UnregisterHandler(hs: seq<ActionHandler>, mask: HT.Mask, pattern: string, cb: Callback): (r: (seq<ActionHandler>, bool))
    ensures !ValidType(mask) ==> r == (hs, false)
    ensures r.1 ==> |r.0| == |hs| - 1
    ensures !r.1 ==> r.0 == hs
    ensures ValidType(mask) ==>
      (r.1 <==> exists j :: 0 <= j < |hs| && hs[j].mask == mask && hs[j].pattern == pattern && hs[j].callback == cb)
    ensures r.1 ==>
      exists i :: 0 <= i < |hs| && hs[i].mask == mask && hs[i].pattern == pattern && hs[i].callback == cb
        && (forall j :: 0 <= j < i ==> !(hs[j].mask == mask && hs[j].pattern == pattern && hs[j].callback == cb))
        && r.0 == hs[..i] + hs[i + 1..]
  {
    if !ValidType(mask) then (hs, false)
    else match FindHandler(hs, mask, pattern, cb)
      case Some(i) => (RemoveAt(hs, i), true)
      case None => (hs, false)
  }

  /** Registering and then unregistering the same handler restores the list. */
  lemma RegisterThenUnregister(hs: seq<ActionHandler>, next: nat, mask: HT.Mask, pattern: string, cb: Callback)
    requires ValidType(mask) && IdsBelow(hs, next)
    ensures var (hs', _, _) := RegisterAction(hs, next, mask, pattern, cb);
      UnregisterId(hs', next) == (hs, true)
  {
    var hs' := hs + [ActionHandler(next, mask, pattern, cb)];
    assert hs'[|hs|].id == next;
    var i := FindId(hs', ActionId, next).value;
    assert i == |hs|;
    assert RemoveAt(hs', i) == hs;
  }

  // ---------------------------------------------------------------- firing

  /** The pattern as a regex: kept when its first and last characters agree (an empty pattern included), else wrapped in slashes. */
  function Delimited(pattern: string): (re: string)
    ensures re == pattern || re == "/" + pattern + "/"
    ensures |re| > 0 ==> re[0] == re[|re| - 1]
  {
    if |pattern| == 0 || pattern[0] == pattern[|pattern| - 1] then pattern else "/" + pattern + "/"
  }

  /** Delimiting is idempotent: a delimited pattern is used as is. */
  lemma DelimitedIdempotent(pattern: string)
    ensures Delimited(Delimited(pattern)) == Delimited(pattern)
  {
  }

  /**
   * A handler fires for a message when its mask shares a bit with the
   * message's class and the regex matches the text; an empty regex never
   * matches (preg_match fails on it).
   */
  predicate Fires(h: ActionHandler, kind: HT.Mask, text: string, matches: (string, string) -> bool)
  {
    HT.Selects(h.mask, kind) && Delimited(h.pattern) != "" && matches(Delimited(h.pattern), text)
  }

  /** The ids of the handlers that fire, in list order. */
  function FiredIds(hs: seq<ActionHandler>, kind: HT.Mask, text: string, matches: (string, string) -> bool): (ids: seq<nat>)
    decreases |hs|
  {
    if hs == [] then []
    else
      var h := hs[|hs| - 1];
      FiredIds(hs[..|hs| - 1], kind, text, matches) + (if Fires(h, kind, text, matches) then [h.id] else [])
  }

  /** Exactly the firing handlers are reported. */
  lemma {:induction false} FiredIdsExact(hs: seq<ActionHandler>, kind: HT.Mask, text: string, matches: (string, string) -> bool)
    ensures forall id :: id in FiredIds(hs, kind, text, matches) <==>
      exists j :: 0 <= j < |hs| && hs[j].id == id && Fires(hs[j], kind, text, matches)
    decreases |hs|
  {
    if hs != [] {
      var init := hs[..|hs| - 1];
      FiredIdsExact(init, kind, text, matches);
      var f := FiredIds(init, kind, text, matches);
      forall id
        ensures id in FiredIds(hs, kind, text, matches) <==>
          exists j :: 0 <= j < |hs| && hs[j].id == id && Fires(hs[j], kind, text, matches)
      {
        if id in FiredIds(hs, kind, text, matches) {
          if id in f {
            var j :| 0 <= j < |init| && init[j].id == id && Fires(init[j], kind, text, matches);
            assert hs[j] == init[j];
          }
        }
        if exists j :: 0 <= j < |hs| && hs[j].id == id && Fires(hs[j], kind, text, matches) {
          var j :| 0 <= j < |hs| && hs[j].id == id && Fires(hs[j], kind, text, matches);
          if j < |hs| - 1 {
            assert init[j] == hs[j];
          }
        }
      }
    }
  }

  predicate Increasing(xs: seq<nat>)
  {
    forall a, b :: 0 <= a < b < |xs| ==> xs[a] < xs[b]
  }

  /** With increasing ids the fired ids come out increasing: list order, each handler at most once. */
  lemma {:induction false} FiredIdsSorted(hs: seq<ActionHandler>, kind: HT.Mask, text: string, matches: (string, string) -> bool)
    requires IdsIncreasing(hs)
    ensures Increasing(FiredIds(hs, kind, text, matches))
    decreases |hs|
  {
    if hs != [] {
      var init := hs[..|hs| - 1];
      var last := hs[|hs| - 1];
      FiredIdsSorted(init, kind, text, matches);
      FiredIdsExact(init, kind, text, matches);
      var f := FiredIds(init, kind, text, matches);
      var all := FiredIds(hs, kind, text, matches);
      assert all == f + (if Fires(last, kind, text, matches) then [last.id] else []);
      forall a, b | 0 <= a < b < |all|
        ensures all[a] < all[b]
      {
        assert all[a] == f[a];
        if b < |f| {
          assert all[b] == f[b];
        } else {
          assert f[a] in f;
          var j :| 0 <= j < |init| && init[j].id == f[a] && Fires(init[j], kind, text, matches);
          assert hs[j] == init[j];
          assert all[b] == last.id;
          assert hs[j].id < hs[|hs| - 1].id;
        }
      }
    }
  }

  /** A handler whose mask shares no bit with the message's class never fires. */
  lemma {:induction false} MaskFilters(hs: seq<ActionHandler>, kind: HT.Mask, text: string, matches: (string, string) -> bool)
    requires forall j :: 0 <= j < |hs| ==> !HT.Selects(hs[j].mask, kind)
    ensures FiredIds(hs, kind, text, matches) == []
    decreases |hs|
  {
    if hs != [] {
      var init := hs[..|hs| - 1];
      forall j | 0 <= j < |init|
        ensures !HT.Selects(init[j].mask, kind)
      {
        assert init[j] == hs[j];
      }
      MaskFilters(init, kind, text, matches);
      assert !Fires(hs[|hs| - 1], kind, text, matches);
    }
  }

  // ---------------------------------------------------------------- time handlers

  /** A time handler: interval in milliseconds, time of its last run in milliseconds. */
  datatype TimeHandler = TimeHandler(id: nat, interval: int, callback: Callback, last: int)

  /** A handler is due once its interval has passed since its last run. */
  predicate Due(h: TimeHandler, nowMs: int)
  {
    nowMs >= h.last + h.interval
  }

  /** `_mintimer` is unset when false, and a 0 reads as false too. */
  predicate Unset(minTimer: Option<int>)
  {
    minTimer.None? || minTimer == Some(0)
  }

  /** The cached shortest interval after registering one: taken when unset or shorter. */
  function LowerMin(minTimer: Option<int>, interval: int): (m: Option<int>)
    ensures m.Some?
    ensures Unset(minTimer) ==> m == Some(interval)
    ensures !Unset(minTimer) ==> m.value == if interval < minTimer.value then interval else minTimer.value
  {
    if Unset(minTimer) || interval < minTimer.value then Some(interval) else minTimer
  }

  /** A cached minimum is no larger than any interval registered since it was last unset. */
  lemma {:induction false} LowerMinIsMin(m: Option<int>, intervals: seq<int>)
    requires |intervals| > 0
    requires forall i :: 0 <= i < |intervals| ==> intervals[i] != 0
    ensures var r := FoldMin(m, intervals);
      r.Some? && (forall i :: 0 <= i < |intervals| ==> r.value <= intervals[i])
      && (r.value in intervals || (!Unset(m) && r == m))
    decreases |intervals|
  {
    var init := intervals[..|intervals| - 1];
    var x := intervals[|intervals| - 1];
    if init != [] {
      LowerMinIsMin(m, init);
      forall i | 0 <= i < |intervals|
        ensures FoldMin(m, intervals).value <= intervals[i]
      {
        if i < |init| {
          assert intervals[i] == init[i];
        }
      }
      var r := FoldMin(m, init);
      if r.value in init {
        assert r.value in intervals;
      }
    }
  }

  /** The cached minimum after registering a sequence of intervals. */
  function FoldMin(m: Option<int>, intervals: seq<int>): Option<int>
    decreases |intervals|
  {
    if intervals == [] then m else LowerMin(FoldMin(m, intervals[..|intervals| - 1]), intervals[|intervals| - 1])
  }

  /** The handlers after one pass of _callTimeHandlers: every due one restamped with the current time. */
  function Tick(hs: seq<TimeHandler>, nowMs: int): (hs': seq<TimeHandler>)
    ensures |hs'| == |hs|
    ensures forall i :: 0 <= i < |hs| ==> hs'[i] == if Due(hs[i], nowMs) then hs[i].(last := nowMs) else hs[i]
    decreases |hs|
  {
    if hs == [] then []
    else
      var h := hs[|hs| - 1];
      Tick(hs[..|hs| - 1], nowMs) + [if Due(h, nowMs) then h.(last := nowMs) else h]
  }

  /** The ids of the due handlers, in list order. */
  function DueIds(hs: seq<TimeHandler>, nowMs: int): seq<nat>
    decreases |hs|
  {
    if hs == [] then []
    else
      var h := hs[|hs| - 1];
      DueIds(hs[..|hs| - 1], nowMs) + (if Due(h, nowMs) then [h.id] else [])
  }

  /** A second pass at the same time fires only handlers with a non-positive interval. */
  lemma {:induction false} TickTwice(hs: seq<TimeHandler>, nowMs: int)
    requires forall i :: 0 <= i < |hs| ==> hs[i].interval > 0
    ensures DueIds(Tick(hs, nowMs), nowMs) == []
    decreases |hs|
  {
    if hs != [] {
      var init := hs[..|hs| - 1];
      TickTwice(init, nowMs);
      assert Tick(hs, nowMs)[..|hs| - 1] == Tick(init, nowMs);
    }
  }

  /** The handlers after the passes of _callTimeHandlers made once per millisecond from `startMs` up to, not including, `endMs`. */
  function TickUntil(hs: seq<TimeHandler>, startMs: int, endMs: int): seq<TimeHandler>
    decreases endMs - startMs
  {
    if endMs <= startMs then hs else Tick(TickUntil(hs, startMs, endMs - 1), endMs - 1)
  }

  /** The ids fired by those passes, pass by pass and in list order within a pass. */
  function DueIdsUntil(hs: seq<TimeHandler>, startMs: int, endMs: int): seq<nat>
    decreases endMs - startMs
  {
    if endMs <= startMs then [] else DueIdsUntil(hs, startMs, endMs - 1) + DueIds(TickUntil(hs, startMs, endMs - 1), endMs - 1)
  }

  /** One more pass, at `nowMs`, after the passes from `startMs` up to `nowMs`, is the passes up to `nowMs + 1`, and fires the ids of that pass after the earlier ones. */
  lemma TickUntilStep(hs: seq<TimeHandler>, startMs: int, nowMs: int, fired: seq<nat>, log: seq<nat>)
    requires startMs <= nowMs && log == fired + DueIdsUntil(hs, startMs, nowMs)
    ensures Tick(TickUntil(hs, startMs, nowMs), nowMs) == TickUntil(hs, startMs, nowMs + 1)
    ensures log + DueIds(TickUntil(hs, startMs, nowMs), nowMs) == fired + DueIdsUntil(hs, startMs, nowMs + 1)
  {
    var d := DueIds(TickUntil(hs, startMs, nowMs), nowMs);
    assert DueIdsUntil(hs, startMs, nowMs + 1) == DueIdsUntil(hs, startMs, nowMs) + d;
    assert (fired + DueIdsUntil(hs, startMs, nowMs)) + d == fired + (DueIdsUntil(hs, startMs, nowMs) + d);
  }

  /**
   * Repeated passes keep the handler list: the same handlers in the same
   * order, each with its id, interval and callback, and a last-fired time
   * that is either the old one or one of the pass times.
   */
  lemma {:induction false} TickUntilKeeps(hs: seq<TimeHandler>, startMs: int, endMs: int)
    ensures |TickUntil(hs, startMs, endMs)| == |hs|
    ensures forall i :: 0 <= i < |hs| ==> TickUntil(hs, startMs, endMs)[i] == hs[i].(last := TickUntil(hs, startMs, endMs)[i].last)
    ensures forall i :: 0 <= i < |hs| ==>
      TickUntil(hs, startMs, endMs)[i].last == hs[i].last || startMs <= TickUntil(hs, startMs, endMs)[i].last < endMs
    decreases endMs - startMs
  {
    if startMs < endMs {
      TickUntilKeeps(hs, startMs, endMs - 1);
      var prev, cur := TickUntil(hs, startMs, endMs - 1), TickUntil(hs, startMs, endMs);
      assert cur == Tick(prev, endMs - 1);
      forall i | 0 <= i < |hs|
        ensures cur[i] == hs[i].(last := cur[i].last)
        ensures cur[i].last == hs[i].last || startMs <= cur[i].last < endMs
      {
        assert cur[i] == if Due(prev[i], endMs - 1) then prev[i].(last := endMs - 1) else prev[i];
      }
    }
  }

  /** Registering a time handler: appended with the current counter as id, stamped now, and the cached minimum lowered. */
  function RegisterTime(hs: seq<TimeHandler>, next: nat, minTimer: Option<int>, interval: int, cb: Callback, nowMs: int)
    : (r: (seq<TimeHandler>, nat, Option<int>))
    ensures r.0 == hs + [TimeHandler(next, interval, cb, nowMs)] && r.1 == next + 1
    ensures r.2 == LowerMin(minTimer, interval)
  {
    (hs + [TimeHandler(next, interval, cb, nowMs)], next + 1, LowerMin(minTimer, interval))
  }

  /**
   * unregisterTimeId as written: the entry with that id goes and the rest
   * keep their order. The minimum is rebuilt by reading `->interval` from
   * array entries, which yields null for each, so it ends up unset whatever
   * intervals remain.
   */
  function UnregisterTime(hs: seq<TimeHandler>, minTimer: Option<int>, id: nat): (r: (seq<TimeHandler>, Option<int>, bool))
    ensures r.2 <==> exists j :: 0 <= j < |hs| && hs[j].id == id
    ensures r.2 ==> |r.0| == |hs| - 1 && r.1 == None
    ensures !r.2 ==> r.0 == hs && r.1 == minTimer
    ensures r.2 ==>
      exists i :: 0 <= i < |hs| && hs[i].id == id && (forall j :: 0 <= j < i ==> hs[j].id != id) && r.0 == hs[..i] + hs[i + 1..]
  {
    match FindId(hs, TimeId, id)
    case Some(i) => (RemoveAt(hs, i), None, true)
    case None => (hs, minTimer, false)
  }

  /** After removing a timer the select timeout no longer sees any timer, even when shorter ones remain. */
  lemma UnregisterForgetsMinimum(hs: seq<TimeHandler>, minTimer: Option<int>, id: nat)
    requires exists j :: 0 <= j < |hs| && hs[j].id == id
    ensures Unset(UnregisterTime(hs, minTimer, id).1)
  {
  }
}
