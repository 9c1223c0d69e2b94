/**
 * The per-tick batch pipeline of LiveChat.fetchChat:
 * `actions.slice(0, -1).filter(isNew).map(parseData)` and the watermark
 * (`prevTime`) that the tick moves to the last emitted item.
 *
 * The parser collaborators are abstracted into the action itself:
 * `rendererTime` is `usecToTime(actionToRenderer(v).timestampUsec)`, or
 * `None` when `actionToRenderer(v)` is null or undefined, and `parsed` is
 * `parseData(v)`. The two timestamps are kept apart, as in the source; the
 * lemmas that need them to agree say so with `AllConsistent`.
 */
module ChatBatch {
  import opened Outcomes

  /** A comment as `parseData` produces it; every rendered field other than the timestamp is `body`. */
  datatype CommentItem = CommentItem(timestamp: int, body: string)

  /** One wire action of a poll response, seen through the parser collaborators. */
  datatype Action = Action(rendererTime: Option<int>, parsed: CommentItem)

  /** The filter callback: a renderer exists and its time is strictly after the watermark. */
  predicate IsNew(a: Action, watermark: int) {
    a.rendererTime.Some? && a.rendererTime.value > watermark
  }

  /** `parseData` reports the same time that the filter compared. */
  predicate Consistent(a: Action) {
    a.rendererTime.Some? ==> a.parsed.timestamp == a.rendererTime.value
  }

  predicate AllConsistent(batch: seq<Action>) {
    forall k :: 0 <= k < |batch| ==> Consistent(batch[k])
  }

  /** Renderer times never go backwards along the batch. */
  predicate Chronological(batch: seq<Action>) {
    forall i, j :: 0 <= i < j < |batch| && batch[i].rendererTime.Some? && batch[j].rendererTime.Some? ==>
      batch[i].rendererTime.value <= batch[j].rendererTime.value
  }

  /** `slice(0, -1)`: every action but the trailing housekeeping one; empty stays empty. */
  function WithoutTrailer(batch: seq<Action>): (r: seq<Action>)
    ensures batch == [] ==> r == []
    ensures batch != [] ==> batch == r + [batch[|batch| - 1]]
  {
    if batch == [] then [] else batch[..|batch| - 1]
  }

  /** `filter(isNew)`: the actions after the watermark, in batch order. */
  function Kept(actions: seq<Action>, watermark: int): (r: seq<Action>)
    ensures |r| <= |actions|
    ensures forall x :: x in r ==> x in actions && IsNew(x, watermark)
    decreases |actions|
  {
    if actions == [] then []
    else (if IsNew(actions[0], watermark) then [actions[0]] else []) + Kept(actions[1..], watermark)
  }

  /** The indices `i..` of `actions` that the filter selects, ascending: a reference definition of the filter. */
  ghost function PositionsFrom(actions: seq<Action>, watermark: int, i: int): (r: seq<int>)
    requires 0 <= i <= |actions|
    ensures forall k :: 0 <= k < |r| ==> i <= r[k] < |actions|
    ensures forall k, l :: 0 <= k < l < |r| ==> r[k] < r[l]
    decreases |actions| - i
  {
    if i == |actions| then []
    else (if IsNew(actions[i], watermark) then [i] else []) + PositionsFrom(actions, watermark, i + 1)
  }

  ghost function Positions(actions: seq<Action>, watermark: int): seq<int> {
    PositionsFrom(actions, watermark, 0)
  }

  /** `map(parseData)`. */
  function Parsed(actions: seq<Action>): seq<CommentItem> {
    seq(|actions|, k requires 0 <= k < |actions| => actions[k].parsed)
  }

  /** The items one tick emits for `batch` when the watermark is `watermark`. */
  function NewItems(batch: seq<Action>, watermark: int): seq<CommentItem> {
    Parsed(Kept(WithoutTrailer(batch), watermark))
  }

  /** `if (items.length > 0) prevTime = items[items.length - 1].timestamp`. */
  function NextWatermark(items: seq<CommentItem>, watermark: int): int {
    if |items| > 0 then items[|items| - 1].timestamp else watermark
  }

  /** The filter's result on `actions[i..]` is `actions` read at the indices `PositionsFrom(i)`. */
  lemma {:induction false} KeptAtPositions(actions: seq<Action>, watermark: int, i: int)
    requires 0 <= i <= |actions|
    ensures var p := PositionsFrom(actions, watermark, i);
      && |p| == |Kept(actions[i..], watermark)|
      && forall k :: 0 <= k < |p| ==> Kept(actions[i..], watermark)[k] == actions[p[k]]
    decreases |actions| - i
  {
    if i < |actions| {
      KeptAtPositions(actions, watermark, i + 1);
      var rest := PositionsFrom(actions, watermark, i + 1);
      var head := if IsNew(actions[i], watermark) then [i] else [];
      var p := PositionsFrom(actions, watermark, i);
      assert p == head + rest;
      var tail := Kept(actions[i + 1..], watermark);
      assert actions[i..][1..] == actions[i + 1..];
      var kept := Kept(actions[i..], watermark);
      assert kept == (if IsNew(actions[i], watermark) then [actions[i]] else []) + tail;
      forall k | 0 <= k < |p|
        ensures kept[k] == actions[p[k]]
      {
        if k >= |head| {
          assert p[k] == rest[k - |head|];
          assert kept[k] == tail[k - |head|];
        }
      }
    }
  }

  /** `PositionsFrom(i)` holds the index of every new action from `i` on and of nothing else. */
  lemma {:induction false} PositionsComplete(actions: seq<Action>, watermark: int, i: int)
    requires 0 <= i <= |actions|
    ensures var p := PositionsFrom(actions, watermark, i);
      forall j :: i <= j < |actions| ==> (IsNew(actions[j], watermark) <==> j in p)
    decreases |actions| - i
  {
    if i < |actions| {
      PositionsComplete(actions, watermark, i + 1);
      var rest := PositionsFrom(actions, watermark, i + 1);
      var head := if IsNew(actions[i], watermark) then [i] else [];
      assert PositionsFrom(actions, watermark, i) == head + rest;
      assert i !in rest;
    }
  }

  /**
   * The filter keeps exactly the new actions, each once, in their original
   * order: its result is `actions` read at the ascending index list
   * `Positions`, which holds every index of a new action and nothing else.
   */
  lemma KeptInOrder(actions: seq<Action>, watermark: int)
    ensures var p := Positions(actions, watermark);
      && |p| == |Kept(actions, watermark)|
      && (forall k :: 0 <= k < |p| ==> 0 <= p[k] < |actions| && Kept(actions, watermark)[k] == actions[p[k]])
      && (forall k, l :: 0 <= k < l < |p| ==> p[k] < p[l])
      && (forall i :: 0 <= i < |actions| ==> (IsNew(actions[i], watermark) <==> i in p))
  {
    KeptAtPositions(actions, watermark, 0);
    PositionsComplete(actions, watermark, 0);
    assert actions[0..] == actions;
  }

  /**
   * The items of a tick are `parseData` of the new actions other than the
   * trailing one, in batch order: the trailing action never yields a comment.
   */
  lemma NewItemsSelectsInOrder(batch: seq<Action>, watermark: int)
    ensures var p := Positions(WithoutTrailer(batch), watermark);
      var items := NewItems(batch, watermark);
      && |p| == |items|
      && (forall k :: 0 <= k < |p| ==> 0 <= p[k] < |batch| - 1 && items[k] == batch[p[k]].parsed)
      && (forall k, l :: 0 <= k < l < |p| ==> p[k] < p[l])
      && (forall i :: 0 <= i < |batch| - 1 ==> (IsNew(batch[i], watermark) <==> i in p))
  {
    var body := WithoutTrailer(batch);
    KeptInOrder(body, watermark);
    assert forall i :: 0 <= i < |body| ==> body[i] == batch[i];
  }

  /** Whatever the trailing action holds, the tick emits the same items. */
  lemma TrailerIgnored(body: seq<Action>, trailer: Action, watermark: int)
    ensures NewItems(body + [trailer], watermark) == Parsed(Kept(body, watermark))
  {
  }

  /** With a consistent parser every emitted item is strictly newer than the watermark. */
  lemma EmittedAreNewer(batch: seq<Action>, watermark: int)
    requires AllConsistent(batch)
    ensures forall it :: it in NewItems(batch, watermark) ==> it.timestamp > watermark
  {
    var kept := Kept(WithoutTrailer(batch), watermark);
    forall it | it in NewItems(batch, watermark)
      ensures it.timestamp > watermark
    {
      var k :| 0 <= k < |kept| && Parsed(kept)[k] == it;
      assert kept[k] in kept;
      var j :| 0 <= j < |batch| && batch[j] == kept[k];
      assert Consistent(batch[j]);
    }
  }

  /**
   * The watermark moves only when the tick emits something, and then, with a
   * consistent parser, strictly forward.
   */
  lemma WatermarkAdvances(batch: seq<Action>, watermark: int)
    requires AllConsistent(batch)
    ensures var items := NewItems(batch, watermark);
      && (|items| == 0 <==> NextWatermark(items, watermark) == watermark)
      && (|items| > 0 ==> NextWatermark(items, watermark) > watermark)
  {
    var items := NewItems(batch, watermark);
    EmittedAreNewer(batch, watermark);
    if |items| > 0 {
      assert items[|items| - 1] in items;
    }
  }

  /**
   * Polling the same chronological batch again after a tick emits nothing:
   * the watermark left by the tick covers every new action in it.
   */
  lemma RepollIsSilent(batch: seq<Action>, watermark: int)
    requires AllConsistent(batch) && Chronological(batch)
    ensures NewItems(batch, NextWatermark(NewItems(batch, watermark), watermark)) == []
  {
    var items := NewItems(batch, watermark);
    var w' := NextWatermark(items, watermark);
    var body := WithoutTrailer(batch);
    var p := Positions(body, watermark);
    NewItemsSelectsInOrder(batch, watermark);
    if |items| > 0 {
      var last := p[|p| - 1];
      assert w' == batch[last].parsed.timestamp == batch[last].rendererTime.value;
      assert w' > watermark by { EmittedAreNewer(batch, watermark); assert items[|items| - 1] in items; }
      forall i | 0 <= i < |body|
        ensures !IsNew(body[i], w')
      {
        assert body[i] == batch[i];
        if IsNew(batch[i], watermark) {
          var k :| 0 <= k < |p| && p[k] == i;
          assert k == |p| - 1 || p[k] < last;
        }
      }
      NothingNewKeepsNothing(body, w');
    }
  }

  /** A batch with no action after the watermark yields nothing. */
  lemma {:induction false} NothingNewKeepsNothing(actions: seq<Action>, watermark: int)
    requires forall i :: 0 <= i < |actions| ==> !IsNew(actions[i], watermark)
    ensures Kept(actions, watermark) == []
    decreases |actions|
  {
    if actions != [] {
      NothingNewKeepsNothing(actions[1..], watermark);
    }
  }

  /**
   * Because the watermark is the LAST emitted item's time and not the
   * largest, a batch whose times go backwards is partly emitted again when it
   * is polled again: here the comment at time 10 comes out twice.
   */
  lemma UnorderedRepollReemits()
    ensures var late := Action(Some(10), CommentItem(10, "late"));
      var early := Action(Some(5), CommentItem(5, "early"));
      var batch := [late, early, Action(None, CommentItem(0, ""))];
      && NewItems(batch, 0) == [late.parsed, early.parsed]
      && NextWatermark(NewItems(batch, 0), 0) == 5
      && NewItems(batch, 5) == [late.parsed]
  {
  }

  /**
   * Two consecutive ticks: after a tick that emitted up to time `seen`, an
   * action at or before `seen` is skipped and a later one is emitted.
   */
  lemma SeenCommentSkipped(earlier: Action, later: Action, trailer: Action, seen: int)
    requires earlier.rendererTime == Some(earlier.parsed.timestamp) && earlier.parsed.timestamp <= seen
    requires later.rendererTime == Some(later.parsed.timestamp) && later.parsed.timestamp > seen
    ensures NewItems([earlier, later, trailer], seen) == [later.parsed]
    ensures NextWatermark(NewItems([earlier, later, trailer], seen), seen) == later.parsed.timestamp
  {
    assert WithoutTrailer([earlier, later, trailer]) == [earlier, later];
    assert [earlier, later][1..] == [later];
    assert Kept([later], seen) == [later];
  }
}
