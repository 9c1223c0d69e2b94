/**
 * The LiveChat session: a state machine over the fields `liveId`, `key`,
 * `continuation`, `clientName`, `clientVersion`, `prevTime` and `observer`,
 * whose whole outward behaviour is the list of events it emits.
 *
 * Fetched pages and poll responses are parameters of the methods that await
 * them; the wall clock read at construction is a constructor parameter; the
 * event emitter is the field `events`, to which every `emit` appends.
 */
module LiveChatSession {
  import opened Outcomes
  import opened TextScan
  import opened ChatBatch

  const OfflineMarker := "LIVE_STREAM_OFFLINE"
  const OfflineMessage := "Live stream offline"
  const NotFoundMessage := "Live stream not found"
  const FinishedReason := "Live stream is finished"
  const MissingIdMessage := "Required channelId or liveId."
  const DefaultInterval := 1000

  const VideoIdPrefix := "\"liveStreamabilityRenderer\":{\"videoId\":\""
  const VideoIdEnd := "\","
  const Quote := "\""
  const KeyPrefix := "\"INNERTUBE_API_KEY\":\""
  const ContinuationPrefix := "\"continuation\":\""
  const ClientNamePrefix := "\"clientName\":\""
  const ClientVersionPrefix := "\"clientVersion\":\""
  /** The session tokens, in the order `start` scrapes them. */
  const TokenMarkers: seq<string> := [KeyPrefix, ContinuationPrefix, ClientNamePrefix, ClientVersionPrefix]

  /** The four events of the public stream: `start`, `comment`, `end` and `error`. */
  datatype Event = Started(liveId: string) | Comment(item: CommentItem) | Ended(reason: Option<string>) | Failed(message: string)

  /** The constructor's options object; `Some` means the key is present. */
  datatype ChatOptions = ChatOptions(channelId: Option<string>, liveId: Option<string>)

  /** Which identifier the session was built from. */
  datatype Target = Channel(channelId: string) | Live(liveId: string)

  /** A poll response: the `messageRenderer` end-of-stream sentinel, or the `actions` array. */
  datatype ChatResponse = Finished | Batch(actions: seq<Action>)

  /** What a tick posts: the `key` query parameter and the body's client name, version and cursor. */
  datatype PollRequest = PollRequest(key: Option<string>, clientName: Option<string>, clientVersion: Option<string>, continuation: Option<string>)

  /**
   * How `start`'s promise settles: resolved with a boolean, or rejected with
   * a TypeError because the capture pattern with the given prefix found
   * nothing (`match(...)![1]` on null).
   */
  datatype StartOutcome = Resolved(ok: bool) | Rejected(marker: string)

  /** What the resolver part of `start` decides. */
  datatype Resolution =
    | Offline                            // a fetched page carries LIVE_STREAM_OFFLINE
    | VideoIdMissing                     // the channel page has no videoId match: start throws
    | NotFound(liveIdAfter: Option<string>)  // no usable broadcast id; the `liveId` field afterwards
    | Found(videoId: string, page: string)   // the broadcast id and the page the tokens come from

  /** JavaScript truthiness of an optional string: present and not empty. */
  predicate Truthy(s: Option<string>) {
    s.Some? && s.value != ""
  }

  /**
   * The resolver: the watch page is fetched (and checked) when `liveId` is
   * truthy, then the channel page when `channelId` is truthy, whose videoId
   * replaces `liveId`; the last fetched page is the one the tokens come from.
   */
  function Resolve(liveId: Option<string>, channelId: Option<string>, watchPage: string, channelPage: string): (r: Resolution)
    ensures r.Offline? <==>
      (Truthy(liveId) && Contains(watchPage, OfflineMarker)) || (Truthy(channelId) && Contains(channelPage, OfflineMarker))
    ensures r.VideoIdMissing? <==>
      !r.Offline? && Truthy(channelId) && Match(channelPage, VideoIdPrefix, VideoIdEnd).None?
    ensures r.Found? ==> r.videoId != "" && !Contains(r.page, OfflineMarker)
    ensures r.Found? && Truthy(channelId) ==>
      r.page == channelPage && Match(channelPage, VideoIdPrefix, VideoIdEnd) == Some(r.videoId)
    ensures r.Found? && !Truthy(channelId) ==> r.page == watchPage && liveId == Some(r.videoId)
    ensures r.NotFound? && Truthy(channelId) ==> r.liveIdAfter == Some("") && Match(channelPage, VideoIdPrefix, VideoIdEnd) == Some("")
    ensures r.NotFound? && !Truthy(channelId) ==> r.liveIdAfter == liveId && !Truthy(liveId)
  {
    if Truthy(liveId) && Contains(watchPage, OfflineMarker) then Offline
    else if Truthy(channelId) then
      if Contains(channelPage, OfflineMarker) then Offline
      else match Match(channelPage, VideoIdPrefix, VideoIdEnd)
        case None => VideoIdMissing
        case Some(id) => if id == "" then NotFound(Some(id)) else Found(id, channelPage)
    else if Truthy(liveId) then Found(liveId.value, watchPage)
    else NotFound(liveId)
  }

  /**
   * On the channel path, a live page that carries
   * `"liveStreamabilityRenderer":{"videoId":"v",` (first occurrence, `v`
   * without white space or quotes) resolves to broadcast `v`, or to
   * "not found" when `v` is empty.
   */
  lemma ChannelResolvesMarkedId(liveId: Option<string>, channelId: Option<string>, watchPage: string, a: string, v: string, b: string)
    requires Truthy(channelId)
    requires !(Truthy(liveId) && Contains(watchPage, OfflineMarker))
    requires !Contains(a + VideoIdPrefix + v + VideoIdEnd + b, OfflineMarker)
    requires forall k :: 0 <= k < |v| ==> !IsSpace(v[k]) && v[k] != '"'
    requires forall j :: 0 <= j < |a| ==> !OccursAt(a + VideoIdPrefix + v + VideoIdEnd + b, VideoIdPrefix, j)
    ensures var page := a + VideoIdPrefix + v + VideoIdEnd + b;
      Resolve(liveId, channelId, watchPage, page) == if v == "" then NotFound(Some("")) else Found(v, page)
  {
    MatchFindsMarkedValue(a, VideoIdPrefix, v, VideoIdEnd, b);
  }

  /**
   * The session extractor: the values captured for `markers`, in order,
   * up to (not including) the first marker that does not match.
   */
  function ScrapeTokens(page: string, markers: seq<string>): (r: seq<string>)
    ensures |r| <= |markers|
    ensures forall k :: 0 <= k < |r| ==> Match(page, markers[k], Quote) == Some(r[k])
    ensures |r| < |markers| ==> Match(page, markers[|r|], Quote).None?
  {
    if markers == [] then []
    else match Match(page, markers[0], Quote)
      case None => []
      case Some(v) =>
        var rest := ScrapeTokens(page, markers[1..]);
        assert forall k :: 0 <= k < |rest| ==> markers[k + 1] == markers[1..][k] && ([v] + rest)[k + 1] == rest[k];
        [v] + rest
  }

  /** The `comment` events for `items`, one each, in order. */
  function CommentEvents(items: seq<CommentItem>): seq<Event> {
    seq(|items|, k requires 0 <= k < |items| => Comment(items[k]))
  }

  class LiveChat {
    const channelId: Option<string>
    var liveId: Option<string>
    var key: Option<string>
    var continuation: Option<string>
    var clientName: Option<string>
    var clientVersion: Option<string>
    /** The watermark: only comments strictly after it are emitted. */
    var prevTime: int
    /** A timer handle has been stored (`this.observer` is truthy); never cleared. */
    var observer: bool
    /** The interval installed by `start` is still scheduled (cleared by `stop`). */
    var ticking: bool
    const interval: int
    /** Everything emitted so far, oldest first. */
    var events: seq<Event>

    /** A stored timer implies the four tokens were scraped; a scheduled timer implies a stored one. */
    ghost predicate Valid()
      reads this
    {
      && (ticking ==> observer)
      && (observer ==> key.Some? && continuation.Some? && clientName.Some? && clientVersion.Some?)
    }

    /** `new LiveChat(options, interval)` once the options have named one identifier; `now` is `Date.now()`. */
    constructor (target: Target, now: int, interval: int)
      ensures Valid()
      ensures channelId == (if target.Channel? then Some(target.channelId) else None)
      ensures liveId == (if target.Live? then Some(target.liveId) else None)
      ensures key == None && continuation == None && clientName == None && clientVersion == None
      ensures prevTime == now && this.interval == interval
      ensures !observer && !ticking && events == []
    {
      channelId := if target.Channel? then Some(target.channelId) else None;
      liveId := if target.Live? then Some(target.liveId) else None;
      key, continuation, clientName, clientVersion := None, None, None, None;
      prevTime := now;
      this.interval := interval;
      observer, ticking := false, false;
      events := [];
    }

    /**
     * `start()`: resolve the broadcast, scrape the session tokens, install
     * the timer and emit `start`. `watchPage` is the body fetched for
     * `/watch?v=<liveId>` and `channelPage` the body fetched for
     * `/channel/<channelId>/live`; each is used only if the source fetches it.
     */
    method Start(watchPage: string, channelPage: string) returns (out: StartOutcome)
      requires Valid()
      modifies this`liveId, this`key, this`continuation, this`clientName, this`clientVersion
      modifies this`observer, this`ticking, this`events
      ensures Valid()
      ensures var r := Resolve(old(liveId), channelId, watchPage, channelPage);
        r.Offline? ==>
          && out == Resolved(false) && events == old(events) + [Failed(OfflineMessage)]
          && liveId == old(liveId) && key == old(key) && continuation == old(continuation)
          && clientName == old(clientName) && clientVersion == old(clientVersion)
          && observer == old(observer) && ticking == old(ticking)
      ensures var r := Resolve(old(liveId), channelId, watchPage, channelPage);
        r.VideoIdMissing? ==>
          && out == Rejected(VideoIdPrefix) && events == old(events)
          && liveId == old(liveId) && key == old(key) && continuation == old(continuation)
          && clientName == old(clientName) && clientVersion == old(clientVersion)
          && observer == old(observer) && ticking == old(ticking)
      ensures var r := Resolve(old(liveId), channelId, watchPage, channelPage);
        r.NotFound? ==>
          && out == Resolved(false) && events == old(events) + [Failed(NotFoundMessage)]
          && liveId == r.liveIdAfter && key == old(key) && continuation == old(continuation)
          && clientName == old(clientName) && clientVersion == old(clientVersion)
          && observer == old(observer) && ticking == old(ticking)
      ensures var r := Resolve(old(liveId), channelId, watchPage, channelPage);
        r.Found? ==>
          var t := ScrapeTokens(r.page, TokenMarkers);
          && liveId == Some(r.videoId)
          && key == (if |t| > 0 then Some(t[0]) else old(key))
          && continuation == (if |t| > 1 then Some(t[1]) else old(continuation))
          && clientName == (if |t| > 2 then Some(t[2]) else old(clientName))
          && clientVersion == (if |t| > 3 then Some(t[3]) else old(clientVersion))
          && out == (if |t| == |TokenMarkers| then Resolved(true) else Rejected(TokenMarkers[|t|]))
          && events == old(events) + (if |t| == |TokenMarkers| then [Started(r.videoId)] else [])
          && observer == (|t| == |TokenMarkers| || old(observer))
          && ticking == (|t| == |TokenMarkers| || old(ticking))
    {
      ghost var r := Resolve(liveId, channelId, watchPage, channelPage);
      var page: Option<string> := None;
      if Truthy(liveId) {
        page := Some(watchPage);
        if Contains(watchPage, OfflineMarker) {
          assert r == Offline;
          events := events + [Failed(OfflineMessage)];
          return Resolved(false);
        }
      }
      if Truthy(channelId) {
        page := Some(channelPage);
        if Contains(channelPage, OfflineMarker) {
          assert r == Offline;
          events := events + [Failed(OfflineMessage)];
          return Resolved(false);
        }
        var id := Match(channelPage, VideoIdPrefix, VideoIdEnd);
        if id.None? {
          assert r == VideoIdMissing;
          return Rejected(VideoIdPrefix);
        }
        liveId := id;
      }
      if !Truthy(liveId) || page.None? {
        assert r == NotFound(liveId);
        events := events + [Failed(NotFoundMessage)];
        return Resolved(false);
      }
      assert r == Found(liveId.value, page.value);

      out := StartSession(page.value);
    }

    /**
     * The second half of `start()`, once a broadcast id is established
     * (src/live-chat.ts:78-90): scrape the four tokens from `page` in order (a missing
     * one throws, and the ones before it stay assigned), then install the
     * timer and emit `start`.
     */
    method StartSession(page: string) returns (out: StartOutcome)
      requires Valid() && Truthy(liveId)
      modifies this`key, this`continuation, this`clientName, this`clientVersion
      modifies this`observer, this`ticking, this`events
      ensures Valid()
      ensures var t := ScrapeTokens(page, TokenMarkers);
        && key == (if |t| > 0 then Some(t[0]) else old(key))
        && continuation == (if |t| > 1 then Some(t[1]) else old(continuation))
        && clientName == (if |t| > 2 then Some(t[2]) else old(clientName))
        && clientVersion == (if |t| > 3 then Some(t[3]) else old(clientVersion))
        && out == (if |t| == |TokenMarkers| then Resolved(true) else Rejected(TokenMarkers[|t|]))
        && events == old(events) + (if |t| == |TokenMarkers| then [Started(liveId.value)] else [])
        && observer == (|t| == |TokenMarkers| || old(observer))
        && ticking == (|t| == |TokenMarkers| || old(ticking))
    {
      ghost var t := ScrapeTokens(page, TokenMarkers);
      assert TokenMarkers[0] == KeyPrefix && TokenMarkers[1] == ContinuationPrefix;
      assert TokenMarkers[2] == ClientNamePrefix && TokenMarkers[3] == ClientVersionPrefix;
      var found := Match(page, KeyPrefix, Quote);
      if found.None? {
        assert |t| == 0;
        return Rejected(KeyPrefix);
      }
      assert |t| > 0 && t[0] == found.value;
      key := found;
      found := Match(page, ContinuationPrefix, Quote);
      if found.None? {
        assert |t| == 1;
        return Rejected(ContinuationPrefix);
      }
      assert |t| > 1 && t[1] == found.value;
      continuation := found;
      found := Match(page, ClientNamePrefix, Quote);
      if found.None? {
        assert |t| == 2;
        return Rejected(ClientNamePrefix);
      }
      assert |t| > 2 && t[2] == found.value;
      clientName := found;
      found := Match(page, ClientVersionPrefix, Quote);
      if found.None? {
        assert |t| == 3;
        return Rejected(ClientVersionPrefix);
      }
      assert |t| > 3 && t[3] == found.value;
      clientVersion := found;

      observer, ticking := true, true;
      events := events + [Started(liveId.value)];
      return Resolved(true);
    }

    /** `stop(reason)`: emits `end` only when a timer handle was ever stored. */
    method Stop(reason: Option<string>)
      requires Valid()
      modifies this`ticking, this`events
      ensures Valid()
      ensures events == old(events) + (if observer then [Ended(reason)] else [])
      ensures ticking == (old(ticking) && !observer)
    {
      if observer {
        ticking := false;
        events := events + [Ended(reason)];
      }
    }

    /**
     * One tick of the timer: post the stored tokens, then either stop on the
     * end-of-stream sentinel, or emit the batch's new comments in order and
     * move the watermark to the last one.
     */
    method FetchChat(response: ChatResponse) returns (sent: PollRequest)
      requires Valid()
      modifies this`events, this`prevTime, this`ticking
      ensures Valid()
      ensures sent == PollRequest(key, clientName, clientVersion, continuation)
      ensures response.Finished? ==>
        && events == old(events) + (if observer then [Ended(Some(FinishedReason))] else [])
        && prevTime == old(prevTime) && !ticking
      ensures response.Batch? ==>
        var items := NewItems(response.actions, old(prevTime));
        && events == old(events) + CommentEvents(items)
        && prevTime == NextWatermark(items, old(prevTime))
        && ticking == old(ticking)
    {
      sent := PollRequest(key, clientName, clientVersion, continuation);
      if response.Finished? {
        Stop(Some(FinishedReason));
        return;
      }
      var items := NewItems(response.actions, prevTime);
      var i := 0;
      while i < |items|
        invariant 0 <= i <= |items|
        invariant events == old(events) + CommentEvents(items[..i])
        modifies this`events
      {
        assert CommentEvents(items[..i + 1]) == CommentEvents(items[..i]) + [Comment(items[i])];
        events := events + [Comment(items[i])];
        i := i + 1;
      }
      assert items[..|items|] == items;
      if |items| > 0 {
        prevTime := items[|items| - 1].timestamp;
      }
    }
  }

  /**
   * `new LiveChat(options, interval)`: throws a TypeError when the options
   * name neither identifier; a channel id wins over a live id; an omitted
   * interval is 1000 ms.
   */
  method NewLiveChat(options: ChatOptions, now: int, interval: Option<int>) returns (r: Result<LiveChat, string>)
    ensures r.Err? <==> options.channelId.None? && options.liveId.None?
    ensures r.Err? ==> r.error == MissingIdMessage
    ensures r.Ok? ==> fresh(r.value) && r.value.Valid()
    ensures r.Ok? ==> r.value.channelId == options.channelId
    ensures r.Ok? ==> r.value.liveId == (if options.channelId.Some? then None else options.liveId)
    ensures r.Ok? ==> r.value.prevTime == now
    ensures r.Ok? ==> r.value.interval == (if interval.Some? then interval.value else DefaultInterval)
    ensures r.Ok? ==> r.value.events == [] && !r.value.observer
    ensures r.Ok? ==> r.value.key == None && r.value.continuation == None
    ensures r.Ok? ==> r.value.clientName == None && r.value.clientVersion == None
  {
    var period := if interval.Some? then interval.value else DefaultInterval;
    if options.channelId.Some? {
      var chat := new LiveChat(Channel(options.channelId.value), now, period);
      r := Ok(chat);
    } else if options.liveId.Some? {
      var chat := new LiveChat(Live(options.liveId.value), now, period);
      r := Ok(chat);
    } else {
      r := Err(MissingIdMessage);
    }
  }

  /** The guard on `observer` is never reset: a second `stop` emits a second `end`. */
  method StopTwiceEmitsTwice(chat: LiveChat, first: Option<string>, second: Option<string>)
    requires chat.Valid() && chat.observer
    modifies chat`ticking, chat`events
    ensures chat.events == old(chat.events) + [Ended(first), Ended(second)]
    ensures !chat.ticking
  {
    chat.Stop(first);
    chat.Stop(second);
  }
}
