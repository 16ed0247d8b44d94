/**
 * The content script's main-frame context: a key-value store for the popup,
 * and the sync loop that polls a URL every 3000 ms, hands changed programs to
 * the page's editor and optionally starts playback.
 *
 * Host effects are explicit: a pending `setTimeout` is an entry of `timers`,
 * a timer firing is a call of `Tick` with the outcome of its `fetch`, the
 * `ExternalEditorToIDE` event and the button clicks are appended to `effects`,
 * SHA-256 of the UTF-8 text is the function `digest` fixed at construction, and
 * whether `new Request(url)` accepts a URL is the predicate `isRequestUrl`,
 * fixed likewise.
 */
module MainFrame {
  import opened Wrappers
  import opened Json
  import opened Protocol
  import opened HexEncoding

  /** Delay of every `setTimeout` in `scheduleSync`. */
  const SyncIntervalMs: nat := 3000

  /** How the promise chain `fetch(request).then(response => ...)` settles. */
  datatype FetchOutcome =
    | Ok(text: string)   // `response.ok`, body read with `response.text()`
    | NotOk              // a response whose status is not ok
    | Rejected           // `fetch` or `text()` rejected

  /** The two playback controls of the page. */
  datatype Control = Play | Replay

  /** What `document.querySelector(".replay")` finds when playback starts. */
  datatype ReplayState =
    | ReplayEnabled
    | ReplayDisabled
    | ReplayAbsent     // no such element: reading `.disabled` of `null` throws

  /** What the message listener does with `sendResponse`. */
  datatype Response =
    | Responded(value: Option<JsonValue>)   // `sendResponse(value)`; `None` is `undefined`
    | NoResponse                            // never called: the handler threw or no case matched

  /** What the context does to the host page, in order. */
  datatype PageEffect =
    | UpdateCode(code: string)   // `ExternalEditorToIDE` event with status "updateCode"
    | Click(control: Control)

  /** A pending sync timer and what its callback captured. */
  datatype SyncTimer = SyncTimer(url: JsonValue, isAutoplayEnabled: JsonValue, delayMs: nat)

  /** The text the second `then` passes to `dispatchNewProgram`: only a truthy body of an ok response. */
  function ProgramText(outcome: FetchOutcome): (r: Option<string>)
    ensures r.Some? <==> outcome.Ok? && outcome.text != ""
    ensures r.Some? ==> r.value == outcome.text
  {
    match outcome
    case Ok(text) => if text != "" then Some(text) else None
    case _ => None
  }

  /**
   * The control `playSimulation` clicks: replay unless it is disabled, play
   * otherwise; `None` when the replay control is missing and the call throws
   * before clicking anything.
   */
  function PlayTarget(replay: ReplayState): (c: Option<Control>)
    ensures c == Some(Replay) <==> replay == ReplayEnabled
    ensures c == Some(Play) <==> replay == ReplayDisabled
    ensures c == None <==> replay == ReplayAbsent
  {
    match replay
    case ReplayEnabled => Some(Replay)
    case ReplayDisabled => Some(Play)
    case ReplayAbsent => None
  }

  class MainFrameContext {
    /** SHA-256 of the UTF-8 encoding of a text. */
    const digest: string -> seq<Byte>
    /** Whether `new Request(url, { mode: "cors" })` accepts the URL value rather than throwing. */
    const isRequestUrl: JsonValue -> bool
    var storage: map<string, JsonValue>
    /** Hex digest of the last program dispatched; `None` is `null`. */
    var programHash: Option<string>
    /** Handle of the last scheduled sync timer; `None` is `null`. */
    var timeoutId: Option<nat>
    /** The host's pending timers set by this context. */
    var timers: map<nat, SyncTimer>
    /** The handle the host gives the next `setTimeout` (handles are positive, hence truthy). */
    var nextHandle: nat
    var effects: seq<PageEffect>

    /**
     * Every pending timer is the one `timeoutId` names and polls a URL its
     * request accepted; handles are positive and issued once.
     */
    ghost predicate Valid()
      reads this
    {
      && 0 < nextHandle
      && (timeoutId.Some? ==> 0 < timeoutId.value < nextHandle)
      && timers.Keys <= (if timeoutId.Some? then {timeoutId.value} else {})
      && (forall h :: h in timers ==> isRequestUrl(timers[h].url))
    }

    /** A sync poll is scheduled. */
    predicate SyncPending()
      reads this
    {
      timers != map[]
    }

    /** At most one sync timer is ever pending. */
    lemma AtMostOneTimer()
      requires Valid()
      ensures |timers| <= 1
      ensures SyncPending() ==> timeoutId.Some? && timers.Keys == {timeoutId.value}
    {
      if timeoutId.Some? && timeoutId.value in timers {
        assert timers.Keys == {timeoutId.value};
      } else {
        assert timers.Keys == {};
      }
    }

    constructor (digest: string -> seq<Byte>, isRequestUrl: JsonValue -> bool)
      ensures Valid() && this.digest == digest && this.isRequestUrl == isRequestUrl
      ensures storage == map[] && programHash == None && timeoutId == None
      ensures timers == map[] && effects == []
    {
      this.digest := digest;
      this.isRequestUrl := isRequestUrl;
      storage := map[];
      programHash := None;
      timeoutId := None;
      timers := map[];
      nextHandle := 1;
      effects := [];
    }

    /** The hex string `getHexHash` resolves to: two hex digits per digest byte, decoding back to the digest. */
    function HexHash(text: string): (hex: string)
      ensures |hex| == 2 * |digest(text)|
      ensures HexDecode(hex) == Some(digest(text))
    {
      HexRoundTrip(digest(text));
      HexEncode(digest(text))
    }

    /** Comparing hex digests is comparing the digests themselves. */
    lemma HexHashFaithful(a: string, b: string)
      ensures HexHash(a) == HexHash(b) <==> digest(a) == digest(b)
      ensures |HexHash(a)| == 2 * |digest(a)|
    {
      HexEncodeInjective(digest(a), digest(b));
    }

    method SetItem(key: string, value: JsonValue)
      modifies this`storage
      ensures storage == old(storage)[key := value]
      ensures key in storage && storage[key] == value
      ensures forall k :: k in old(storage) && k != key ==> k in storage && storage[k] == old(storage)[k]
      ensures forall k :: k in storage ==> k == key || k in old(storage)
    {
      storage := storage[key := value];
    }

    /** The value stored under `key`; `None` (`undefined`) when there is none. */
    method GetItem(key: string) returns (value: Option<JsonValue>)
      ensures value.Some? <==> key in storage
      ensures value.Some? ==> value.value == storage[key]
    {
      value := if key in storage then Some(storage[key]) else None;
    }

    /**
     * `setTimeout(action, 3000)` for a poll of `url`, answering the fresh
     * handle; `None` when building the request throws and no timer is set.
     */
    method ScheduleSync(url: JsonValue, isAutoplayEnabled: JsonValue) returns (id: Option<nat>)
      requires 0 < nextHandle
      requires forall h :: h in timers ==> h < nextHandle
      modifies this`timers, this`nextHandle
      ensures id.Some? <==> isRequestUrl(url)
      ensures id.Some? ==>
        0 < id.value && id.value == old(nextHandle) && id.value !in old(timers) &&
        nextHandle == id.value + 1 &&
        timers == old(timers)[id.value := SyncTimer(url, isAutoplayEnabled, SyncIntervalMs)]
      ensures id.None? ==> timers == old(timers) && nextHandle == old(nextHandle)
    {
      if !isRequestUrl(url) {
        return None;
      }
      id := Some(nextHandle);
      timers := timers[nextHandle := SyncTimer(url, isAutoplayEnabled, SyncIntervalMs)];
      nextHandle := nextHandle + 1;
    }

    /**
     * Cancels the scheduled poll and forgets the last digest when a handle is
     * held, then schedules a new poll exactly when sync is enabled. Answers
     * whether it reached `sendResponse()`: a URL the request rejects throws
     * after the cancellation, leaving no poll pending.
     */
    method UpdateState(url: JsonValue, isSyncEnabled: JsonValue, isAutoplayEnabled: JsonValue)
      returns (responded: bool)
      requires Valid()
      modifies this`timeoutId, this`timers, this`nextHandle, this`programHash
      ensures Valid()
      ensures responded <==> !Truthy(isSyncEnabled) || isRequestUrl(url)
      ensures SyncPending() <==> Truthy(isSyncEnabled) && isRequestUrl(url)
      ensures old(timeoutId).Some? ==> programHash == None
      ensures old(timeoutId).None? ==> programHash == old(programHash)
      ensures Truthy(isSyncEnabled) && isRequestUrl(url) ==>
        timeoutId == Some(old(nextHandle)) &&
        timers == map[old(nextHandle) := SyncTimer(url, isAutoplayEnabled, SyncIntervalMs)]
      ensures !(Truthy(isSyncEnabled) && isRequestUrl(url)) ==> timeoutId == None && timers == map[]
    {
      if timeoutId.Some? {
        timers := timers - {timeoutId.value};
        timeoutId := None;
        programHash := None;
      }
      assert timers == map[];
      if Truthy(isSyncEnabled) {
        var id := ScheduleSync(url, isAutoplayEnabled);
        if id.None? {
          return false;
        }
        timeoutId := id;
        assert id.value in timers;
      }
      return true;
    }

    /**
     * Emits the program to the page's editor unless its digest is the last one
     * dispatched; answers whether it emitted.
     */
    method DispatchNewProgram(program: string) returns (changed: bool)
      modifies this`programHash, this`effects
      ensures changed <==> old(programHash) != Some(HexHash(program))
      ensures changed ==> programHash == Some(HexHash(program))
      ensures changed ==> effects == old(effects) + [UpdateCode(program)]
      ensures !changed ==> programHash == old(programHash) && effects == old(effects)
    {
      var hash := HexHash(program);
      if Some(hash) == programHash {
        return false;
      }
      effects := effects + [UpdateCode(program)];
      programHash := Some(hash);
      return true;
    }

    /**
     * Clicks exactly one control: replay when it is enabled, play otherwise.
     * Answers whether it threw, which it does, clicking nothing, when the
     * replay control is missing.
     */
    method PlaySimulation(replay: ReplayState) returns (threw: bool)
      modifies this`effects
      ensures threw <==> replay == ReplayAbsent
      ensures threw ==> effects == old(effects)
      ensures !threw ==> effects == old(effects) + [Click(PlayTarget(replay).value)]
    {
      threw := false;
      match replay
      case ReplayAbsent =>
        threw := true;
      case ReplayDisabled =>
        effects := effects + [Click(Play)];
      case ReplayEnabled =>
        effects := effects + [Click(Replay)];
    }

    /**
     * The pending sync timer fires: the callback's fetch settles to `outcome`
     * and its promise chain runs to the end. Neither a rejection nor the throw
     * of `playSimulation` when the replay control is missing has a handler, so
     * the chain stops there and nothing is rescheduled; `timeoutId` then keeps
     * the handle of the timer that has already fired.
     */
    method Tick(outcome: FetchOutcome, replay: ReplayState)
      requires Valid() && timeoutId.Some? && timeoutId.value in timers
      modifies this`timers, this`nextHandle, this`timeoutId, this`programHash, this`effects
      ensures Valid()
      ensures ProgramText(outcome).None? ==>
        programHash == old(programHash) && effects == old(effects)
      ensures ProgramText(outcome).Some? && old(programHash) == Some(HexHash(outcome.text)) ==>
        programHash == old(programHash) && effects == old(effects)
      ensures ProgramText(outcome).Some? && old(programHash) != Some(HexHash(outcome.text)) ==>
        var fired := old(timers[timeoutId.value]);
        programHash == Some(HexHash(outcome.text)) &&
        effects == old(effects) + [UpdateCode(outcome.text)] +
          (if Truthy(fired.isAutoplayEnabled) && replay != ReplayAbsent
           then [Click(PlayTarget(replay).value)] else [])
      ensures
        var fired := old(timers[timeoutId.value]);
        var stopped := outcome.Rejected? ||
          (ProgramText(outcome).Some? && old(programHash) != Some(HexHash(outcome.text)) &&
           Truthy(fired.isAutoplayEnabled) && replay == ReplayAbsent);
        (stopped ==>
          timers == map[] && timeoutId == old(timeoutId) && nextHandle == old(nextHandle)) &&
        (!stopped ==>
          SyncPending() && timeoutId == Some(old(nextHandle)) &&
          timers == map[old(nextHandle) := SyncTimer(fired.url, fired.isAutoplayEnabled, SyncIntervalMs)])
    {
      var fired := timers[timeoutId.value];
      timers := timers - {timeoutId.value};
      if outcome.Rejected? {
        return;
      }
      var changed := false;
      var text := ProgramText(outcome);
      if text.Some? {
        changed := DispatchNewProgram(text.value);
      }
      if Truthy(fired.isAutoplayEnabled) && changed {
        var threw := PlaySimulation(replay);
        if threw {
          return;
        }
      }
      assert timers == map[] && isRequestUrl(fired.url);
      var id := ScheduleSync(fired.url, fired.isAutoplayEnabled);
      if id.Some? {
        timeoutId := id;
        assert id.value in timers;
      }
    }

    /**
     * The `chrome.runtime.onMessage` listener: routes a request by its
     * `message` field and runs its handler, which answers with `sendResponse`
     * unless it throws first.
     */
    method HandleMessage(request: Message) returns (response: Response)
      requires Valid()
      modifies this`storage, this`timeoutId, this`timers, this`nextHandle, this`programHash
      ensures Valid()
      ensures request.SetItem? ==>
        response == Responded(None) &&
        storage == old(storage)[request.key := request.value] &&
        timers == old(timers) && timeoutId == old(timeoutId) && programHash == old(programHash)
      ensures request.GetItem? ==>
        response.Responded? &&
        (response.value.Some? <==> request.key in storage) &&
        (response.value.Some? ==> response.value.value == storage[request.key]) &&
        storage == old(storage) && timers == old(timers) && timeoutId == old(timeoutId) &&
        programHash == old(programHash)
      ensures request.UpdateState? ==>
        var accepted := !Truthy(request.isSyncEnabled) || isRequestUrl(request.url);
        response == (if accepted then Responded(None) else NoResponse) &&
        storage == old(storage) &&
        (SyncPending() <==> Truthy(request.isSyncEnabled) && isRequestUrl(request.url)) &&
        programHash == (if old(timeoutId).Some? then None else old(programHash))
      ensures request.Unrecognized? ==>
        response == NoResponse &&
        storage == old(storage) && timers == old(timers) && timeoutId == old(timeoutId) &&
        programHash == old(programHash)
    {
      match request
      case SetItem(key, value) =>
        SetItem(key, value);
        response := Responded(None);
      case GetItem(key) =>
        var value := GetItem(key);
        response := Responded(value);
      case UpdateState(url, isSyncEnabled, isAutoplayEnabled) =>
        var responded := UpdateState(url, isSyncEnabled, isAutoplayEnabled);
        response := if responded then Responded(None) else NoResponse;
      case Unrecognized(_) =>
        response := NoResponse;
    }
  }

  /** The URL the popup proposes by default. */
  const PlayerUrl: JsonValue := JString("http://localhost:10101/Player.java")

  /** What is stored under a key is what reading it gives back; other keys read as absent. */
  method StorageSession(digest: string -> seq<Byte>, isRequestUrl: JsonValue -> bool)
  {
    var context := new MainFrameContext(digest, isRequestUrl);
    var response := context.HandleMessage(SetItem(StateKey, JString("saved")));
    assert response == Responded(None);
    response := context.HandleMessage(GetItem(StateKey));
    assert response == Responded(Some(JString("saved")));
    response := context.HandleMessage(GetItem("other"));
    assert response == Responded(None);
    response := context.HandleMessage(Unrecognized("other"));
    assert response == NoResponse;
  }

  /**
   * Enabling sync twice leaves one poll pending; a rejected poll ends the
   * chain, and disabling afterwards still forgets the digest.
   */
  method RestartSession(digest: string -> seq<Byte>, isRequestUrl: JsonValue -> bool)
    requires isRequestUrl(PlayerUrl)
  {
    var context := new MainFrameContext(digest, isRequestUrl);
    var responded := context.UpdateState(PlayerUrl, JBool(true), JBool(false));
    responded := context.UpdateState(PlayerUrl, JBool(true), JBool(false));
    context.AtMostOneTimer();
    assert |context.timers| == 1;
    context.Tick(Ok("A"), ReplayDisabled);
    assert context.programHash.Some?;
    context.Tick(Rejected, ReplayDisabled);
    assert !context.SyncPending() && context.timeoutId.Some?;
    responded := context.UpdateState(PlayerUrl, JBool(false), JBool(false));
    assert responded && !context.SyncPending() && context.programHash == None;
  }

  /**
   * A URL the request rejects cancels the running poll, schedules none and
   * leaves the message unanswered.
   */
  method BadUrlSession(digest: string -> seq<Byte>, isRequestUrl: JsonValue -> bool)
    requires isRequestUrl(PlayerUrl) && !isRequestUrl(JString("bad"))
  {
    var context := new MainFrameContext(digest, isRequestUrl);
    var responded := context.UpdateState(PlayerUrl, JBool(true), JBool(false));
    assert responded && context.SyncPending();
    responded := context.UpdateState(JString("bad"), JBool(true), JBool(false));
    assert !responded && !context.SyncPending() && context.timeoutId == None;
  }

  /** Polls that fail or bring an empty body change nothing but the timer. */
  method FailedPollSession(digest: string -> seq<Byte>, isRequestUrl: JsonValue -> bool)
    requires isRequestUrl(PlayerUrl)
  {
    var context := new MainFrameContext(digest, isRequestUrl);
    var responded := context.UpdateState(PlayerUrl, JBool(true), JBool(true));
    context.Tick(NotOk, ReplayEnabled);
    context.Tick(Ok(""), ReplayEnabled);
    assert context.effects == [] && context.programHash == None && context.SyncPending();
  }

  /**
   * With autoplay on and no replay control, the first changed program still
   * reaches the editor, but the poll loop ends there.
   */
  method MissingReplaySession(digest: string -> seq<Byte>, isRequestUrl: JsonValue -> bool)
    requires isRequestUrl(PlayerUrl)
  {
    var context := new MainFrameContext(digest, isRequestUrl);
    var responded := context.UpdateState(PlayerUrl, JBool(true), JBool(true));
    context.Tick(Ok(""), ReplayAbsent);
    assert context.SyncPending();
    context.Tick(Ok("A"), ReplayAbsent);
    assert context.effects == [UpdateCode("A")] && !context.SyncPending();
  }

  /**
   * A session of the sync loop with autoplay on and the replay control
   * enabled: the bodies "A", "A", "B" reach the editor as "A" and "B", and
   * replay is clicked after the first and the third poll only.
   */
  method SyncSession(digest: string -> seq<Byte>, isRequestUrl: JsonValue -> bool)
    requires digest("A") != digest("B") && isRequestUrl(PlayerUrl)
  {
    var context := new MainFrameContext(digest, isRequestUrl);
    context.HexHashFaithful("A", "B");
    var responded := context.UpdateState(PlayerUrl, JBool(true), JBool(true));
    context.Tick(Ok("A"), ReplayEnabled);
    var afterA := context.effects;
    assert afterA == [UpdateCode("A"), Click(Replay)];
    context.Tick(Ok("A"), ReplayEnabled);
    assert context.effects == afterA;
    context.Tick(Ok("B"), ReplayEnabled);
    assert context.effects == afterA + [UpdateCode("B"), Click(Replay)];
  }
}
