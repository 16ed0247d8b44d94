/**
 * The extension's popup: the saved state record and the handlers of its three
 * controls (source URL, sync checkbox, autoplay checkbox). Every message the
 * popup sends to the page and every badge change is appended to `effects`.
 */
module PopupScript {
  import opened Wrappers
  import opened Json
  import opened Protocol

  const DefaultUrl: string := "http://localhost:10101/Player.java"

  /**
   * The saved state. Its fields hold whatever JSON values they were given, as
   * in JavaScript; the third one is spelt `isAutplayEnabled` in the source,
   * and so in the stored document.
   */
  datatype CodeSyncState = CodeSyncState(url: JsonValue, isSyncEnabled: JsonValue, isAutplayEnabled: JsonValue)

  /** `new CodeSyncState(url, isSyncEnabled, isAutplayEnabled)`: an `undefined` (`None`) argument takes its default. */
  function NewCodeSyncState(url: Option<JsonValue>, isSyncEnabled: Option<JsonValue>, isAutplayEnabled: Option<JsonValue>): (s: CodeSyncState)
    ensures s.url == if url.Some? then url.value else JString(DefaultUrl)
    ensures s.isSyncEnabled == if isSyncEnabled.Some? then isSyncEnabled.value else JBool(false)
    ensures s.isAutplayEnabled == if isAutplayEnabled.Some? then isAutplayEnabled.value else JBool(false)
  {
    CodeSyncState(url.GetOr(JString(DefaultUrl)), isSyncEnabled.GetOr(JBool(false)), isAutplayEnabled.GetOr(JBool(false)))
  }

  /** `new CodeSyncState()` */
  function DefaultState(): (s: CodeSyncState)
    ensures s.url == JString("http://localhost:10101/Player.java")
    ensures s.isSyncEnabled == JBool(false) && s.isAutplayEnabled == JBool(false)
  {
    NewCodeSyncState(None, None, None)
  }

  /**
   * `CodeSyncState.fromJson` applied to the document `JSON.parse` produced:
   * a falsy document gives the defaults; otherwise each field is read from
   * the document and falls back to its default when it is missing.
   */
  function FromJson(parsed: JsonValue): (s: CodeSyncState)
    ensures !parsed.JObject? ==> s == DefaultState()
    ensures parsed.JObject? ==>
      s.url == (if "url" in parsed.members then parsed.members["url"] else JString(DefaultUrl)) &&
      s.isSyncEnabled == (if "isSyncEnabled" in parsed.members then parsed.members["isSyncEnabled"] else JBool(false)) &&
      s.isAutplayEnabled == (if "isAutplayEnabled" in parsed.members then parsed.members["isAutplayEnabled"] else JBool(false))
  {
    if Truthy(parsed) then
      NewCodeSyncState(Property(parsed, "url"), Property(parsed, "isSyncEnabled"), Property(parsed, "isAutplayEnabled"))
    else
      DefaultState()
  }

  /** `state.toJson()`: the document `JSON.stringify` writes, one member per field. */
  function ToJson(state: CodeSyncState): (doc: JsonValue)
    ensures doc.JObject? && doc.members.Keys == {"url", "isSyncEnabled", "isAutplayEnabled"}
  {
    JObject(map["url" := state.url, "isSyncEnabled" := state.isSyncEnabled, "isAutplayEnabled" := state.isAutplayEnabled])
  }

  /** Saving and restoring the state keeps all three fields. */
  lemma FromJsonToJson(state: CodeSyncState)
    ensures FromJson(ToJson(state)) == state
  {
  }

  /** `fromJson("null")` */
  lemma FromJsonNull()
    ensures FromJson(JNull) == CodeSyncState(JString(DefaultUrl), JBool(false), JBool(false))
  {
  }

  /** A string made of decimal digits only. */
  predicate IsDigits(s: string)
  {
    forall k :: 0 <= k < |s| ==> '0' <= s[k] <= '9'
  }

  /** The number a string of decimal digits spells, most significant digit first. */
  function DecimalValue(s: string): nat
    requires IsDigits(s)
  {
    if s == [] then 0 else DecimalValue(s[..|s| - 1]) * 10 + (s[|s| - 1] as int - '0' as int)
  }

  /** The decimal digits of `n`: they spell `n`, with no leading zero. */
  function Decimal(n: nat): (s: string)
    ensures 1 <= |s| && IsDigits(s)
    ensures DecimalValue(s) == n
    ensures s[0] == '0' ==> s == "0"
  {
    if n < 10 then [('0' as int + n) as char]
    else
      var init := Decimal(n / 10);
      var s := init + [('0' as int + n % 10) as char];
      assert s[..|s| - 1] == init;
      s
  }

  /** The total length of the parts. */
  function TotalLength(parts: seq<string>): nat
  {
    if parts == [] then 0 else |parts[0]| + TotalLength(parts[1..])
  }

  /** `parts.join(sep)`: the parts in order, one separator between neighbours. */
  function Join(parts: seq<string>, sep: string): (r: string)
    ensures parts == [] ==> r == ""
    ensures parts != [] ==> |r| == TotalLength(parts) + (|parts| - 1) * |sep|
    ensures parts != [] ==> r[..|parts[0]|] == parts[0]
    ensures 1 < |parts| ==> r[|parts[0]|..|parts[0]| + |sep|] == sep
  {
    if parts == [] then "" else if |parts| == 1 then parts[0] else parts[0] + sep + Join(parts[1..], sep)
  }

  /**
   * The text an input element shows after `element.value = v`: `null` gives
   * the empty string, a string itself, a number its decimal digits, other
   * values their JavaScript string conversion (an array joins its elements
   * with commas, writing its `null` elements as empty). The element's own
   * value sanitization is not part of this conversion.
   */
  function DomString(v: JsonValue): (r: string)
    ensures v.JNull? ==> r == ""
    ensures v.JString? ==> r == v.s
    ensures v.JNumber? && 0 <= v.n ==> IsDigits(r) && DecimalValue(r) == v.n
    ensures v.JNumber? && v.n < 0 ==> 2 <= |r| && r[0] == '-' && IsDigits(r[1..]) && DecimalValue(r[1..]) == -v.n
    ensures v.JArray? && v.items == [] ==> r == ""
    decreases v
  {
    match v
    case JNull => ""
    case JBool(b) => if b then "true" else "false"
    case JNumber(n) =>
      if n < 0 then
        var digits := Decimal(-n);
        assert ("-" + digits)[1..] == digits;
        "-" + digits
      else Decimal(n)
    case JString(s) => s
    case JArray(items) => Join(seq(|items|, i requires 0 <= i < |items| => DomString(items[i])), ",")
    case JObject(_) => "[object Object]"
  }

  /** The `update-state` message for a state: the autoplay field is renamed to `isAutoplayEnabled`. */
  function UpdateStateMessage(state: CodeSyncState): (m: Message)
    ensures m.UpdateState?
    ensures m.url == state.url && m.isSyncEnabled == state.isSyncEnabled
    ensures m.isAutoplayEnabled == state.isAutplayEnabled
  {
    UpdateState(state.url, state.isSyncEnabled, state.isAutplayEnabled)
  }

  /** The `set-item` message that saves a state under `"state"`. */
  function SaveMessage(state: CodeSyncState): (m: Message)
    ensures m.SetItem? && m.key == StateKey && m.value == ToJson(state)
  {
    SetItem(StateKey, ToJson(state))
  }

  /** What the popup does outside itself. */
  datatype PopupEffect = Send(message: Message) | BadgeOn | BadgeOff

  /**
   * Whether the badge shows after `effects`: the last badge change wins;
   * `None` if there was none.
   */
  function LastBadge(effects: seq<PopupEffect>): (r: Option<bool>)
    ensures r.None? <==> forall k :: 0 <= k < |effects| ==> effects[k].Send?
    ensures r.Some? ==>
      exists k :: 0 <= k < |effects| && effects[k] == (if r.value then BadgeOn else BadgeOff) &&
        forall j :: k < j < |effects| ==> effects[j].Send?
  {
    if effects == [] then None
    else
      match effects[|effects| - 1]
      case BadgeOn => Some(true)
      case BadgeOff => Some(false)
      case Send(_) => LastBadge(effects[..|effects| - 1])
  }

  /** Sending messages leaves the badge as it was. */
  lemma {:induction false} LastBadgeIgnoresSends(effects: seq<PopupEffect>, sent: seq<PopupEffect>)
    requires forall k :: 0 <= k < |sent| ==> sent[k].Send?
    ensures LastBadge(effects + sent) == LastBadge(effects)
  {
    var all := effects + sent;
    if sent == [] {
      assert all == effects;
    } else {
      var init := sent[..|sent| - 1];
      assert all[|all| - 1] == sent[|sent| - 1];
      assert all[|all| - 1].Send?;
      assert all[..|all| - 1] == effects + init;
      LastBadgeIgnoresSends(effects, init);
    }
  }

  /** A badge change followed only by messages decides the badge. */
  lemma LastBadgeAfterChange(effects: seq<PopupEffect>, change: PopupEffect, sent: seq<PopupEffect>)
    requires change.BadgeOn? || change.BadgeOff?
    requires forall k :: 0 <= k < |sent| ==> sent[k].Send?
    ensures LastBadge(effects + [change] + sent) == Some(change.BadgeOn?)
  {
    LastBadgeIgnoresSends(effects + [change], sent);
  }

  class Popup {
    /** `#source_code_url`'s value. */
    var sourceUrl: string
    /** `#sync_code_checkbox`'s `checked`. */
    var syncChecked: bool
    /** `#autoplay_checkbox`'s `checked`. */
    var autoplayChecked: bool
    var effects: seq<PopupEffect>

    /** The controls start as the popup's page declares them. */
    constructor (sourceUrl: string, syncChecked: bool, autoplayChecked: bool)
      ensures this.sourceUrl == sourceUrl && this.syncChecked == syncChecked
      ensures this.autoplayChecked == autoplayChecked && effects == []
    {
      this.sourceUrl := sourceUrl;
      this.syncChecked := syncChecked;
      this.autoplayChecked := autoplayChecked;
      effects := [];
    }

    /** The state the controls show. */
    function GetState(): (s: CodeSyncState)
      reads this
      ensures s == CodeSyncState(JString(sourceUrl), JBool(syncChecked), JBool(autoplayChecked))
    {
      NewCodeSyncState(Some(JString(sourceUrl)), Some(JBool(syncChecked)), Some(JBool(autoplayChecked)))
    }

    method SaveState()
      modifies this`effects
      ensures effects == old(effects) + [Send(SaveMessage(GetState()))]
    {
      var state := GetState();
      effects := effects + [Send(SaveMessage(state))];
    }

    /** Sends the controls' URL and flags as an `update-state` message. */
    method SendMessageUpdateState()
      modifies this`effects
      ensures effects == old(effects) + [Send(UpdateStateMessage(GetState()))]
    {
      var state := GetState();
      effects := effects + [Send(UpdateStateMessage(state))];
    }

    /** Saves, then tells the page the new state, then shows the badge exactly when sync is checked. */
    method OnSyncEnabledChange()
      modifies this`effects
      ensures effects == old(effects) +
        [Send(SaveMessage(GetState())), Send(UpdateStateMessage(GetState())), if syncChecked then BadgeOn else BadgeOff]
      ensures LastBadge(effects) == Some(syncChecked)
    {
      SaveState();
      SendMessageUpdateState();
      if syncChecked {
        effects := effects + [BadgeOn];
      } else {
        effects := effects + [BadgeOff];
      }
      LastBadgeAfterChange(old(effects) + [effects[|old(effects)|], effects[|old(effects)| + 1]], effects[|effects| - 1], []);
      assert effects == old(effects) + [effects[|old(effects)|], effects[|old(effects)| + 1]] + [effects[|effects| - 1]] + [];
    }

    /** Saves, then tells the page the new state; the badge is left alone. */
    method OnAutoplayEnabledChange()
      modifies this`effects
      ensures effects == old(effects) + [Send(SaveMessage(GetState())), Send(UpdateStateMessage(GetState()))]
      ensures LastBadge(effects) == LastBadge(old(effects))
    {
      SaveState();
      SendMessageUpdateState();
      LastBadgeIgnoresSends(old(effects), effects[|old(effects)|..]);
      assert effects == old(effects) + effects[|old(effects)|..];
    }

    /**
     * Editing the URL always leaves sync off. If sync was on, the handler
     * unchecks it and runs the sync handler (save, `update-state` with sync
     * off, badge off); otherwise it only saves.
     */
    method OnSourceUrlChange()
      modifies this`syncChecked, this`effects
      ensures !syncChecked
      ensures old(syncChecked) ==>
        effects == old(effects) + [Send(SaveMessage(GetState())), Send(UpdateStateMessage(GetState())), BadgeOff]
      ensures !old(syncChecked) ==> effects == old(effects) + [Send(SaveMessage(GetState()))]
      ensures old(syncChecked) ==> LastBadge(effects) == Some(false)
    {
      if syncChecked {
        syncChecked := false;
        OnSyncEnabledChange();
      } else {
        SaveState();
      }
    }

    /**
     * Asks the page for the saved state and shows it. `None` is a reply
     * `JSON.parse` rejects (`undefined`, when nothing was saved): the callback
     * throws before touching the controls.
     */
    method RestoreState(response: Option<JsonValue>)
      modifies this`sourceUrl, this`syncChecked, this`autoplayChecked, this`effects
      ensures response.None? ==>
        sourceUrl == old(sourceUrl) && syncChecked == old(syncChecked) &&
        autoplayChecked == old(autoplayChecked) && effects == old(effects) + [Send(GetItem(StateKey))]
      ensures response.Some? ==>
        var state := FromJson(response.value);
        sourceUrl == DomString(state.url) &&
        syncChecked == Truthy(state.isSyncEnabled) &&
        autoplayChecked == Truthy(state.isAutplayEnabled) &&
        effects == old(effects) + [Send(GetItem(StateKey)), if syncChecked then BadgeOn else BadgeOff]
      ensures response.Some? ==> LastBadge(effects) == Some(syncChecked)
    {
      effects := effects + [Send(GetItem(StateKey))];
      if response.None? {
        return;
      }
      var state := FromJson(response.value);
      sourceUrl := DomString(state.url);
      syncChecked := Truthy(state.isSyncEnabled);
      autoplayChecked := Truthy(state.isAutplayEnabled);
      if Truthy(state.isSyncEnabled) {
        effects := effects + [BadgeOn];
      } else {
        effects := effects + [BadgeOff];
      }
      LastBadgeAfterChange(old(effects) + [Send(GetItem(StateKey))], effects[|effects| - 1], []);
      assert effects == old(effects) + [Send(GetItem(StateKey))] + [effects[|effects| - 1]] + [];
    }
  }

  /**
   * Sync and autoplay are switched on, the state saved is restored intact,
   * and editing the URL then switches sync off again.
   */
  method PopupSession()
  {
    var popup := new Popup(DefaultUrl, false, false);
    popup.RestoreState(Some(JNull));
    assert popup.sourceUrl == DefaultUrl && !popup.syncChecked && !popup.autoplayChecked;
    popup.syncChecked := true;
    popup.OnSyncEnabledChange();
    popup.autoplayChecked := true;
    popup.OnAutoplayEnabledChange();
    assert LastBadge(popup.effects) == Some(true);
    var saved := ToJson(popup.GetState());
    popup.RestoreState(Some(saved));
    assert popup.syncChecked && popup.autoplayChecked && popup.sourceUrl == DefaultUrl;
    popup.sourceUrl := "http://localhost:10101/Other.java";
    popup.OnSourceUrlChange();
    assert !popup.syncChecked && LastBadge(popup.effects) == Some(false);
  }
}
