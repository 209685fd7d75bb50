/**
 * The pi-hole status action of cmd/streamdeck-pihole/internal/statusplugin:
 * a table of settings per event context, filled when a key appears or the
 * property inspector sends settings, toggled by a key release, and
 * dropped when the key disappears. It talks to the host through an
 * external client library, modelled as a client that records the calls
 * delivered and fails the write attempts its environment makes fail.
 */
module StatusPlugin {
  import opened Wrappers
  import opened Core
  import opened Sent

  const StatusUUID: ActionUUID := "com.craiggwilson.streamdeck.pihole.status"

  /** StatusSettings; the duration is a count of nanoseconds. */
  datatype StatusSettings = StatusSettings(adminURL: string, apiKey: string, duration: int, enabled: bool)

  const EmptySettings := StatusSettings("", "", 0, false)

  /** The fields a settings document holds: json.Unmarshal overwrites only these. */
  datatype Patch = Patch(adminURL: Option<string>, apiKey: Option<string>, duration: Option<int>, enabled: Option<bool>)

  /** A WillAppear payload: the raw settings document and how it reads as settings, if it does. */
  datatype AppearPayload = AppearPayload(settings: Raw, patch: Option<Patch>)

  /** The client calls the action makes, each for the event's context. */
  datatype ClientCall =
    | SendToPropertyInspectorCall(context: EventContext, document: Raw)
    | SetSettingsCall(context: EventContext, settings: StatusSettings)
    | SetTitleCall(context: EventContext, title: string, target: Target)

  /** json.Unmarshal of a settings document into existing settings: present fields replace, absent ones stay. */
  function Apply(s: StatusSettings, p: Patch): (r: StatusSettings)
    ensures p == Patch(None, None, None, None) ==> r == s
    ensures p.adminURL.Some? ==> r.adminURL == p.adminURL.value
    ensures p.adminURL.None? ==> r.adminURL == s.adminURL
    ensures p.apiKey.Some? ==> r.apiKey == p.apiKey.value
    ensures p.apiKey.None? ==> r.apiKey == s.apiKey
    ensures p.duration.Some? ==> r.duration == p.duration.value
    ensures p.duration.None? ==> r.duration == s.duration
    ensures p.enabled.Some? ==> r.enabled == p.enabled.value
    ensures p.enabled.None? ==> r.enabled == s.enabled
  {
    StatusSettings(
      if p.adminURL.Some? then p.adminURL.value else s.adminURL,
      if p.apiKey.Some? then p.apiKey.value else s.apiKey,
      if p.duration.Some? then p.duration.value else s.duration,
      if p.enabled.Some? then p.enabled.value else s.enabled)
  }

  /** Applying the same document twice is applying it once. */
  lemma ApplyIdempotent(s: StatusSettings, p: Patch)
    ensures Apply(Apply(s, p), p) == Apply(s, p)
  {
  }

  /** The table after loadSettings: an existing entry is kept, a missing one is created empty. */
  function Loaded(table: map<EventContext, StatusSettings>, context: EventContext): (t: map<EventContext, StatusSettings>)
    ensures t.Keys == table.Keys + {context}
    ensures forall k :: k in table ==> t[k] == table[k]
    ensures context !in table ==> t[context] == EmptySettings
  {
    if context in table then table else table[context := EmptySettings]
  }

  /** loadSettings is idempotent per context, and loading one context leaves every other as it was. */
  lemma LoadedIdempotent(table: map<EventContext, StatusSettings>, context: EventContext, other: EventContext)
    ensures Loaded(Loaded(table, context), context) == Loaded(table, context)
    ensures other != context ==> (other in Loaded(table, context) <==> other in table)
  {
  }

  /** The title updateDisplay shows. */
  function Title(s: StatusSettings): (title: string)
    ensures title == "Enabled" <==> s.enabled
    ensures title == "Disabled" <==> !s.enabled
  {
    if s.enabled then "Enabled" else "Disabled"
  }

  /** What a key release does to the settings: Enabled flips, the rest stays. */
  function Toggled(s: StatusSettings): (r: StatusSettings)
    ensures r.enabled != s.enabled
    ensures r.(enabled := s.enabled) == s
  {
    s.(enabled := !s.enabled)
  }

  /** Two key releases restore the settings, and each one changes the title. */
  lemma ToggleTwice(s: StatusSettings)
    ensures Toggled(Toggled(s)) == s
    ensures Title(Toggled(s)) != Title(s)
  {
  }

  /**
   * The external client: each call is one write attempt, numbered from
   * zero; the attempts in failing are refused, the others delivered.
   */
  class Client {
    const failing: set<nat>
    var attempts: nat
    var calls: seq<ClientCall>

    constructor (failing: set<nat>)
      ensures this.failing == failing && attempts == 0 && calls == []
    {
      this.failing := failing;
      attempts := 0;
      calls := [];
    }

    method Send(call: ClientCall) returns (err: Option<Error>)
      modifies this`attempts, this`calls
      ensures attempts == old(attempts) + 1
      ensures old(attempts) in failing ==> err == Some(SendFailed) && calls == old(calls)
      ensures old(attempts) !in failing ==> err == None && calls == old(calls) + [call]
    {
      if attempts in failing {
        err := Some(SendFailed);
      } else {
        err := None;
        calls := calls + [call];
      }
      attempts := attempts + 1;
    }
  }

  /**
   * Two calls made in turn, the second only if the first went through:
   * the calls delivered, the attempts used and the error, each failure
   * wrapped with its own note.
   */
  datatype Exchange = Exchange(delivered: seq<ClientCall>, attempts: nat, err: Option<Error>)

  function InTurn(failing: set<nat>, attempt: nat, first: ClientCall, firstNote: string, second: ClientCall, secondNote: string)
    : (x: Exchange)
    ensures x.err.None? <==> attempt !in failing && attempt + 1 !in failing
    ensures x.err.None? ==> x.delivered == [first, second] && x.attempts == 2
    ensures attempt in failing ==> x == Exchange([], 1, Some(Annotated(firstNote, SendFailed)))
    ensures attempt !in failing && attempt + 1 in failing ==> x == Exchange([first], 2, Some(Annotated(secondNote, SendFailed)))
  {
    if attempt in failing then Exchange([], 1, Some(Annotated(firstNote, SendFailed)))
    else if attempt + 1 in failing then Exchange([first], 2, Some(Annotated(secondNote, SendFailed)))
    else Exchange([first, second], 2, None)
  }

  class StatusAction {
    var settings: map<EventContext, StatusSettings>
    const client: Client

    /** Register: the action starts with an empty settings table. */
    constructor (client: Client)
      ensures settings == map[] && this.client == client
    {
      settings := map[];
      this.client := client;
    }

    /** loadSettings: the context's entry, created empty if missing. */
    method LoadSettings(context: EventContext) returns (s: StatusSettings)
      modifies this`settings
      ensures settings == Loaded(old(settings), context)
      ensures s == settings[context]
    {
      if context !in settings {
        settings := settings[context := EmptySettings];
      }
      s := settings[context];
    }

    /** updateDisplay: one SetTitle showing whether the settings are enabled. */
    method UpdateDisplay(context: EventContext, s: StatusSettings) returns (err: Option<Error>)
      modifies client`attempts, client`calls
      ensures client.attempts == old(client.attempts) + 1
      ensures old(client.attempts) in client.failing ==> err == Some(SendFailed) && client.calls == old(client.calls)
      ensures old(client.attempts) !in client.failing ==>
        err == None && client.calls == old(client.calls) + [SetTitleCall(context, Title(s), HardwareAndSoftware)]
    {
      err := client.Send(SetTitleCall(context, Title(s), HardwareAndSoftware));
    }

    /**
     * WillAppear: a payload that does not decode is an error before any
     * entry exists; otherwise the entry is loaded and the settings
     * document applied to it (an unreadable one is an error, the entry
     * created), the document is sent back to the property inspector, and
     * then the title is shown.
     */
    method WillAppear(context: EventContext, payload: Option<AppearPayload>) returns (err: Option<Error>)
      modifies this`settings, client`attempts, client`calls
      ensures payload.None? ==>
        err == Some(Annotated("unmarshaling WillAppear payload", InvalidJson))
        && settings == old(settings) && client.calls == old(client.calls) && client.attempts == old(client.attempts)
      ensures payload.Some? && payload.value.patch.None? ==>
        err == Some(Annotated("unmarshaling WillAppear payload settings", InvalidJson))
        && settings == Loaded(old(settings), context) && client.calls == old(client.calls) && client.attempts == old(client.attempts)
      ensures payload.Some? && payload.value.patch.Some? ==>
        var s := Apply(Loaded(old(settings), context)[context], payload.value.patch.value);
        var x := InTurn(client.failing, old(client.attempts),
                        SendToPropertyInspectorCall(context, payload.value.settings), "sending to property inspector",
                        SetTitleCall(context, Title(s), HardwareAndSoftware), "setting title");
        && settings == old(settings)[context := s]
        && client.calls == old(client.calls) + x.delivered
        && client.attempts == old(client.attempts) + x.attempts
        && err == x.err
    {
      if payload.None? {
        return Some(Annotated("unmarshaling WillAppear payload", InvalidJson));
      }
      var s := LoadSettings(context);
      if payload.value.patch.None? {
        return Some(Annotated("unmarshaling WillAppear payload settings", InvalidJson));
      }
      s := Apply(s, payload.value.patch.value);
      settings := settings[context := s];
      var e := client.Send(SendToPropertyInspectorCall(context, payload.value.settings));
      if e.Some? {
        return Some(Annotated("sending to property inspector", e.value));
      }
      e := UpdateDisplay(context, s);
      if e.Some? {
        return Some(Annotated("setting title", e.value));
      }
      return None;
    }

    /**
     * SendToPlugin: the entry is loaded, created if absent, and the
     * property inspector's document applied to it; an unreadable one is an
     * error; otherwise the settings are persisted with SetSettings.
     */
    method SendToPlugin(context: EventContext, patch: Option<Patch>) returns (err: Option<Error>)
      modifies this`settings, client`attempts, client`calls
      ensures patch.None? ==>
        err == Some(Annotated("unmarshaling SendToPlugin payload", InvalidJson))
        && settings == Loaded(old(settings), context) && client.calls == old(client.calls) && client.attempts == old(client.attempts)
      ensures patch.Some? ==>
        var s := Apply(Loaded(old(settings), context)[context], patch.value);
        && settings == old(settings)[context := s]
        && client.attempts == old(client.attempts) + 1
        && (old(client.attempts) in client.failing ==>
              err == Some(Annotated("setting settings", SendFailed)) && client.calls == old(client.calls))
        && (old(client.attempts) !in client.failing ==>
              err == None && client.calls == old(client.calls) + [SetSettingsCall(context, s)])
    {
      var s := LoadSettings(context);
      if patch.None? {
        return Some(Annotated("unmarshaling SendToPlugin payload", InvalidJson));
      }
      s := Apply(s, patch.value);
      settings := settings[context := s];
      var e := client.Send(SetSettingsCall(context, s));
      if e.Some? {
        return Some(Annotated("setting settings", e.value));
      }
      return None;
    }

    /** WillDisappear: the context's entry is deleted, every other kept; it always succeeds. */
    method WillDisappear(context: EventContext) returns (err: Option<Error>)
      modifies this`settings
      ensures settings == old(settings) - {context} && err == None
    {
      settings := settings - {context};
      err := None;
    }

    /**
     * KeyUp: without an entry, an error and nothing sent; otherwise
     * Enabled flips once, then the settings are persisted and then the
     * title shown.
     */
    method KeyUp(context: EventContext) returns (err: Option<Error>)
      modifies this`settings, client`attempts, client`calls
      ensures context !in old(settings) ==>
        err == Some(NoSettings(context)) && settings == old(settings)
        && client.calls == old(client.calls) && client.attempts == old(client.attempts)
      ensures context in old(settings) ==>
        var s := Toggled(old(settings)[context]);
        var x := InTurn(client.failing, old(client.attempts),
                        SetSettingsCall(context, s), "setting settings",
                        SetTitleCall(context, Title(s), HardwareAndSoftware), "setting title");
        && settings == old(settings)[context := s]
        && client.calls == old(client.calls) + x.delivered
        && client.attempts == old(client.attempts) + x.attempts
        && err == x.err
    {
      if context !in settings {
        return Some(NoSettings(context));
      }
      var s := Toggled(settings[context]);
      settings := settings[context := s];
      var e := client.Send(SetSettingsCall(context, s));
      if e.Some? {
        return Some(Annotated("setting settings", e.value));
      }
      e := UpdateDisplay(context, s);
      if e.Some? {
        return Some(Annotated("setting title", e.value));
      }
      return None;
    }
  }
}
