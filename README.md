# go-streamdeck-sdk in Dafny

A model of the core of go-streamdeck-sdk, a Go framework for writing Stream Deck plugins. The Stream Deck host sends
JSON events over a websocket, and the plugin answers with JSON commands. The framework routes each inbound event
through three layers:

1. A **plugin** holds a registry of **actions** keyed by action UUID.
2. Each action keeps a table of **instances**, one per event context (one key on the device). The table grows lazily
   through a factory.
3. Each instance receives the event through its typed handler interfaces, or through the generic raw handler.

Every instance gets a **publisher**. It stamps the plugin UUID, action UUID and event context into every outbound
command and writes the command to the one core connection.

The repository has two generations of this framework, and both are modelled:

- the root package (`DefaultPlugin`, `DefaultAction`, `coreActionInstancePublisher`, `streamdeckevent`);
- `pkg/streamdeck` (`Plugin`, `InstancedAction`, `corePublisherAdapter`, `streamdeckcore`).

The module `Generations` states where the two agree and where they differ. Four example actions are modelled as
concrete classes:

- the per-instance counter;
- the minimal counter;
- the shared counter;
- the pi-hole status action's per-context settings table.

Modules and files:

| file | module | models |
|---|---|---|
| wrappers.dfy | Wrappers | `Option` and `Result` |
| core.dfy | Core | identities, abstract inbound JSON, the error messages, header decoding |
| received.dfy | Received | `streamdeckevent/received.go`: 15 inbound names, struct layouts, typed decode |
| sent.dfy | Sent | `streamdeckevent/sent.go`: 13 outbound records, names, keys, marshalling |
| transport.dfy | Transport | the core publisher as a sink that records what is written |
| events.dfy | Events | `events.go`: `dispatchEvent`, and the broadcast loop both generations use |
| publish.dfy | Publish | `publish.go`: identity stamping and `publish` |
| registry.dfy | Registry | the constructors' "store each under its key" loop |
| action.dfy | Actions | `action.go`: `DefaultAction` |
| plugin.dfy | Plugins | `plugin.go`: `DefaultPlugin` |
| legacy_types.dfy | LegacyTypes | `pkg/streamdeck/streamdeckcore/types.go` |
| legacy_events.dfy | LegacyEvents | `pkg/streamdeck/events.go` |
| legacy_publish.dfy | LegacyPublish | `pkg/streamdeck/publish.go` |
| legacy_instance.dfy | LegacyInstance | `pkg/streamdeck/instance.go` |
| legacy_plugin.dfy | LegacyPlugin | `pkg/streamdeck/plugin.go` |
| generations.dfy | Generations | root package versus `pkg/streamdeck` |
| decimal.dfy | Decimal | `strconv.Itoa`, which the counters use for titles |
| counter.dfy, minimal_counter.dfy, synccounter.dfy, statusplugin.dfy | Counter, MinimalCounter, SyncCounter, StatusPlugin | the example actions |

### How the model works

Inbound JSON is abstract. A message is either something a Go struct decoder rejects outright (`Malformed`: bytes
that are not JSON, or a top-level string, number, boolean or array) or an object whose fields are `Null`, a string,
or a compound value. A compound value records whether it fits the struct that reads it. A top-level JSON `null`
decodes into a Go struct without error and leaves it zero, so it is the object with no fields (`Core.NullMessage`).

Instances are values of a type parameter `I`. What their handler code returns is a parameter (`Behaviour`): which
handler interfaces an instance implements, and the result of each call.

The instance tables are class fields that the `HandleEvent` methods update in place. Each method is specified by a
relation (`Handled`) between the old table, the new table and the error. That relation is stated through a pure
next-table function, and lemmas are proved about it.

Go map iteration order is unspecified, so the broadcast loops pick keys in an unspecified order. Their contracts hold
for every order.

## Model

| member | source | states |
|---|---|---|
| Core.DecodeHeader | action.go:51-58 | decoding the header struct succeeds iff the message is an object (or null) and no declared key holds a non-string; a declared string is copied; an absent, null or undeclared key reads as ""; the error is "unmarshalling action and eventHeader" |
| Core.NullMessageReadsAsZero | action.go:51-58 | a JSON null decodes, under any header struct, to the zero header: empty event, action and context |
| Received.Parse | streamdeckevent/received.go:10-24 | a name parses to a kind iff it is that kind's constant, so the 15 inbound names are pairwise distinct |
| Received.NamesDistinct | streamdeckevent/received.go:10-24 | distinct inbound kinds have distinct names |
| Received.Layout | streamdeckevent/received.go:27-189 | the struct layout of each inbound kind: the as-written layout for all but DidReceiveGlobalSettings; struct payloads are read from "payload", except DeviceDidConnect's device info |
| Received.PluginEventsCarryNoAddress | streamdeckevent/received.go:27-63 | application, device, global-settings and wake-up events have neither an action nor a context field; the other kinds have both or neither |
| Received.SendToPluginShape | streamdeckevent/received.go:125-130 | SendToPlugin has action and context and a raw payload, but no device |
| Received.KeyPayloadsAlike | streamdeckevent/received.go:87-109 | KeyDown and KeyUp have the same payload fields |
| Received.AddressedKindsCarryDevice | streamdeckevent/received.go:65-189 | the eight per-key events (DidReceiveSettings, KeyDown, KeyUp, PropertyInspectorDidAppear/Disappear, TitleParametersDidChange, WillAppear, WillDisappear) declare action, context and device |
| Received.Decode | streamdeckevent/received.go:27-189 | decoding fails on a non-object or on a field that does not fit its struct, with the error "unmarshalling <name>"; otherwise the decoded event has the kind's fields present exactly as the layout declares, with action and context copied |
| Received.PayloadDelivered | streamdeckevent/received.go:56-63 | with the corrected layout, a decoded global-settings event carries the host's "payload" value |
| Received.GlobalSettingsDroppedAsWritten | streamdeckevent/received.go:58 | with the tag as written, a well-formed global-settings event decodes with an empty payload; the corrected decode keeps it |
| Sent.TargetOf | streamdeckevent/types.go:43-47 | a code names a target iff it is that target's value, 0, 1 or 2 |
| Sent.ParseKind | streamdeckevent/sent.go:10-22 | a name parses to an outbound kind iff it is that kind's constant (with the spellings "openUrl" and "showOk"), so the 13 names are distinct |
| Sent.OutboundShape | streamdeckevent/sent.go:25-125 | the JSON keys of each record: global-settings records carry a plugin-UUID context; LogMessage and OpenURL carry no context; SendToPropertyInspector carries action and context; SwitchToProfile carries context, device and profile; an absent state is omitted |
| Transport.Connection.constructor | streamdeckcore/serve.go:34-40 | a connection starts with nothing written, open or failed for its whole life |
| Transport.Connection.PublishEvent | streamdeckcore/serve.go:39-49 | a write to an open connection appends the message and succeeds; a failed write records nothing and returns the send error |
| Events.RouteOf | events.go:87-215 | a name whose typed handler the target implements is decoded and either rejected with "unmarshalling <name>" or handed, decoded, to that handler alone; otherwise the raw message goes unchanged to the generic handler if there is one, and otherwise nowhere |
| Events.UnclaimedNeverDecoded | events.go:87-94 | an event a target has no typed handler for is never rejected with a decode error, and whether it is dropped does not depend on the message |
| Events.GenericOnlyTargetGetsRaw | events.go:211-213 | a target with only the generic handler (a DefaultAction) always receives the raw message |
| Events.DispatchEvent | events.go:87-215 | for a name whose typed handler the target implements: "unmarshalling <name>" when the decode fails, and otherwise that handler's result on the decoded event; for any other name: the generic handler's result on the unchanged message, or success when the target has none, so a decode error never arises for a name the target does not claim |
| Events.Broadcast | action.go:65-69 | visiting the table in any order: it fails iff some value fails, then reports a failing key and its error; every key visited before it succeeded; without a failure every key was visited exactly once |
| Publish.InstancePublisher.Stamp | publish.go:52-176 | each command's record carries the plugin UUID (global settings), the action UUID and context (SendToPropertyInspector), the event context (other context-bearing records) and the bound device (SwitchToProfile); unstamping gives the command back |
| Publish.InstancePublisher.PublishEvent | publish.go:178-180 | raw bytes go to the core publisher unchanged, and its error comes back unchanged |
| Publish.InstancePublisher.Publish | publish.go:182-193 | a marshal failure is wrapped "marshaling event <name>" with nothing sent; otherwise exactly one record is written, and a write failure is wrapped "publishing event <name>" |
| Publish.InstancePublisher.Send | publish.go:52-176 | every command method writes exactly one record, the command stamped with the publisher's identities |
| Publish.NewPublisherStamps | publish.go:30-42 | a publisher built by the constructor stamps its plugin, action and context, and an empty device into SwitchToProfile |
| Publish.StampUnstamp | publish.go:52-176 | re-stamping what a record's caller supplied gives the record back iff the record carries the publisher's own identities |
| Publish.NoCaching | publish.go:182-193 | the same command published twice puts two identical records on the wire |
| Publish.OnlyTheSocketFails | publish.go:182-193 | a record with no embedded JSON fails iff the connection fails, with "publishing event <name>" |
| Registry.IndexKeys | plugin.go:12-21 | the registry's keys are exactly the keys of the listed elements |
| Registry.IndexLastWins | plugin.go:12-21 | each entry is the last listed element with that key |
| Registry.IndexDistinct | plugin.go:12-21 | with distinct keys every listed element is registered under its key |
| Actions.NextTable | action.go:60-79 | an event keeps every existing instance; the only instance ever added is the factory's for the context the event is addressed to (header decodes, the filter passes, the context is non-empty), and that context is present afterwards |
| Actions.DefaultAction.constructor | action.go:19-25 | a new action holds its UUID and factory, with no instances and no plugin UUID or publisher yet |
| Actions.DefaultAction.Initialize | action.go:44-47 | only the plugin UUID and publisher change |
| Actions.DefaultAction.HandleEvent | action.go:50-86 | the new table is NextTable of the old; a bad header is its error; a foreign action is ignored; an empty context is a broadcast that fails iff some instance fails, wrapped with the event; otherwise the addressed instance's result, wrapped with event and context |
| Actions.MalformedHeaderChangesNothing | action.go:56-58 | a malformed header returns its error and leaves the table unchanged |
| Actions.ForeignActionIgnored | action.go:60-62 | an event naming another action is dropped: no error, no dispatch, no creation |
| Actions.BroadcastCreatesNothing | action.go:64-72 | a broadcast never adds an instance, and fails iff some existing instance fails |
| Actions.NullMessageBroadcast | action.go:51-72 | a null message is a broadcast of the empty event name: nothing is created, and it fails iff some instance fails |
| Actions.AddressedDispatch | action.go:74-83 | an unseen context gets exactly the factory's instance, with a publisher bound to this plugin, action and context; a known context reuses its instance; the one dispatch's error is wrapped with event and context |
| Actions.ReplayInstances | action.go:74-79 | over any run of events an instance is never replaced, and each added one is the factory's for a context some event addressed |
| Plugins.Targets | plugin.go:46-59 | an empty action id targets every registered action; a registered id targets that action alone; any other is "unknown action" |
| Plugins.FilterNeverFiresUnderPlugin | plugin.go:46-63 | the action filter never drops an event the plugin routes to the action |
| Plugins.DefaultPlugin.constructor | plugin.go:12-21 | each action is registered under its UUID, a later duplicate replacing an earlier one |
| Plugins.DefaultPlugin.Initialize | plugin.go:30-34 | every registered action gets the same plugin UUID and publisher |
| Plugins.DefaultPlugin.HandleEvent | plugin.go:37-66 | a bad header or an unknown action returns its error with nothing changed; a registered action alone handles the event, its error wrapped with event and action; an empty action id reaches every action until one fails, and success means all handled it; on a failure every other action either handled it without error or was never reached |
| Plugins.DefaultPlugin.BroadcastEvent | plugin.go:46-54 | every action handles the event in turn until one fails; that error is wrapped with the event and the empty action id, and every other action either handled it without error before the failing one or was never reached and is unchanged |
| LegacyTypes.Parse | pkg/streamdeck/streamdeckcore/types.go:43-60 | a name parses iff it is one of the 15 constants, so they are pairwise distinct |
| LegacyTypes.SpellingsAgree | pkg/streamdeck/streamdeckcore/types.go:43-60 | each constant is inbound or outbound, not both, and is spelled as the root package spells the same event |
| LegacyTypes.TypedKindsNamed | pkg/streamdeck/streamdeckcore/types.go:43-60 | each of the six typed inbound kinds has its own constant |
| LegacyTypes.LayoutsAgree | pkg/streamdeck/streamdeckcore/types.go:18-39 | the six inbound structs are laid out as in the root package |
| LegacyTypes.GlobalSettingsDroppedAsWritten | pkg/streamdeck/streamdeckcore/types.go:20 | with the tag as written, well-formed global settings decode to an empty payload; the corrected decode keeps them |
| LegacyTypes.TargetCodes | pkg/streamdeck/streamdeckcore/types.go:164-169 | the Target values are exactly 0, 1 and 2 |
| LegacyEvents.RouteOf | pkg/streamdeck/events.go:41-98 | only the six typed names are decoded, and only for a target with that handler; a decode failure is "unmarshalling <name>" and runs no handler; everything else goes raw to the generic handler if there is one, and otherwise nowhere; the route is followed exactly as in the root package |
| LegacyPublish.Adapter.Stamp | pkg/streamdeck/publish.go:45-129 | the global-settings commands carry the plugin UUID, the other seven the event context; unstamping gives the command back |
| LegacyPublish.Adapter.PublishRaw | pkg/streamdeck/publish.go:131-133 | raw bytes go to the core publisher unchanged |
| LegacyPublish.Adapter.Publish | pkg/streamdeck/publish.go:135-146 | one record per call, with marshal and write failures wrapped with the event name |
| LegacyPublish.Adapter.Send | pkg/streamdeck/publish.go:45-129 | each of the nine commands writes exactly one stamped record |
| LegacyPublish.StampUnstamp | pkg/streamdeck/publish.go:45-129 | on the nine records, re-stamping gives the record back iff it carries the adapter's identities |
| LegacyInstance.NextTable | pkg/streamdeck/instance.go:60-75 | existing members are kept; the only member added is the factory's instance for the addressed context, initialised with the mux's publisher, whatever action the event names |
| LegacyInstance.InstancedAction.constructor | pkg/streamdeck/instance.go:25-30 | a new mux holds its factory, no instances and no publisher |
| LegacyInstance.InstancedAction.UUID | pkg/streamdeck/instance.go:41-43 | the UUID is the fixed counter UUID, whatever the factory |
| LegacyInstance.InstancedAction.Initialize | pkg/streamdeck/instance.go:46-48 | only the event publisher changes |
| LegacyInstance.InstancedAction.HandleEvent | pkg/streamdeck/instance.go:51-83 | a bad header is "unmarshalling action and event"; an empty context is a broadcast that fails iff some instance fails, wrapped with the (empty) context; otherwise the addressed member, created and initialised if new, gets one dispatch, its error wrapped with the context |
| LegacyInstance.InitializedOnce | pkg/streamdeck/instance.go:70-75 | over any run of events a member is never replaced or re-initialised, and each added one is initialised with the mux's publisher |
| LegacyPlugin.Lookup | pkg/streamdeck/plugin.go:50-53 | only a registered action is found; any other id, the empty one included, is "unknown action" |
| LegacyPlugin.NextTable | pkg/streamdeck/plugin.go:67-72 | existing instances are kept; the only one added is the factory's for the addressed context, with an adapter bound to the plugin, the header action and the context |
| LegacyPlugin.Holder.constructor | pkg/streamdeck/plugin.go:15-18 | a holder starts with its factory and an empty instance table |
| LegacyPlugin.Plugin.constructor | pkg/streamdeck/plugin.go:12-24 | one holder with an empty table per registered UUID, holding the last factory given for it |
| LegacyPlugin.Plugin.Initialize | pkg/streamdeck/plugin.go:35-38 | only the plugin UUID and core publisher change |
| LegacyPlugin.Plugin.HandleEvent | pkg/streamdeck/plugin.go:40-75 | a bad header or an unregistered action returns its error with nothing changed; only the named holder's table changes; an empty context broadcasts to that holder's instances, wrapped with the action; otherwise the one dispatch's result is returned unwrapped |
| Generations.HeaderNarrowing | pkg/streamdeck/instance.go:52-58 | a header struct with fewer keys decodes whenever one with more does, to the same values |
| Generations.EmptyActionPolicy | pkg/streamdeck/plugin.go:50-53 | for a non-empty action id both registries agree; an empty id is a broadcast in the root package but an unknown action in pkg/streamdeck |
| Generations.FilterOnlyInRoot | pkg/streamdeck/instance.go:52-75 | an event for another action and an unseen context leaves a DefaultAction's table unchanged but makes an InstancedAction create an instance |
| Generations.RoutesAgree | pkg/streamdeck/events.go:42-91 | on the six typed kinds both generations route alike |
| Generations.NewerKindsFallBack | pkg/streamdeck/events.go:93-97 | any other kind goes raw or nowhere in pkg/streamdeck, where the root package would decode it for its typed handler |
| Generations.AdapterStampsAlike | pkg/streamdeck/publish.go:45-129 | the adapter stamps its nine commands as the root publisher does for the same identities |
| Generations.MuxNamedForMinimalCounter | pkg/streamdeck/instance.go:41-43 | the mux's fixed UUID is the minimal counter's, not the example counter's |
| Decimal.Itoa | cmd/streamdeck-example/internal/counter/action.go:42 | the decimal spelling is non-empty, starts with '-' iff the number is negative, is otherwise digits, and has no leading zero except for 0 itself |
| Decimal.ItoaRoundTrip | cmd/streamdeck-example/internal/counter/action.go:42 | reading a title back gives the count it was made from |
| Decimal.ItoaInjective | cmd/streamdeck-example/internal/counter/action.go:42 | different counts give different titles |
| Counter.TitleFor | cmd/streamdeck-example/internal/counter/action.go:41-44 | the title command is a SetTitle on hardware and software whose title reads back as the count |
| Counter.ActionInstance.constructor | cmd/streamdeck-example/internal/counter/action.go:16-21 | the factory's instance holds the given context and publisher, with count 0 |
| Counter.ActionInstance.ActionUUID | cmd/streamdeck-example/internal/counter/action.go:31-33 | the action UUID is the fixed counter UUID |
| Counter.ActionInstance.EventContext | cmd/streamdeck-example/internal/counter/action.go:35-37 | the context is the constructed one |
| Counter.ActionInstance.HandleKeyDown | cmd/streamdeck-example/internal/counter/action.go:39-45 | the count goes up by exactly one, then exactly one SetTitle with the new count is published, and its error is the result |
| Counter.TitleRecord | cmd/streamdeck-example/internal/counter/action.go:41-44 | the record carries the instance's context and the decimal count, and always marshals |
| Counter.PressOne | cmd/streamdeck-example/internal/counter/action.go:25-29 | a key press on one instance leaves another instance's count unchanged |
| MinimalCounter.Action.constructor | cmd/streamdeck-counter/internal/counter/action.go:10-16 | the factory's instance, whatever the context: no publisher and count 0 |
| MinimalCounter.Action.UUID | cmd/streamdeck-counter/internal/counter/action.go:23-25 | the UUID is "com.craiggwilson.streamdeck.counter" |
| MinimalCounter.Action.Initialize | cmd/streamdeck-counter/internal/counter/action.go:27-29 | only the publisher is stored |
| MinimalCounter.Action.HandleKeyDown | cmd/streamdeck-counter/internal/counter/action.go:31-34 | the count goes up by exactly one, and the result is success |
| SyncCounter.Titles | cmd/streamdeck-example/internal/synccounter/action.go:24-26 | one display round writes one SetTitle per registered instance, in list order, each to that instance's context with the decimal count |
| SyncCounter.Shared.constructor | cmd/streamdeck-example/internal/synccounter/action.go:16-18 | the shared state starts with count 0 and no instances |
| SyncCounter.Shared.Create | cmd/streamdeck-example/internal/synccounter/action.go:31-42 | the factory makes a fresh instance for the context and publisher and appends it to the shared list exactly once |
| SyncCounter.Shared.Increment | cmd/streamdeck-example/internal/synccounter/action.go:21-27 | the shared count goes up by exactly one, then every registered instance is shown the new count, with failures ignored |
| SyncCounter.ActionInstance.constructor | cmd/streamdeck-example/internal/synccounter/action.go:32-36 | the instance holds its context, publisher and the shared increment |
| SyncCounter.ActionInstance.UUID | cmd/streamdeck-example/internal/synccounter/action.go:52-54 | the UUID is the fixed shared-counter UUID |
| SyncCounter.ActionInstance.Context | cmd/streamdeck-example/internal/synccounter/action.go:56-58 | the context is the constructed one |
| SyncCounter.ActionInstance.HandleKeyDown | cmd/streamdeck-example/internal/synccounter/action.go:60-63 | it runs the shared increment and always succeeds |
| SyncCounter.ActionInstance.Display | cmd/streamdeck-example/internal/synccounter/action.go:65-70 | one SetTitle with the decimal count on hardware and software; a failure is dropped |
| SyncCounter.AllShowTheSameCount | cmd/streamdeck-example/internal/synccounter/action.go:24-26 | after an increment every registered instance's title reads back as the same new count |
| StatusPlugin.Apply | cmd/streamdeck-pihole/internal/statusplugin/action.go:36 | unmarshalling a settings document overwrites only the fields it holds |
| StatusPlugin.ApplyIdempotent | cmd/streamdeck-pihole/internal/statusplugin/action.go:36 | applying a document twice is applying it once |
| StatusPlugin.Loaded | cmd/streamdeck-pihole/internal/statusplugin/action.go:18-26 | loading keeps an existing entry and creates an empty one otherwise; no other entry changes |
| StatusPlugin.LoadedIdempotent | cmd/streamdeck-pihole/internal/statusplugin/action.go:18-26 | loading is idempotent per context and does not touch other contexts |
| StatusPlugin.Title | cmd/streamdeck-pihole/internal/statusplugin/action.go:91-98 | the title is "Enabled" iff the settings are enabled, and "Disabled" otherwise |
| StatusPlugin.Toggled | cmd/streamdeck-pihole/internal/statusplugin/action.go:78 | a key release flips Enabled and changes nothing else |
| StatusPlugin.ToggleTwice | cmd/streamdeck-pihole/internal/statusplugin/action.go:78 | two key releases restore the settings, and each one changes the title |
| StatusPlugin.InTurn | cmd/streamdeck-pihole/internal/statusplugin/action.go:79-87 | of two calls made in turn, the second is made only if the first went through; each failure is wrapped with its own note |
| StatusPlugin.Client.constructor | cmd/streamdeck-pihole/internal/statusplugin/action.go:13 | the client starts with no calls made and no attempts used |
| StatusPlugin.Client.Send | cmd/streamdeck-pihole/internal/statusplugin/action.go:40 | each call is one write attempt: a failing attempt returns an error and delivers nothing, any other delivers exactly that call |
| StatusPlugin.StatusAction.constructor | cmd/streamdeck-pihole/internal/statusplugin/action.go:13-16 | the action starts with an empty settings table and uses the given client |
| StatusPlugin.StatusAction.LoadSettings | cmd/streamdeck-pihole/internal/statusplugin/action.go:18-26 | the table becomes Loaded of the old one, and the entry is returned |
| StatusPlugin.StatusAction.UpdateDisplay | cmd/streamdeck-pihole/internal/statusplugin/action.go:91-98 | exactly one SetTitle with Title(settings) on hardware and software |
| StatusPlugin.StatusAction.WillAppear | cmd/streamdeck-pihole/internal/statusplugin/action.go:28-49 | a payload decode failure is an error before any entry exists; a settings decode failure is an error after the entry is created; otherwise the entry gets the document, which is sent to the property inspector, and then the title is shown |
| StatusPlugin.StatusAction.SendToPlugin | cmd/streamdeck-pihole/internal/statusplugin/action.go:51-63 | the entry is created if absent and gets the document, which is then persisted with SetSettings; an unreadable document is an error |
| StatusPlugin.StatusAction.WillDisappear | cmd/streamdeck-pihole/internal/statusplugin/action.go:65-69 | the context's entry is deleted, every other kept, and the result is success |
| StatusPlugin.StatusAction.KeyUp | cmd/streamdeck-pihole/internal/statusplugin/action.go:71-88 | with no entry: "no settings for context", nothing sent, nothing changed; otherwise Enabled flips once, then SetSettings and then SetTitle are sent |

## Left out

- Transport. The websocket, its lock, and the process and CLI setup are left out. The core publisher is a connection
  that is open (every write recorded) or failed (every write refused). The status action's client is scripted by the
  write attempts that fail.
- Sent.Marshal stands for `json.Marshal` of an outbound record. Its only modelled behaviour is that it fails on
  embedded raw JSON that is not well formed. Byte-level encoding is not modelled, so it has no row above.
- JSON byte encoding. The model has no JSON bytes. Inbound messages are abstract field maps, and a well-formedness flag
  stands for what `encoding/json` would accept. Case-insensitive key matching and the partial fill that
  `json.Unmarshal` leaves behind on an error are not modelled.
- Handler code. What instances' handlers do to their own state, when they run inside the framework, is the
  `Behaviour` parameter. Factories are pure functions, so they cannot allocate. For that reason the example actions are
  standalone classes: the counters' `New` factories are their instance constructors, and the shared counter's factory
  is `Shared.Create`.
- Custom `Action` implementations registered with `DefaultPlugin` are left out. The model registers `DefaultAction`s,
  which implement only the generic handler (`Events.GenericOnlyTargetGetsRaw`). The plugin therefore calls their
  `HandleEvent` directly.
- Publish.InstancePublisher.Send and LegacyPublish.Adapter.Send model the command methods as one method over a
  `Command` value. The SwitchToProfile, LogMessage and OpenURL payload structs are reduced to their one string field.
- Publish.InstancePublisher.Publish requires a core publisher. In Go, a publisher built before `Initialize` holds a nil
  core publisher, and publishing from it would crash.
- SyncCounter.Shared.Increment requires every instance's publisher to share one core connection. That is true of every
  publisher a plugin creates. The mutex is not modelled, so calls are sequential.
- Logging. The `log.Printf` calls are not modelled. These are the status action's handlers (cmd/streamdeck-pihole/internal/statusplugin/action.go:29, 52, 66, 72) and the core connection's log of what it sends and receives. They affect no state and no result.
- Integer width is not modelled. Go's `int` counters would wrap around after 2^63 - 1 key presses; the model's do not.
- `pkg/streamdeck` does not compile as written:
  - the plugin calls `factory.UUID()` on an interface without it;
  - `CreateActionInstance` is called with two arguments but declared with one;
  - `cmd/streamdeck-counter/internal/execute.go:18-20` passes the minimal counter's `Action` (an `*InstancedAction`)
    to `NewPlugin`, which takes `ActionInstanceFactory` values.
  The model follows the evident intent: a factory has a UUID and creates an instance from a context and an adapter.
- The example counter calls `streamdeck.NewInstancedAction(uuid, factory)`, which the root package does not define.
  Its instance is modelled as `DefaultAction` would create it.
- The background workers (the pi-hole monitor, the status state machine and the status action) are left out because
  they depend on goroutines, channels and the wall clock. The HTTP client is left out as an external call.

## Findings

| source | as written | input that shows it | evidently intended | confidence | as-written member | corrected member |
|---|---|---|---|---|---|---|
| streamdeckevent/received.go:58 | the payload of `DidReceiveGlobalSettings` is read from the key "settings" | `{"event":"didReceiveGlobalSettings","payload":{"settings":{"enabled":true}}}`, as the host sends it, decodes with an empty payload | read the payload from "payload", as every other event struct does | not executed | Received.GlobalSettingsDroppedAsWritten | Received.PayloadDelivered |
| pkg/streamdeck/streamdeckcore/types.go:20 | the same "settings" tag on the older generation's global-settings event | the same message decodes with empty settings | read the payload from "payload" | not executed | LegacyTypes.GlobalSettingsDroppedAsWritten | Received.Decode |
