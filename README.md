# Remote-controlled IPTV playback client — a Dafny model

This project models the logic of a television streaming client that is driven by a remote control. It covers:

- **Key codes to intents** (`RemoteControl`). The `keydown` switch turns a raw key code into at most one call of a bound handler. Its JavaScript first-match rule is written out as an ordered table of case clauses. The module also models how the hardware back signal is routed on Android.
- **The playback controller** (`Player`).
  - A `Snapshot` record holds the player's state fields.
  - A pure reaction function `Step` says what each remote intent or video-surface event does to that record. The reaction includes the call made to the owner (close the session, change channel) and the seek command given to the surface.
  - The class `StreamingPlayer` has one method per handler. Each method updates the fields in place, keeps the session it was given, and is proved to agree with `Step` applied to the session and state before the call.
  - The playback rate is kept in halves: 1 means 0.5x and 4 means 2.0x.
  - The module also holds the `h:mm:ss` clock label.
- **The catalog service client** (`Catalog`).
  - The class `CatalogApi` holds the configuration and the base address. The base address is normalised by dropping one trailing slash.
  - The configured guard, the stream-address pattern `{base}/{type}/{id}.{ext}`, and the rule for the optional `category_id` request parameter.
- **The programme guide** (`Guide`).
  - Whether a programme is live or past, relative to the clock, and its progress percentage.
  - The duration label.
  - Grouping a schedule by day label. The guide builds a dictionary one programme at a time and then sorts each day by start. This is proved to agree with a specification by first appearance.
- **The main screen** (`Navigation`).
  - Moving to the next or previous channel, with wrap-around.
  - The "All" category tab and the category selection.
  - The configuration form's check, loading the listing, and opening and closing the player.
  - These are the methods of the class `MainApp`.
- **The television focus rule of the channel grid** (`Focus`).

`Wrappers` holds `Option` and `Result`. `Text` holds decimal rendering and parsing of integers, `padStart`, and splitting at a separator. Together these are what the template literals of the source do to the model's integers.

The clock, the network, storage and the date-label locale are not modelled directly. Each reaches the model as a parameter:

- `now` is the current time in seconds.
- `serverAccepts` is the server's answer to the authentication request.
- `categoryFetch` and `channelFetch` are the results of the two listing fetches. `None` means the fetch failed or the server answered nothing.
- `Stored` is the saved configuration as read back from storage.
- `dateLabel` is the locale day label of a timestamp.
- `hasDocument` says whether a document exists.

## Model

| member | source | states |
|---|---|---|
| Text.IntToStringRoundTrip | src/services/xtremeCodesAPI.ts:220 | the decimal form of an integer, as a template literal writes it, reads back as that integer |
| Text.PadStart2 | src/components/StreamingPlayer.tsx:191 | `padStart(2, '0')` keeps the text as its suffix, only adds zeros in front, and reaches length two |
| RemoteControl.FirstMatchFrom | src/hooks/useRemoteControl.ts:35-142 | the clause selected is one whose labels include the code |
| RemoteControl.Labels | src/hooks/useRemoteControl.ts:35-142 | the labels of clause j, in source order; every label is one of the listed codes |
| RemoteControl.Body | src/hooks/useRemoteControl.ts:35-142 | the body of clause j: only the digit clause calls `onNumber`, only the trailing clause tests for 66, and no fixed call is a number |
| RemoteControl.FirstMatchSpec | src/hooks/useRemoteControl.ts:35-142 | first-match: no earlier clause lists the code, and no clause is selected exactly when no clause lists it |
| RemoteControl.HandleKeyDown | src/hooks/useRemoteControl.ts:35-142 | a handler is called only for a code whose event has its default prevented |
| RemoteControl.UnlistedIgnored | src/hooks/useRemoteControl.ts:35-142 | a code no clause lists is neither prevented nor handled |
| RemoteControl.Selects | src/hooks/useRemoteControl.ts:35-142 | the first clause listing the code decides the handler call |
| RemoteControl.ArrowAliases | src/hooks/useRemoteControl.ts:37-56 | 19/38 give Up, 20/40 Down, 21/37 Left, 22/39 Right, and aliases behave identically |
| RemoteControl.EnterKeys | src/hooks/useRemoteControl.ts:59-63 | 23, 13 and 66 all give Enter |
| RemoteControl.BackAndMenuKeys | src/hooks/useRemoteControl.ts:64-72 | 4 and 27 give Back; 82 gives Menu |
| RemoteControl.PlayPauseKeys | src/hooks/useRemoteControl.ts:75-79 | 85 and 179 give PlayPause |
| RemoteControl.FastForwardKeys | src/hooks/useRemoteControl.ts:80-84 | 87 and 228 give FastForward |
| RemoteControl.RewindKeys | src/hooks/useRemoteControl.ts:85-89 | 88 and 227 give Rewind |
| RemoteControl.VolumeKeys | src/hooks/useRemoteControl.ts:92-99 | 24 gives VolumeUp and 25 gives VolumeDown |
| RemoteControl.MuteKey | src/hooks/useRemoteControl.ts:100-103 | 164 gives Mute |
| RemoteControl.ChannelUpKey | src/hooks/useRemoteControl.ts:106-109 | 166 gives ChannelUp |
| RemoteControl.ChannelDownKey | src/hooks/useRemoteControl.ts:110-113 | 167 gives ChannelDown |
| RemoteControl.OnlyDigitCaseNumbers | src/hooks/useRemoteControl.ts:116-129 | only the digit clause produces a number intent |
| RemoteControl.DigitKeys | src/hooks/useRemoteControl.ts:116-129 | digit codes other than 13 give Number(code − 7), a digit in 0..9 |
| RemoteControl.NoDigitSix | src/hooks/useRemoteControl.ts:116-129 | every number produced is code − 7 in 0..9 and never 6, because code 13 is taken by the Enter clause first |
| RemoteControl.DigitOrder | src/hooks/useRemoteControl.ts:116-129 | a higher digit code gives a higher digit |
| RemoteControl.FireStickCaseOnly66 | src/hooks/useRemoteControl.ts:132-141 | the trailing clause is selected only by 66; its labels 19–22 are unreachable |
| RemoteControl.Invoke | src/hooks/useRemoteControl.ts:35-142 | the handler actually called is the one for the switch's intent, and only if it is bound |
| RemoteControl.InvokeBound | src/hooks/useRemoteControl.ts:35-142 | a missing handler makes the key a no-op; a bound one is called exactly for its intent |
| RemoteControl.Subscribe | src/hooks/useRemoteControl.ts:29-183 | disabled installs nothing; enabled installs the back listener on Android and key listeners where a document exists |
| RemoteControl.HardwareBackPress | src/hooks/useRemoteControl.ts:150-155 | a hardware back press is handled only with the listener installed; it calls a bound `onBack` and is always consumed |
| RemoteControl.KeyEvent | src/hooks/useRemoteControl.ts:158-175 | key codes reach the switch only through an installed key listener |
| RemoteControl.AndroidBackAlwaysConsumed | src/hooks/useRemoteControl.ts:150-155 | enabled on Android, back calls `onBack` and returns true; disabled, nothing is subscribed |
| Catalog.StripTrailingSlash | src/services/xtremeCodesAPI.ts:59 | exactly one final slash is removed, if present; otherwise the address is unchanged |
| Catalog.StripOnlyOne | src/services/xtremeCodesAPI.ts:59 | an address ending in two slashes keeps one |
| Catalog.EffectiveBaseUrl | src/services/xtremeCodesAPI.ts:59 | corrected rule: the forced portal's address if one is set, else the entered one, without its final slash |
| Catalog.EffectiveBaseUrlAsWritten | src/services/xtremeCodesAPI.ts:59 | as written, a forced portal makes the computation fail; without one it matches the corrected rule |
| Catalog.ShippedPortalAgrees | src/config/portal.ts:42 | with the shipped configuration (no forced portal) the code as written and the corrected rule agree |
| Catalog.ForcedPortalBreaksAsWritten | src/config/portal.ts:34-42 | forcing a portal as the configuration file instructs fails as written; the corrected rule uses the portal's address |
| Catalog.StreamSegment | src/services/xtremeCodesAPI.ts:213-219 | the type segment is the stream type for live, movie and series, and `live` for any other input |
| Catalog.StreamPathDecodes | src/services/xtremeCodesAPI.ts:220 | the path `/{type}/{id}.{ext}` reads back as the segment, the stream id and the extension |
| Catalog.StreamPath | src/services/xtremeCodesAPI.ts:220 | the path starts with a slash and ends with a dot and the extension |
| Catalog.CatalogApi.constructor | src/services/xtremeCodesAPI.ts:52-53 | the client starts with no configuration and an empty base address |
| Catalog.CatalogApi.EnsureConfigured | src/services/xtremeCodesAPI.ts:86-90 | succeeds exactly when a configuration and a non-empty base address are present, and otherwise fails with "No configuration set" |
| Catalog.CatalogApi.SetConfig | src/services/xtremeCodesAPI.ts:55-64 | keeps the whole record, original address included, and sets the normalised base address |
| Catalog.CatalogApi.LoadConfig | src/services/xtremeCodesAPI.ts:67-83 | a saved record is adopted and returned; a missing or unreadable one returns null and changes nothing |
| Catalog.CatalogApi.Authenticate | src/services/xtremeCodesAPI.ts:118-126 | true exactly when configured and the server accepts; every failure reads as false |
| Catalog.CatalogApi.GetStreamUrl | src/services/xtremeCodesAPI.ts:206-221 | fails with "No configuration set" exactly when unconfigured; otherwise the address starts with the base address |
| Catalog.StreamUrlRoundTrip | src/services/xtremeCodesAPI.ts:206-221 | a configured client's stream address is the base address followed by a path that reads back as the segment, the id and the extension (`ts` by default) |
| Catalog.SlashOnlyUrlIsUnconfigured | src/services/xtremeCodesAPI.ts:55-90 | a client set to the entered address "/" with no forced portal is unconfigured: the guard fails with "No configuration set", stream addresses fail, and authentication is false |
| Catalog.StreamsParams | src/services/xtremeCodesAPI.ts:164-204 | `action` names the kind of listing; `category_id` is present exactly for a truthy category and reads back as it |
| Player.FitIndex | src/components/StreamingPlayer.tsx:179-180 | a mode's index in the three-mode list is in range and points back at it |
| Player.NextFitMode | src/components/StreamingPlayer.tsx:178-183 | the next mode differs from the current one and sits one index further, modulo three |
| Player.FitModeCycle | src/components/StreamingPlayer.tsx:178-183 | the cycle is contain → cover → stretch → contain, and three steps are the identity |
| Player.OnIntent | src/components/StreamingPlayer.tsx:51-114 | no intent touches duration, fit mode, loading, error or overlay; only Left and Right seek, off live channels, to the recorded position; only Back with the guide closed closes the session; channel requests need a wired owner |
| Player.Step | src/components/StreamingPlayer.tsx:51-366 | a seek comes only from an off-live intent or, to 0, from the end of a live stream; the session closes exactly on the close button or on Back with the guide closed; only load changes the duration, and only load start and errors change the error; channel requests, from the remote or the on-screen buttons, need a wired owner |
| Player.LeftSeek | src/components/StreamingPlayer.tsx:59-64 | seeks back 10 s and commands the surface only when the channel is not live and past 10 s; otherwise nothing changes; the position stays positive |
| Player.RightSeek | src/components/StreamingPlayer.tsx:65-70 | seeks forward 10 s only when the channel is not live and more than 10 s remain; otherwise nothing changes; the position stays below the duration |
| Player.SeeksStayInRange | src/components/StreamingPlayer.tsx:59-70 | a position within [0, duration] stays within it under Left and Right |
| Player.RateSteps | src/components/StreamingPlayer.tsx:87-98 | FastForward is min(rate + 0.5, 2.0) and Rewind is max(rate − 0.5, 0.5), both off on live channels, both fixed at their bound |
| Player.LiveIgnoresSeekAndRate | src/components/StreamingPlayer.tsx:59-98 | on a live channel Left, Right, FastForward and Rewind change nothing |
| Player.Toggles | src/components/StreamingPlayer.tsx:71-107 | Enter and PlayPause flip only `isPlaying`; Mute flips only `isMuted`; a second press undoes the first |
| Player.BackClosesGuideFirst | src/components/StreamingPlayer.tsx:74-80 | with the guide open Back only closes it; with it closed Back asks once to close the session; the guide ends closed; hardware back does the same |
| Player.ChannelRequests | src/components/StreamingPlayer.tsx:53-113 | Up and ChannelDown ask for the previous channel, Down and ChannelUp for the next, only when channel changes are wired |
| Player.EndOfStream | src/components/StreamingPlayer.tsx:155-164 | at the end a live channel seeks to 0 and plays; anything else stops; the recorded position is untouched |
| Player.VideoEvents | src/components/StreamingPlayer.tsx:139-153 | load start sets loading and clears the error; load records the duration; an error stops loading and shows a fixed message independent of its detail |
| Player.RetryLeavesError | src/components/StreamingPlayer.tsx:258 | the retry button only resumes playback; the error stays until the next load start clears it |
| Player.AutoHideOnlyWhenArmed | src/components/StreamingPlayer.tsx:116-124 | the hide timer hides the overlay only while overlay and playback are both on, and changes nothing else |
| Player.NumbersIgnored | src/components/StreamingPlayer.tsx:51-114 | the player binds no number handler, so number intents change nothing |
| Player.IntentRate | src/components/StreamingPlayer.tsx:51-114 | every intent keeps the rate valid; on a live channel no intent changes the rate or the position |
| Player.StepKeepsRate | src/components/StreamingPlayer.tsx:87-98 | every event keeps the rate in {0.5, 1.0, 1.5, 2.0} |
| Player.RunKeepsRate | src/components/StreamingPlayer.tsx:87-98 | from any valid rate, such as the initial 1.0, every sequence of events keeps the rate in {0.5, 1.0, 1.5, 2.0} |
| Player.LiveStep | src/components/StreamingPlayer.tsx:59-98 | on a live channel no event changes the rate, and only a progress report moves the position |
| Player.LiveRunKeepsRate | src/components/StreamingPlayer.tsx:87-98 | on a live channel no sequence of events changes the rate |
| Player.LivePositionFollowsProgressOnly | src/components/StreamingPlayer.tsx:196-221 | on a live channel only progress reports move the recorded position |
| Player.KeysReachingPlayer | src/components/StreamingPlayer.tsx:51-114 | through the hook, digit keys never change the player, and 23, 13 and 66 toggle playback |
| Player.FormatTimeRoundTrip | src/components/StreamingPlayer.tsx:185-194 | the `h:mm:ss` or `m:ss` label reads back as the number of seconds it was made from |
| Player.FormatTime | src/components/StreamingPlayer.tsx:185-194 | the label ends with a colon and two digits of seconds |
| Player.StreamingPlayer.constructor | src/components/StreamingPlayer.tsx:39-48 | mounting plays if autoplay is on; it starts loading, with overlay shown, rate 1.0x, contain, guide closed, times 0 and no error |
| Player.StreamingPlayer.SetChannel | src/components/MainApp.tsx:359-366 | a channel change re-renders the mounted player: only the stream type changes, and every state field carries over |
| Player.StreamingPlayer.OnUp | src/components/StreamingPlayer.tsx:53-55 | keeps the session; the new state and calls are the reaction to Up, taken on the session and state before the call |
| Player.StreamingPlayer.OnDown | src/components/StreamingPlayer.tsx:56-58 | keeps the session; the new state and calls are the reaction to Down, taken on the session and state before the call |
| Player.StreamingPlayer.OnLeft | src/components/StreamingPlayer.tsx:59-64 | keeps the session; the new state and calls are the reaction to Left, seek command included, taken on the session and state before the call |
| Player.StreamingPlayer.OnRight | src/components/StreamingPlayer.tsx:65-70 | keeps the session; the new state and calls are the reaction to Right, seek command included, taken on the session and state before the call |
| Player.StreamingPlayer.SeekToPosition | src/components/StreamingPlayer.tsx:196-199 | commands the surface to the position and records it, changing nothing else |
| Player.StreamingPlayer.OnEnter | src/components/StreamingPlayer.tsx:71-73 | keeps the session; the new state and calls are the reaction to Enter, taken on the session and state before the call |
| Player.StreamingPlayer.OnBack | src/components/StreamingPlayer.tsx:74-80 | keeps the session; the new state and calls are the reaction to Back, taken on the session and state before the call |
| Player.StreamingPlayer.OnHardwareBack | src/components/StreamingPlayer.tsx:127-137 | keeps the session; the new state and calls are the reaction to hardware back, and always reports the press consumed, taken on the session and state before the call |
| Player.StreamingPlayer.OnMenu | src/components/StreamingPlayer.tsx:81-83 | keeps the session; the new state and calls are the reaction to Menu, taken on the session and state before the call |
| Player.StreamingPlayer.OnPlayPause | src/components/StreamingPlayer.tsx:84-86 | keeps the session; the new state and calls are the reaction to PlayPause, taken on the session and state before the call |
| Player.StreamingPlayer.OnFastForward | src/components/StreamingPlayer.tsx:87-92 | keeps the session; the new state and calls are the reaction to FastForward, taken on the session and state before the call |
| Player.StreamingPlayer.OnRewind | src/components/StreamingPlayer.tsx:93-98 | keeps the session; the new state and calls are the reaction to Rewind, taken on the session and state before the call |
| Player.StreamingPlayer.OnVolume | src/components/StreamingPlayer.tsx:99-104 | the volume handlers change nothing |
| Player.StreamingPlayer.OnMute | src/components/StreamingPlayer.tsx:105-107 | keeps the session; the new state and calls are the reaction to Mute, taken on the session and state before the call |
| Player.StreamingPlayer.OnChannelUp | src/components/StreamingPlayer.tsx:108-110 | keeps the session; the new state and calls are the reaction to ChannelUp, taken on the session and state before the call |
| Player.StreamingPlayer.OnChannelDown | src/components/StreamingPlayer.tsx:111-113 | keeps the session; the new state and calls are the reaction to ChannelDown, taken on the session and state before the call |
| Player.StreamingPlayer.HandleLoadStart | src/components/StreamingPlayer.tsx:139-142 | keeps the session; the new state and calls are the reaction to load start, taken on the session and state before the call |
| Player.StreamingPlayer.HandleLoad | src/components/StreamingPlayer.tsx:144-147 | keeps the session; the new state and calls are the reaction to load, taken on the session and state before the call |
| Player.StreamingPlayer.HandleError | src/components/StreamingPlayer.tsx:149-153 | keeps the session; the new state and calls are the reaction to a video error, taken on the session and state before the call |
| Player.StreamingPlayer.HandleProgress | src/components/StreamingPlayer.tsx:221 | keeps the session; the new state and calls are the reaction to a progress report, taken on the session and state before the call |
| Player.StreamingPlayer.HandleEnd | src/components/StreamingPlayer.tsx:155-164 | keeps the session; the new state and calls are the reaction to the end of the stream, seek command included, taken on the session and state before the call |
| Player.StreamingPlayer.TogglePlayPause | src/components/StreamingPlayer.tsx:166-168 | keeps the session; the new state and calls are the reaction to the play button, taken on the session and state before the call |
| Player.StreamingPlayer.ToggleMute | src/components/StreamingPlayer.tsx:170-172 | keeps the session; the new state and calls are the reaction to the mute button, taken on the session and state before the call |
| Player.StreamingPlayer.ToggleControls | src/components/StreamingPlayer.tsx:174-176 | keeps the session; the new state and calls are the reaction to a touch on the screen, taken on the session and state before the call |
| Player.StreamingPlayer.CycleResizeMode | src/components/StreamingPlayer.tsx:178-183 | keeps the session; the new state and calls are the reaction to the fit button, taken on the session and state before the call |
| Player.StreamingPlayer.Retry | src/components/StreamingPlayer.tsx:258 | keeps the session; the new state and calls are the reaction to the retry button, taken on the session and state before the call |
| Player.StreamingPlayer.SetGuide | src/components/StreamingPlayer.tsx:286-289 | keeps the session; the new state and calls are the reaction to the guide button (open) and to the guide's close button (closed), taken on the session and state before the call |
| Player.StreamingPlayer.ShouldArmAutoHide | src/components/StreamingPlayer.tsx:117-118 | the timer is armed exactly while the overlay shows and playback runs |
| Player.StreamingPlayer.OnAutoHide | src/components/StreamingPlayer.tsx:119-121 | keeps the session; the new state and calls are the reaction to the hide timer, taken on the session and state before the call |
| Guide.Classification | src/components/EPG.tsx:80-88 | never both live and past; a programme with start ≤ end is upcoming, live or past; its end second is still live and not past |
| Guide.IsProgramLive | src/components/EPG.tsx:80-83 | live means start ≤ now ≤ end |
| Guide.IsProgramPast | src/components/EPG.tsx:85-88 | a past programme is not live, whatever its start |
| Guide.ClassificationExample | src/components/EPG.tsx:80-88 | 1000–2000 is live at 1500 and at 2000, and past at 2001 |
| Guide.ProgressBounds | src/components/EPG.tsx:90-94 | 0 outside the programme; within [0, 100] for a programme of positive length, 0 at its start and 100 at its end; undefined only for 0/0 |
| Guide.ProgramProgress | src/components/EPG.tsx:90-94 | 0 whenever the programme is not live; undefined exactly for a zero-length programme at its own second |
| Guide.JsRem60 | src/components/EPG.tsx:72 | the JavaScript remainder: Euclidean for a non-negative dividend, in (−60, 0] for a negative one |
| Guide.DurationShape | src/components/EPG.tsx:69-78 | from 60 minutes on the label is "{m/60}h {m%60}m" with minutes below 60; below that it is "{m}m" |
| Guide.FormatDuration | src/components/EPG.tsx:69-78 | the label ends in `m` after at least one character |
| Guide.FormatDurationRoundTrip | src/components/EPG.tsx:69-78 | the label reads back as the whole minutes ⌊(end − start)/60⌋ |
| Guide.SortByStart | src/components/EPG.tsx:109 | the result is sorted by start and is a permutation of the input |
| Guide.MembersSpec | src/components/EPG.tsx:99-105 | a programme is filed under a day exactly when it is in the schedule with that day label |
| Guide.DaysSpec | src/components/EPG.tsx:96-106 | the day keys are distinct, and a day is a key exactly when some programme falls on it |
| Guide.FileProgram | src/components/EPG.tsx:99-105 | filing one more programme, creating its day's entry on first sight, keeps the table in agreement with the schedule |
| Guide.FileByDate | src/components/EPG.tsx:97-105 | after the pass the keys are the days in order of first appearance and each entry holds its day's programmes in schedule order |
| Guide.CollectGroups | src/components/EPG.tsx:107-110 | the entries become groups in key order, each sorted by start |
| Guide.GroupProgramsByDate | src/components/EPG.tsx:96-111 | the grouping built in place equals the specification by first appearance |
| Guide.GroupByDate | src/components/EPG.tsx:96-111 | one group per day label, in order of first appearance |
| Guide.GroupingKeepsPrograms | src/components/EPG.tsx:96-111 | taken together the groups hold exactly the multiset of the schedule's programmes |
| Guide.GroupingPlacesEachProgramOnce | src/components/EPG.tsx:96-111 | group labels are distinct; each group is sorted by start; a programme is in a group exactly when its label is that group's; every programme has a group |
| Navigation.FindIndex | src/components/MainApp.tsx:274 | the first position with the current channel's id, or −1 when there is none or no current channel |
| Navigation.NextIndex | src/components/MainApp.tsx:277-278 | from −1 or any index of a non-empty list, the next index is valid; it is either 0 or one more |
| Navigation.PrevIndex | src/components/MainApp.tsx:279-280 | from −1 or any index of a non-empty list, the previous index is valid; it is either the last or one less |
| Navigation.PickChannel | src/components/MainApp.tsx:273-287 | nothing is picked exactly for an empty list; otherwise the pick is a channel of the list |
| Navigation.WrapAround | src/components/MainApp.tsx:277-280 | next is i + 1, wrapping from the last index to 0; prev is i − 1, wrapping from 0 to the last |
| Navigation.StepsStayInList | src/components/MainApp.tsx:274-281 | from any index of a non-empty list, or from −1, both directions give a valid index |
| Navigation.MissingCurrentChannel | src/components/MainApp.tsx:274-286 | a current channel missing from a non-empty list: next picks the first channel, prev the last |
| Navigation.EmptyListPicksNothing | src/components/MainApp.tsx:283-286 | an empty list gives nothing to switch to |
| Navigation.NonEmptyListPicks | src/components/MainApp.tsx:274-286 | a non-empty list always gives a channel of the list |
| Navigation.NextPrevInverse | src/components/MainApp.tsx:273-287 | with distinct ids, next then prev, and prev then next, come back to the channel playing |
| Navigation.Tabs | src/components/MainApp.tsx:162 | the synthetic "All" tab with id 0 comes first, followed by the service's categories |
| Navigation.CategorySelection | src/components/MainApp.tsx:178-180 | pressing "All" (id 0) selects no category; any other tab selects its own id |
| Navigation.CategoryArgument | src/components/MainApp.tsx:233 | the `or undefined` guard passes a category only when it is set and non-zero |
| Navigation.ListingRequest | src/components/MainApp.tsx:230-242 | the listing request carries `category_id` exactly for a non-zero selection |
| Navigation.AllTabNeverHighlighted | src/components/MainApp.tsx:176 | as written, once "All" is pressed no tab is highlighted, "All" included |
| Navigation.PressedTabHighlighted | src/components/MainApp.tsx:176 | corrected rule: the pressed tab, "All" included, is highlighted, and no tab with another id is |
| Navigation.MainApp.constructor | src/components/MainApp.tsx:197-206 | unconfigured, with no channel, empty lists, no category, live kind, no address and no player |
| Navigation.MainApp.Startup | src/components/MainApp.tsx:209-221 | the saved configuration and its normalised base address are adopted, and the main screen shows when the server accepts it; without a saved record the client is unchanged |
| Navigation.MainApp.SaveConfig | src/components/MainApp.tsx:31-52 | an empty field only raises "Please fill in all fields" and configures nothing; otherwise the record is set, and the screen is configured on acceptance or alerts on refusal |
| Navigation.MainApp.LoadData | src/components/MainApp.tsx:224-253 | requests the listing for the current kind and category; each list becomes what its fetch returned, or empty when that fetch failed, independently; no alert is raised |
| Navigation.FetchedOrEmpty | src/services/xtremeCodesAPI.ts:128-204 | a listing fetch gives the fetched list, or an empty list when it failed |
| Navigation.MainApp.SelectChannel | src/components/MainApp.tsx:262-271 | with a stream address the player opens on the channel; otherwise only the "Failed to get stream URL" alert |
| Navigation.MainApp.ChangeChannel | src/components/MainApp.tsx:273-287 | selects the neighbouring channel when the list has one, and otherwise changes nothing |
| Navigation.MainApp.ClosePlayer | src/components/MainApp.tsx:289-293 | hides the player, clears the channel and the stream address, and changes nothing else |
| Navigation.MainApp.SelectCategory | src/components/MainApp.tsx:178-180 | the selection becomes the pressed tab's selection |
| Navigation.MainApp.SelectStreamType | src/components/MainApp.tsx:314-317 | switching kind always resets the category to none |
| Focus.AfterFocus | src/components/FocusableChannelGrid.tsx:34 | after focusing a card, that card shows focused at any position and no other id does |
| Focus.Focused | src/components/FocusableChannelGrid.tsx:26-27 | a card shows focused only when its id is the remembered one, or when nothing is remembered and it is first |
| Focus.AfterBlur | src/components/FocusableChannelGrid.tsx:35-37 | blur clears the remembered id only if it is the card's own; otherwise nothing changes |
| Focus.AtMostOneFocused | src/components/FocusableChannelGrid.tsx:26-27 | with distinct ids at most one card shows as focused in any state |
| Focus.FocusSelectsOne | src/components/FocusableChannelGrid.tsx:26-34 | after focusing card k, card k and only card k shows as focused |
| Focus.BlurAfterFocus | src/components/FocusableChannelGrid.tsx:34-37 | blurring the focused card returns to the default (the first card); a late blur of another card changes nothing |
| Focus.ChannelGrid.constructor | src/components/FocusableChannelGrid.tsx:22 | nothing is remembered at first, so the first card shows as focused |
| Focus.ChannelGrid.OnFocus | src/components/FocusableChannelGrid.tsx:34 | the remembered id becomes the focus rule's result |
| Focus.ChannelGrid.OnBlur | src/components/FocusableChannelGrid.tsx:35-37 | the remembered id becomes the blur rule's result |

## Left out

- Rendering is not modelled: the JSX layout, styles, the modal, the lists and scroll views, the loading indicators, the card's type label, the progress bar width and the error panel's visibility. Only the handlers behind the buttons are modelled.
- The player's `showControls` property only affects rendering and is not modelled.
- The video component is not modelled: buffering, text tracks, `repeat`, and what `seek` does to the picture. A seek is a command carried in the reaction, and `seekTo` also records the position.
- Timers are not modelled as time. The five-second hide timer is an `AutoHide` event, guarded by the arming predicate. The guide's one-minute clock refresh becomes the `now` parameter.
- Listener lifecycles are not modelled: registering and removing listeners, and the order in which Android runs several back listeners. While the player is mounted its own back listener answers first; it behaves like the hook's `onBack`, and both report the press as consumed.
- Values captured by closures at render time are not modelled. Each event sees the current fields. A React update that lands after another event is not modelled, for example a card's blur arriving after another card's focus.
- Network requests are not modelled: `makeRequest`, the category, stream, guide, series and film fetches, and the HTTP status handling. Their outcomes reach the model as parameters (`serverAccepts`, `categoryFetch`, `channelFetch`). Every fetch catches its own failure and answers an empty list, so the main screen's "Failed to load channels" alert cannot be reached and is not modelled.
- Storage is not modelled: the storage write in `setConfig`, and reading and JSON-decoding in `loadConfig`. A read comes in as `Stored`.
- The setup screen's "Failed to connect to server" alert is not modelled. A failing storage write reaches it, and so does the forced-portal failure of the first finding.
- Catalog.CatalogApi.SetConfig: with a forced portal it follows the corrected rule and sets the portal's address. As written, the record is stored and then the address computation throws, leaving the base address as it was.
- Catalog.CatalogApi.LoadConfig: with a forced portal it follows the corrected rule. As written, the record is adopted, the address computation throws, and the catch returns null with the base address unchanged.
- Navigation.MainApp.Startup: inherits the corrected rule from `LoadConfig`. As written, a forced portal makes start-up skip authentication.
- Navigation.MainApp.SaveConfig: inherits the corrected rule from `SetConfig`. As written, a forced portal ends in the "Failed to connect to server" alert.
- Text.IntToString: integers print in positional decimal. JavaScript writes exponent form from 10^21 on, and its numbers are inexact above 2^53; stream and category ids never reach that range.
- The loading flags of the setup screen and the main screen only drive indicators and are not modelled.
- The main screen reloads the listing when the kind or the category changes. That effect is not modelled as automatic: `LoadData` is called explicitly.
- Locale formatting is a parameter: `toLocaleDateString` becomes `dateLabel`, and the guide's time-of-day labels are not modelled.
- Floating point is not modelled. Rates are whole halves and times are whole seconds. The loaded duration and progress times are fractional in the source; `FormatTime` takes whole seconds, so the source's `Math.floor` of a fraction is not modelled. The guide's progress uses exact `real` arithmetic, and a NaN result is `None`.
- Catalog.StreamSegment: inherited object keys such as `constructor` are not modelled. In the source such a key finds a truthy inherited member of the type map instead of falling back to `live`.
- Guide.GroupByDate: keys are enumerated in insertion order. JavaScript enumerates integer-like keys first, but locale day labels are never integer-like. Inherited keys such as `constructor` are not modelled either.
- Guide.SortByStart: it is an insertion sort, and therefore stable like the engine's sort, but stability is not stated as a lemma.
- Guide.FormatDurationRoundTrip: holds for durations above −60 minutes. Below that, the label carries only the negative remainder, so it cannot read back.
- The guide screen's own fetch of the schedule and its rendering of groups are not modelled; the grouping and classification rules are.
- Native focus is not modelled: preferred focus and the platform's focus engine. The model starts from the `onFocus` and `onBlur` calls.

## Findings

| source | as written | input that shows it | evidently intended | confidence | as-written member | corrected member |
|---|---|---|---|---|---|---|
| src/services/xtremeCodesAPI.ts:59 | `(FIXED_PORTAL ?? config.url).replace(...)` calls `replace` on whatever the override holds, but src/config/portal.ts:34-42 documents the override as a portal record | set the override to the first portal, as the configuration file's own example shows, then save any configuration: `replace` is not a function of the record | use the portal's address, `FIXED_PORTAL?.url ?? config.url`, then drop the final slash | not executed; high | Catalog.ForcedPortalBreaksAsWritten | Catalog.EffectiveBaseUrl |
| src/components/MainApp.tsx:176 | a tab is highlighted when `selectedCategory === category.category_id`, but pressing "All" stores `null` (lines 178-180) while the tab's id is 0 | start the app, or press "All": the selection is `null`, `null === 0` is false, and no tab is highlighted | highlight "All" when no category is selected, and otherwise the tab whose id is selected | not executed; medium | Navigation.AllTabNeverHighlighted | Navigation.PressedTabHighlighted |
