# Audio manager, VPN management API handlers and merchant onboarding form — a Dafny model

This project models six parts of the repository.

- **`AudioManager`** (`audio.dfy`) is the browser audio helper. It owns a Web Audio graph: source, then a 512-point analyser with 256 frequency bins, then a gain node. From the analyser's byte spectrum it computes:
  - the average of five named frequency bands;
  - an overall level;
  - a beat detector that smooths the bass band and holds each beat for three further calls.

  The class keeps the fields the JavaScript class updates in place. Each analysis method is proved against a pure specification function (`BandLevel`, `Level`, `BeatStep`), and the beat detector's behaviour over sequences of calls is proved about `BeatStep`.
- **The management API handlers** of the Go VPN service:
  - `management_api.dfy` (from `api.go`): username and user-input validation with the defaults applied on creation, the request filter, the CORS allow-list, the security middleware's decision order, end-node path routing, the OVPN download path, and the synthetic end-node audit logs.
  - `auth.dfy` (from `auth.go`): the mock one-time-password service (a class over its code store), phone-number and password validation, the order of the registration checks, and the login guard.
  - `stats.dfy` (from `stats.go`): Bearer header parsing, JWT validation over a verifier parameter, the status whitelist and its timestamps, the statistics non-negativity check, the admin list and the rule for who may read whose statistics.
  - `locations.dfy` (from `locations.go`): latency tiers, load percentages, location enrichment, the sample fallback, and parsing of the location ID.
- **`MerchantOnboarding`** (`onboarding.dfy`) is the three-step React form. It is modelled as a class holding the step and the form record. A pure `FormState` transition function describes what a user can do on the rendered page. It is proved that the Next guard keeps every reachable state consistent.

Two more modules carry Go's semantics, so that the models follow the code:
- `go_strings.dfy` models Go's string and `strconv` functions: `strings.Split`, `TrimPrefix`/`TrimSuffix`, `EqualFold`, `len` as a UTF-8 byte count, `strconv.Atoi` on the 64-bit range, and `%06d` with Go's truncating `%`.
- `wrappers.dfy` holds the `Option`, `Result` and `Outcome` datatypes.

Inputs that come from outside the code are parameters of the model:
- the clock (`now`, `unixSeconds`);
- whether the browser lets playback start;
- the analyser's captured spectrum;
- the JWT verifier's answer;
- the rate limiter's verdict;
- database query results.

## Model

| member | source | states |
|---|---|---|
| Audio.BandLevel | src/utils/AudioManager.js:218-232 | a band's level lies in 0..255 and is 0 for an unknown band name or a missing data array |
| Audio.BandLevelIsBandMean | src/utils/AudioManager.js:27-33 | on a full 256-bin capture, a named band's level is the mean of bins start..end-1 of that band |
| Audio.LastBinInNoBand | src/utils/AudioManager.js:27-33 | every band ends at or before bin 255, so the last analyser bin is in no band |
| Audio.Level | src/utils/AudioManager.js:289-297 | the overall level lies in 0..1 and, times 255, is the mean of all bins |
| Audio.BeatStep | src/utils/AudioManager.js:254-283 | the average is smoothed with decay 0.98; the answer is true iff a new beat (bass above 1.3 times the average, more than 200 ms after the last) or a hold frame remains; a new beat records the time and sets hold to 3, otherwise one hold frame is consumed |
| Audio.HoldStaysInRange | src/utils/AudioManager.js:272-280 | the hold counter stays within 0..3 |
| Audio.QuietAnswers | src/utils/AudioManager.js:275-282 | with no new beats, the k-th call answers true exactly while k is below the remaining hold count |
| Audio.HeldBeatLastsThreeCalls | src/utils/AudioManager.js:266-282 | a detected beat is followed by three true answers and then false when no new beat comes |
| Audio.SpikeIsHeldThreeTicks | src/utils/AudioManager.js:254-283 | a bass spike of three times a steady baseline, followed by the baseline, answers true, true, true, true, false |
| Audio.BaselineIsQuiet | src/utils/AudioManager.js:260-266 | a constant bass level not above the running average never triggers a new beat |
| Audio.SpikeWithinIntervalIsNotNew | src/utils/AudioManager.js:268-273 | a second spike within 200 ms of a detected beat is not a new beat |
| Audio.Clamp | src/utils/AudioManager.js:195-199 | the clamped value lies in the bounds and equals the input when inside them |
| Audio.AudioManager.constructor | src/utils/AudioManager.js:6-42 | every handle is null, nothing is loaded or playing, and the beat state is zero |
| Audio.AudioManager.Init | src/utils/AudioManager.js:49-105 | on a successful load: context, element, source, analyser, gain 0.7 and 256 zero bins exist, and the manager is loaded; on a failed load only the context and element were created, and LoadFailed is returned |
| Audio.AudioManager.Play | src/utils/AudioManager.js:107-125 | NotLoaded, then a null context, then a rejected play, each leave the state unchanged; success unpauses the element, sets playing and captures the first analyser frame |
| Audio.AudioManager.Pause | src/utils/AudioManager.js:131-137 | with an element: paused, not playing, analysis stopped; without one: nothing changes |
| Audio.AudioManager.Stop | src/utils/AudioManager.js:142-149 | as Pause, and the playback position is reset to 0 |
| Audio.AudioManager.SetVolume | src/utils/AudioManager.js:195-199 | the gain becomes the volume clamped to 0..1 when a gain node exists |
| Audio.AudioManager.Seek | src/utils/AudioManager.js:351-355 | the position becomes the time clamped to 0..duration when an element exists, so afterwards 0 <= getCurrentTime() <= getDuration() |
| Audio.AudioManager.CurrentTime | src/utils/AudioManager.js:335-337 | the element's position, or 0 without an element |
| Audio.AudioManager.Duration | src/utils/AudioManager.js:343-345 | the element's duration, or 0 without an element; never negative |
| Audio.AudioManager.GetFrequencyData | src/utils/AudioManager.js:205-211 | with an analyser, the data array becomes the capture and is returned; otherwise an empty array is returned |
| Audio.AudioManager.GetFrequencyBand | src/utils/AudioManager.js:218-232 | the loop's average equals BandLevel of the current data |
| Audio.AudioManager.GetAllBands | src/utils/AudioManager.js:238-248 | captures, then returns BandLevel of each of the five bands |
| Audio.AudioManager.DetectBeat | src/utils/AudioManager.js:254-283 | without data, false and no state change; otherwise the new beat state and answer are BeatStep of the old state and the bass level |
| Audio.AudioManager.GetLevel | src/utils/AudioManager.js:289-297 | the loop's result equals Level of the current data |
| Audio.AudioManager.GetNormalizedFrequencyData | src/utils/AudioManager.js:303-306 | each captured bin divided by 255, or NullDataArray when the array is null |
| Audio.AudioManager.Destroy | src/utils/AudioManager.js:360-383 | every handle and the data array become null, playback stops, and isLoaded is left as it was |
| Audio.PlayAfterDestroy | src/utils/AudioManager.js:107-125 | after destroy, play fails with a null context if the manager had loaded, else with NotLoaded |
| Audio.QueriesAfterDestroy | src/utils/AudioManager.js:218-297 | after destroy, band and level are 0 and no beat is reported |
| ManagementApi.MatchesAnyFold | Desktop/go-hello-main/apps/management/api/api.go:251-256 | true iff the name equals some listed name up to ASCII case |
| ManagementApi.ValidateUsername | Desktop/go-hello-main/apps/management/api/api.go:238-259 | a length error iff the byte length is outside 3..32; a character error iff the length is fine and the name is not all [A-Za-z0-9_]; reserved iff both pass and the name case-folds to a reserved name |
| ManagementApi.AcceptedUsernameLength | Desktop/go-hello-main/apps/management/api/api.go:240-247 | an accepted name has 3..32 characters, all ASCII letters, digits or underscores |
| ManagementApi.ReservedInAnyCase | Desktop/go-hello-main/apps/management/api/api.go:251-256 | any casing of a reserved name is rejected as reserved |
| ManagementApi.NonAsciiUsernameRejected | Desktop/go-hello-main/apps/management/api/api.go:240-247 | "café" fits the byte length but fails the character check |
| ManagementApi.ValidateUserInput | Desktop/go-hello-main/apps/management/api/api.go:218-235 | passes iff the username is valid, the port is in 1..65535 and the protocol is udp or tcp; the errors are reported in that order |
| ManagementApi.CreateUserSettings | Desktop/go-hello-main/apps/management/api/api.go:185-197 | validation runs before the defaults, so an accepted request keeps its own port and protocol; a zero port or empty protocol is rejected first |
| ManagementApi.ValidateRequest | Desktop/go-hello-main/apps/management/api/api.go:906-921 | too large iff the length exceeds 10 MiB; an invalid type iff the type is non-empty and contains neither application/json nor multipart/form-data |
| ManagementApi.JsonRequestAccepted | Desktop/go-hello-main/apps/management/api/api.go:913-918 | a JSON content type with parameters, or none at all, is accepted |
| ManagementApi.AllowedOrigins | Desktop/go-hello-main/apps/management/api/api.go:830-843 | the three production origins, plus three local ones only when ENVIRONMENT is development |
| ManagementApi.CorsAllowOrigin | Desktop/go-hello-main/apps/management/api/api.go:846-856 | the origin is echoed back iff it is in the allow-list |
| ManagementApi.LocalOriginsOnlyInDevelopment | Desktop/go-hello-main/apps/management/api/api.go:837-843 | each local origin is allowed iff the environment is development |
| ManagementApi.Middleware | Desktop/go-hello-main/apps/management/api/api.go:819-885 | the CORS header is set first; then OPTIONS is answered, then the rate limit is applied, then the request filter, then the request is forwarded |
| ManagementApi.TrimTrailingSlash | Desktop/go-hello-main/apps/management/api/api.go:403-405 | removes exactly one trailing '/', and only when there is one |
| ManagementApi.RouteEndNodeOperation | Desktop/go-hello-main/apps/management/api/api.go:395-441 | an empty ID is refused; a /deregister path removes the ID before the suffix; a /health path checks health; otherwise GET fetches, DELETE removes, and every other verb is refused |
| ManagementApi.RouteEndNodeDelete | Desktop/go-hello-main/apps/management/api/api.go:493-511 | only DELETE; an empty ID is refused; otherwise removes the path tail less one trailing '/' |
| ManagementApi.DeregisterByPath | Desktop/go-hello-main/apps/management/api/api.go:409-413 | a POST or DELETE to /api/endnodes/ID/deregister removes ID |
| ManagementApi.ParseOvpnPath | Desktop/go-hello-main/apps/management/api/api.go:724-731 | a target is found iff the path after /api/ovpn/ contains a '/' |
| ManagementApi.OvpnPathPieces | Desktop/go-hello-main/apps/management/api/api.go:724-731 | username and server ID contain no '/'; joined by '/', they begin the trimmed path and are followed by its end or by a '/', so they are segments 0 and 1 whole |
| ManagementApi.OvpnPathRoundTrip | Desktop/go-hello-main/apps/management/api/api.go:724-731 | /api/ovpn/U/S parses back to U and S for slash-free U and S |
| ManagementApi.EndNodeLogEntry | Desktop/go-hello-main/apps/management/api/api.go:681-709 | the entry kind fixes the action and the 2, 7 or 12 minute age; the host and name are copied |
| ManagementApi.GetEndNodeLogs | Desktop/go-hello-main/apps/management/api/api.go:669-714 | a listing error is passed on; otherwise three entries per node in order, entry i has ID 100+i and comes from node i/3 |
| Auth.GenerateOtp | Desktop/go-hello-main/apps/management/api/auth.go:68-72 | a negative Go remainder gives a code that starts with '-' |
| Auth.GenerateOtpSixDigits | Desktop/go-hello-main/apps/management/api/auth.go:68-72 | for a non-negative clock the code is six digits whose value is the time modulo 1000000 |
| Auth.OtpRepeatsEveryMillionSeconds | Desktop/go-hello-main/apps/management/api/auth.go:68-72 | the code repeats every 1000000 seconds |
| Auth.SendStep | Desktop/go-hello-main/apps/management/api/auth.go:44-50 | the generated code is stored under the phone, replacing any earlier one; other entries are kept |
| Auth.VerifyStep | Desktop/go-hello-main/apps/management/api/auth.go:52-66 | an error iff no code is stored; true iff the stored code matches, and then it is deleted; a mismatch changes nothing |
| Auth.OtpSingleUse | Desktop/go-hello-main/apps/management/api/auth.go:63-65 | a code that verified cannot verify again |
| Auth.SentCodeVerifies | Desktop/go-hello-main/apps/management/api/auth.go:44-66 | the code just sent verifies for that phone |
| Auth.MockOtpService.constructor | Desktop/go-hello-main/apps/management/api/auth.go:37-42 | the store starts empty |
| Auth.MockOtpService.SendOtp | Desktop/go-hello-main/apps/management/api/auth.go:44-50 | the returned code and new store are SendStep of the old store |
| Auth.MockOtpService.VerifyOtp | Desktop/go-hello-main/apps/management/api/auth.go:52-66 | the answer and new store are VerifyStep of the old store |
| Auth.SendVerifyTwice | Desktop/go-hello-main/apps/management/api/auth.go:44-66 | sending and then verifying twice gives true and then "no OTP found", and leaves no entry for the phone |
| Auth.CleanPhone | Desktop/go-hello-main/apps/management/api/auth.go:485-486 | the cleaned number has no spaces and no dashes, and a number without them is kept as it is; with CleanPhoneDropsSeparator this fixes the result |
| Auth.ValidatePhoneNumber | Desktop/go-hello-main/apps/management/api/auth.go:483-500 | a length error iff the cleaned byte length is outside 10..15; a character error iff it fits but does not match an optional '+' and then digits |
| Auth.AcceptedPhoneShape | Desktop/go-hello-main/apps/management/api/auth.go:489-497 | an accepted number is 10..15 characters after cleaning and matches the pattern |
| Auth.CleanPhoneDropsSeparator | Desktop/go-hello-main/apps/management/api/auth.go:485-486 | inserting a space or dash anywhere does not change the cleaned number |
| Auth.SeparatorsIgnored | Desktop/go-hello-main/apps/management/api/auth.go:483-500 | inserting a space or dash anywhere does not change the verdict |
| Auth.ValidatePassword | Desktop/go-hello-main/apps/management/api/auth.go:503-533 | passes iff 8..128 bytes and containing an upper-case letter, a lower-case letter and a digit; each error is reported iff the earlier checks pass and its own check fails |
| Auth.PasswordLengthInBytes | Desktop/go-hello-main/apps/management/api/auth.go:505-512 | a six-character password with three two-byte letters passes the 8-byte minimum |
| Auth.RegisterStep | Desktop/go-hello-main/apps/management/api/auth.go:128-149 | the phone is checked, then the password, then the code; a bad phone or password leaves the store untouched; with both valid, no stored code is an OTP verification failure and a different code is InvalidOtp; success iff all pass, and then the code is consumed |
| Auth.RegisterChecks | Desktop/go-hello-main/apps/management/api/auth.go:128-149 | the answer and the service's new store are RegisterStep of the old store |
| Auth.LoginPrecheck | Desktop/go-hello-main/apps/management/api/auth.go:226-230 | passes iff both the phone and the password are non-empty |
| Stats.ParseBearer | Desktop/go-hello-main/apps/management/api/stats.go:341-353 | missing iff the header is empty; a token is accepted only when the header is exactly "Bearer " plus a space-free token |
| Stats.BearerRoundTrip | Desktop/go-hello-main/apps/management/api/stats.go:348-353 | "Bearer " plus a space-free token gives back that token |
| Stats.ExtraSpaceRejected | Desktop/go-hello-main/apps/management/api/stats.go:348-352 | a token containing a space is rejected as a bad format |
| Stats.ValidateJwtToken | Desktop/go-hello-main/apps/management/api/stats.go:341-367 | succeeds iff the header parses and the verifier accepts the token with a non-empty phone claim, and returns that claim; format errors come first |
| Stats.StatusAccepted | Desktop/go-hello-main/apps/management/api/stats.go:40-49 | true iff the status is connected, disconnected, connecting or error |
| Stats.ConnectionTimestamps | Desktop/go-hello-main/apps/management/api/stats.go:208-219 | connected sets only the connect time and disconnected only the disconnect time, both to now; other statuses set neither |
| Stats.StatusUpdate | Desktop/go-hello-main/apps/management/api/stats.go:15-52 | a record is written iff the verb is POST, the token is valid and the status is whitelisted; it carries the claim's user, the request's status, server ID and IP address, and the timestamps; otherwise MethodNotAllowed, Unauthorized or InvalidStatus, in that order |
| Stats.ValidateStatsUpload | Desktop/go-hello-main/apps/management/api/stats.go:102-106 | passes iff bytes in, bytes out and duration are all non-negative |
| Stats.Listed | Desktop/go-hello-main/apps/management/api/stats.go:375-380 | the search finds the name iff it is in the list |
| Stats.IsAdmin | Desktop/go-hello-main/apps/management/api/stats.go:372-382 | true iff the name is exactly admin, root or administrator |
| Stats.AdminIsCaseSensitive | Desktop/go-hello-main/apps/management/api/stats.go:375-380 | "Admin" and "ROOT" are not admins |
| Stats.CanReadStats | Desktop/go-hello-main/apps/management/api/stats.go:154-157 | allowed iff the requested user is the caller or the caller is an admin |
| Stats.StatsUsername | Desktop/go-hello-main/apps/management/api/stats.go:148-152 | the user named after /vpn/stats/, never empty |
| Stats.GetUserStatsAccess | Desktop/go-hello-main/apps/management/api/stats.go:134-158 | granted exactly for GET with a valid token, a non-empty path user and the access rule, and then the path user is read; otherwise MethodNotAllowed, Unauthorized, UsernameRequired or Forbidden, in that order |
| Stats.NonAdminReadsOwnStats | Desktop/go-hello-main/apps/management/api/stats.go:154-157 | a non-admin caller is granted only their own statistics |
| Locations.EstimateLatency | Desktop/go-hello-main/apps/management/api/locations.go:362-375 | 150 beyond latitude 50 either way, 100 beyond 30 either way, else 50 |
| Locations.LatencyMonotoneInDistance | Desktop/go-hello-main/apps/management/api/locations.go:362-375 | the estimate never decreases with the absolute latitude, is symmetric about the equator and ignores longitude |
| Locations.LocationLoad | Desktop/go-hello-main/apps/management/api/locations.go:204-210 | the user count as a percentage of 100, capped at 100 |
| Locations.ServerLoad | Desktop/go-hello-main/apps/management/api/locations.go:292-299 | twice the user count (capacity 50), capped at 100 |
| Locations.EnrichLocation | Desktop/go-hello-main/apps/management/api/locations.go:179-217 | a failed server-count query leaves count, load and latency at 0; otherwise the count is set, the load is set when the user count is known, and the latency is estimated |
| Locations.SampleLocations | Desktop/go-hello-main/apps/management/api/locations.go:378-438 | four enabled samples with IDs 1 to 4 |
| Locations.SampleLatenciesAreNotEstimates | Desktop/go-hello-main/apps/management/api/locations.go:378-438 | no sample's fixed latency equals the estimate for its own coordinates |
| Locations.ListLocations | Desktop/go-hello-main/apps/management/api/locations.go:140-176 | the rows enriched in order, or the samples when there are none, so the list is never empty |
| Locations.ParseLocationId | Desktop/go-hello-main/apps/management/api/locations.go:75-86 | "required" iff the first path piece is empty; an ID iff Atoi accepts that piece, and then it is Atoi's value |
| Locations.LocationIdRoundTrip | Desktop/go-hello-main/apps/management/api/locations.go:75-86 | /vpn/locations/N/servers gives back N for every 64-bit N |
| GoStrings.SplitPair | Desktop/go-hello-main/apps/management/api/api.go:724-731 | a split yields exactly [a, b] iff the input is a, the separator, b and neither part contains the separator |
| GoStrings.JoinSplit | Desktop/go-hello-main/apps/management/api/locations.go:75 | joining the pieces of a split with the separator gives back the input |
| GoStrings.AtoiFormatInt | Desktop/go-hello-main/apps/management/api/locations.go:82 | Atoi reads back the decimal form of every 64-bit integer |
| GoStrings.Utf8LenAscii | Desktop/go-hello-main/apps/management/api/api.go:240 | for ASCII text, Go's byte length equals the number of characters |
| Onboarding.WithField | Desktop/Relax/apps/web/src/components/MerchantOnboarding.tsx:25-27 | the named field takes the value and every other field is kept |
| Onboarding.InitialEmail | Desktop/Relax/apps/web/src/components/MerchantOnboarding.tsx:22 | the user's first email address, or "" without a user or addresses |
| Onboarding.InitialForm | Desktop/Relax/apps/web/src/components/MerchantOnboarding.tsx:16-23 | all fields empty except city "Doha" and the initial email |
| Onboarding.Next | Desktop/Relax/apps/web/src/components/MerchantOnboarding.tsx:29-31 | the step advances by one below step 3 and stays put at 3; the form is unchanged |
| Onboarding.Previous | Desktop/Relax/apps/web/src/components/MerchantOnboarding.tsx:33-35 | the step goes back by one above step 1 and stays put at 1; the form is unchanged |
| Onboarding.ProgressPercent | Desktop/Relax/apps/web/src/components/MerchantOnboarding.tsx:50 | the bar is a positive share of 100 on steps 1 to 3, and full exactly on step 3 |
| Onboarding.ShownButtons | Desktop/Relax/apps/web/src/components/MerchantOnboarding.tsx:170-190 | Previous is shown iff the step is past 1, Next iff the step is before 3, and the submit button otherwise |
| Onboarding.NextDisabled | Desktop/Relax/apps/web/src/components/MerchantOnboarding.tsx:179 | Next is enabled exactly when every required field of the step is filled: the business name, plus address and phone on step 2 |
| Onboarding.UiStep | Desktop/Relax/apps/web/src/components/MerchantOnboarding.tsx:57-190 | a click on a shown, enabled Next moves forward by one and a click on a shown Previous moves back by one, and nothing else moves the step; typing never moves the step and changes only a field the step shows, to the typed value; the step stays within 1 to 3 |
| Onboarding.EditableFields | Desktop/Relax/apps/web/src/components/MerchantOnboarding.tsx:57-137 | step 1 shows business name and description, step 2 address, city, phone and email, and step 3 no inputs |
| Onboarding.UiStepKeepsReachable | Desktop/Relax/apps/web/src/components/MerchantOnboarding.tsx:179 | one click or keystroke on the rendered page keeps the guard's guarantees |
| Onboarding.RunKeepsReachable | Desktop/Relax/apps/web/src/components/MerchantOnboarding.tsx:175-186 | after any sequence of user actions, the step is 1 to 3, every step past 1 has a business name, and step 3 has an address and a phone |
| Onboarding.InitialReachable | Desktop/Relax/apps/web/src/components/MerchantOnboarding.tsx:15-23 | the initial state satisfies those guarantees |
| Onboarding.HandlersKeepStepInRange | Desktop/Relax/apps/web/src/components/MerchantOnboarding.tsx:29-35 | any sequence of handleNext and handlePrevious calls keeps the step within 1 to 3 |
| Onboarding.MerchantOnboarding.constructor | Desktop/Relax/apps/web/src/components/MerchantOnboarding.tsx:15-23 | step 1 and the initial form |
| Onboarding.MerchantOnboarding.HandleInputChange | Desktop/Relax/apps/web/src/components/MerchantOnboarding.tsx:25-27 | the form becomes WithField of the old form |
| Onboarding.MerchantOnboarding.HandleNext | Desktop/Relax/apps/web/src/components/MerchantOnboarding.tsx:29-31 | the new state is Next of the old one |
| Onboarding.MerchantOnboarding.HandlePrevious | Desktop/Relax/apps/web/src/components/MerchantOnboarding.tsx:33-35 | the new state is Previous of the old one |
| Onboarding.MerchantOnboarding.Dispatch | Desktop/Relax/apps/web/src/components/MerchantOnboarding.tsx:57-190 | the page's reaction to a user action is UiStep of the old state |

## Left out

- `init`'s asynchronous loading, its `loadProgress` tracking and its URL are not modelled. `Init` takes the load's outcome (a duration, or a failure) as a parameter.
- The `requestAnimationFrame` analysis loop is reduced to its first, synchronous capture in `Play`; `stopAnalysis` becomes the `analysing` flag. Later frames are captures made through `GetFrequencyData`.
- `Audio.AudioManager.GetFrequencyData` returns a copy of the captured bins. The source hands out its live `dataArray`, which every later capture overwrites in place, including those of the animation-frame loop. An array a caller kept earlier therefore changes under it in the source but not in the model.
- `fadeIn` and `fadeOut` are not modelled. They ramp the gain over time on the audio clock. `fadeOut` ends, from a timer, by calling `stop()` (not playing, position 0) and restoring the starting gain. `fadeIn` sets the gain to 0, then calls `play()`, whose outcomes `Play` models, then ramps to the target volume.
- JavaScript numbers and Go float64 are modelled as exact reals: no rounding, no NaN and no infinity.
  - A NaN duration before metadata loads is not represented.
  - `Audio.AudioManager.Seek` clamps with exact arithmetic.
- `Audio.Level`: requires a non-empty data array. The source's array always has 256 bins, and an empty one would give NaN.
- `Date.now()` and `time.Now()` are `now` parameters. Go's `time.Time` is whole seconds.
- Database access, HTTP writing, JSON decoding, bcrypt, JWT signing and checking, logging and audit writes are not modelled.
  - Query results become parameters (`Result` or `Option` values).
  - The JWT verifier is a function parameter.
  - `checkRateLimit` is the `withinRateLimit` parameter of `Middleware`.
- `ListLocations`: the source's error path is not modelled. A failed locations query, a failed row scan, or an error from `rows.Err()` after the loop is returned to the caller. The model takes the rows as already read.
- `handleLogs`, `generateSampleLogs`, `getServersForLocation`, `getServerHealth` and the user/end-node registration handlers are not part of this model. Only their load formula (`ServerLoad`) and ID parsing are modelled.
- `ManagementApi.MatchesAnyFold` and `GoStrings.EqualFoldAscii` use ASCII case folding only. `strings.EqualFold` also folds Unicode, but it is only reached after the ASCII-only character check.
- `handleSubmit` (a console log), React batching and the markup are not modelled. Rendering is reduced to the shown buttons, the disabled guard, the progress width and which inputs each step shows.
- In `RouteEndNodeOperation`, the POST branch's second `/deregister` test cannot succeed, because that suffix was handled earlier. POST therefore always ends as MethodNotAllowed there, as the model states.
- `ParseLocationId`'s `len(pathParts) < 1` test is never true, because a split always yields at least one piece. Negative and signed IDs such as "-3" or "+3" are accepted, as `strconv.Atoi` accepts them.
- `IsAdmin` is applied to the JWT phone-number claim, as in the source. Only a token whose phone claim is literally "admin", "root" or "administrator" reads other users' statistics.
- `ParseBearer` accepts an empty token ("Bearer "). Rejecting it is left to the verifier.
- The sample locations' fixed latencies (25, 85, 180, 95 ms) do not follow `estimateLatency`. `SampleLatenciesAreNotEstimates` records this.
