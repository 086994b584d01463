# Timeloop AI — a Dafny model of its core

Timeloop AI turns an uploaded video into a text-to-video prompt. A model
describes the video and proposes scene segments, and the browser captures one
keyframe per segment. Paid plans go through Razorpay, a Stripe checkout endpoint
also exists, and Supabase stores subscriptions. This project models the parts
that decide what happens:

- **Screen state machine and keyframe capture** (`App.tsx`).
  - `FrameCapture` is the event-driven `captureFrames` loop. A class holds the
    cursor, the captured list, the issued seeks and the promise. Its
    `loadedmetadata`, `seeked` and `error` handlers are methods, and it is
    proved against the specification function `Collected`.
  - `AppFlow` is the `App` screen state. It models `handleVideoSelected`,
    `handleReset`, `handleLogout` and `handleAnalyze`, with an invariant that
    every handler keeps.
- **Upload box** (`VideoUploader.tsx`): the type and size checks, the split of
  the data URL, and the drag flag.
- **Plan table** (`constants/subscriptionPlans.ts`): the five plans and their
  relationships.
- **Pricing section** (`SubscriptionPlansSection.tsx`): the cards, the billing
  toggle, and the order of effects when a plan is selected.
- **Subscription status panel** (`SubscriptionStatusDisplay.tsx`): what the
  panel shows.
- **Serverless endpoints**: `razorpay-webhook`, `create-subscription`,
  `create-razorpay-order`, `create-checkout-session` and `start-free-trial`.
  Each is a function (or a method, where the source builds state step by step)
  from the request, the environment and the answers of the external services
  to the HTTP response.

Two shared modules model the JavaScript the source relies on:

- `Js`: truthiness; `||` versus destructuring defaults; member lookup in which
  `JSON.parse` keeps the last of repeated keys; `JSON.stringify` dropping
  `undefined` members; `err?.message || fallback`; `startsWith`; decimal
  printing; `split`.
- `Http`: responses and the `req.body || {}` member read.

External effects are parameters:

- the HMAC digest, `JSON.parse`, the Razorpay and Stripe calls and the
  Supabase queries;
- the clock;
- the browser's load and seek outcomes, the file reader's result and the
  analysis call;
- the text of a runtime `TypeError`.

An awaited call is an `Awaited<T>`: it is either fulfilled with a value or
rejected with an optional message.

The model keeps three behaviours of the code that are easy to miss:

- A `seeked` capture that throws drops that segment (App.tsx:122-126). The
  capture therefore resolves with a list that can be shorter than the segment
  list, and it keeps positions only when nothing throws
  (`FrameCapture.NoThrowKeepsPositions`).
- An empty segment list still waits for the metadata to load before resolving
  `[]` (App.tsx:89-92). `handleAnalyze` never calls the capture for an empty
  list.
- A load error rejects without removing the video element (App.tsx:132).

## Model

| member | source | states |
|---|---|---|
| FrameCapture.ClampSeek | App.tsx:95-100 | a timestamp inside the video is kept; one past the end goes 0.1 s before the end, or to 0 if that is negative; a negative one goes to 0; for a non-negative duration the seek always lies inside the video |
| FrameCapture.Step | App.tsx:103-127 | a `seeked` event appends a screenshot copy, the untouched segment (no 2D context), or nothing exactly when the capture threw |
| FrameCapture.SeekPlanAt | App.tsx:94-100 | the i-th issued seek is the clamped timestamp of the i-th segment, one per segment |
| FrameCapture.SeeksInsideVideo | App.tsx:94-100 | the seeks go one per segment, in input order, and each lies in [0, duration] |
| FrameCapture.Collected | App.tsx:103-127 | the captured list has one element per non-throwing step, so it is never longer than the segment list |
| FrameCapture.SeekPlan | App.tsx:94-100 | one seek per segment, each inside a video of non-negative duration |
| FrameCapture.CaptureSources | App.tsx:112-121 | each captured element comes from a distinct segment that did not throw, with strictly increasing source indices, and equals that segment with at most the screenshot set |
| FrameCapture.CapturedKeepsMetadata | App.tsx:112-117 | a captured element differs from its source only in `screenshotUrl`; `timestampSeconds` keeps the unclamped value |
| FrameCapture.NoThrowKeepsPositions | App.tsx:103-127 | when no capture throws, the output matches the input index for index |
| FrameCapture.AllKeptIndices | App.tsx:120-125 | with no throwing step, every index is a source index, in order |
| FrameCapture.Capture.constructor | App.tsx:84-85 | an empty captured list, the cursor at 0, no seek, the promise pending |
| FrameCapture.Capture.ProcessNext | App.tsx:88-101 | past the end the video is removed and the promise resolves with the captured list (unless already rejected); otherwise it seeks to the current segment's clamped timestamp |
| FrameCapture.Capture.OnLoadedMetadata | App.tsx:87-130 | records the duration and starts the walk: it resolves `[]` at once for no segments, and otherwise seeks for the first segment |
| FrameCapture.Capture.OnSeeked | App.tsx:103-127 | advances the cursor by exactly one, appends the step's result, then seeks for the next segment or completes |
| FrameCapture.Capture.OnError | App.tsx:132 | rejects a pending promise and changes nothing else; the video is not removed |
| FrameCapture.CaptureFrames | App.tsx:76-134 | a load error rejects without removal; otherwise the capture resolves with `Collected(segments, outcomes)`, issues exactly the seek plan and removes the video |
| AppFlow.FailureMessage | App.tsx:157-160 | the error's non-empty message, otherwise "Analysis sequence failed." |
| AppFlow.Stored | App.tsx:149-156 | on success the stored result is the answer itself for no segments; for some segments it is the answer with the captured ones once the video loads, and nothing when it does not |
| AppFlow.App.constructor | App.tsx:11-15 | the start screen, with no video, result or error |
| AppFlow.App.HandleVideoSelected | App.tsx:58-63 | preview screen, the new video, no error, an earlier result kept; the screen invariant holds |
| AppFlow.App.HandleReset | App.tsx:65-70 | start screen with video, result and error all cleared |
| AppFlow.App.HandleLogout | App.tsx:49-52 | after a successful sign-out, the same state as a reset; nothing changes when signing out throws |
| AppFlow.App.HandleAnalyze | App.tsx:136-161 | does nothing without a video; captures frames exactly for an answer with segments, and that capture resolves with the collected segments after the planned seeks or rejects on a load error; a failed analysis shows its message or the fallback and keeps the old result; otherwise it ends in SUCCESS with the captured segments, or in ERROR with the fallback when the video fails to load; the screen invariant holds |
| AppFlow.StoredFromAnswer | App.tsx:147-156 | once the video loads, the stored result keeps the answer's prompt and details, and holds no more segments than requested, each one a requested segment with at most its screenshot set |
| VideoUploader.TooLargeErrorText | timeloop-ai-ref/components/VideoUploader.tsx:10-25 | the size message reads "File is too large. Max size: 20MB." |
| VideoUploader.Validate | timeloop-ai-ref/components/VideoUploader.tsx:19-27 | a file passes exactly when its type starts with "video/" and its size is at most 20 MiB; the type is reported before the size |
| VideoUploader.LimitIsInclusive | timeloop-ai-ref/components/VideoUploader.tsx:24 | exactly 20 MiB passes, one byte more is refused |
| VideoUploader.TypeCheckedFirst | timeloop-ai-ref/components/VideoUploader.tsx:19-27 | an oversize non-video reports the type error |
| VideoUploader.Base64Part | timeloop-ai-ref/components/VideoUploader.tsx:32 | the data part never contains a comma |
| VideoUploader.Base64PartOfDataUrl | timeloop-ai-ref/components/VideoUploader.tsx:32 | a data URL gives back exactly its data, and text after a further comma is cut off |
| VideoUploader.NoCommaNoData | timeloop-ai-ref/components/VideoUploader.tsx:32 | a text without a comma has no data part |
| VideoUploader.ErrorAfter | timeloop-ai-ref/components/VideoUploader.tsx:17-41 | the error after processing is the check's message, else the read failure, else none |
| VideoUploader.Handed | timeloop-ai-ref/components/VideoUploader.tsx:29-40 | a video is handed on exactly when the checks pass and the read succeeds, with the file, preview URL, data part and the file's own type |
| VideoUploader.SelectedOrError | timeloop-ai-ref/components/VideoUploader.tsx:16-43 | a processed file either reaches `onVideoSelected` or leaves an error, never both and never neither |
| VideoUploader.Uploader.constructor | timeloop-ai-ref/components/VideoUploader.tsx:13-14 | no highlight, no error, nothing handed on |
| VideoUploader.Uploader.ProcessFile | timeloop-ai-ref/components/VideoUploader.tsx:16-43 | the old error is cleared; afterwards the error is this file's, and the handed videos grow by exactly this file's result |
| VideoUploader.Uploader.HandleDrag | timeloop-ai-ref/components/VideoUploader.tsx:45-53 | enter and over highlight, leave clears, any other event leaves the flag alone |
| VideoUploader.Uploader.HandleDrop | timeloop-ai-ref/components/VideoUploader.tsx:55-62 | the highlight always goes off; only the first dropped file, if any, is processed |
| VideoUploader.Uploader.HandleChange | timeloop-ai-ref/components/VideoUploader.tsx:64-69 | only the first chosen file, if any, is processed; a missing list does nothing |
| SubscriptionPlans.KeyOf | constants/subscriptionPlans.ts:3-117 | every tier and cycle has a plan key, whose plan has that tier and, for a paid tier, that cycle |
| SubscriptionPlans.PlansAt | constants/subscriptionPlans.ts:3-117 | the table holds exactly the five plans |
| SubscriptionPlans.PlansListOrder | constants/subscriptionPlans.ts:119-125 | the list holds exactly the table's five plans, in the order free, basic monthly, basic yearly, premium monthly, premium yearly |
| SubscriptionPlans.IdsAreLowerCaseKeys | constants/subscriptionPlans.ts:3-117 | each plan's id is its key in lower case |
| SubscriptionPlans.KeysNameTierAndCycle | constants/subscriptionPlans.ts:3-117 | each key names its plan's tier and cycle |
| SubscriptionPlans.OnlyTrialIsFree | constants/subscriptionPlans.ts:10-98 | the free trial is the only plan priced 0; no price is negative |
| SubscriptionPlans.YearlyIsTenMonths | constants/subscriptionPlans.ts:30-98 | a yearly price is ten monthly prices, with the monthly twin's limits |
| SubscriptionPlans.ApiAccessIsPremium | constants/subscriptionPlans.ts:22-115 | API access exactly for the premium tier |
| SubscriptionPlans.YearlySavingIsTwoMonths | constants/subscriptionPlans.ts:46-98 | both yearly plans save 2/12 ≈ 16.7%: "Save 17%" rounds it, and "Save 20%" overstates it |
| PlansSection.PlansTier | components/SubscriptionPlansSection.tsx:110-114 | the free card is the trial; the basic and premium cards follow the billing cycle |
| PlansSection.CardKeysNamePlans | components/SubscriptionPlansSection.tsx:110-114 | every card key is a table plan of the card's tier and cycle |
| PlansSection.IsCurrentPlan | components/SubscriptionPlansSection.tsx:194-206 | a card is current only for the subscription's own tier: the trial while on trial, a paid tier while active |
| PlansSection.AtMostOneCurrent | components/SubscriptionPlansSection.tsx:192-209 | at most one card is marked current, and none without a subscription |
| PlansSection.PricingCard | components/SubscriptionPlansSection.tsx:14-95 | nothing for an unknown key; otherwise the plan's name and features, "Free" for a zero price, a billing note except on the trial, the inert button exactly on the current plan, and a saving note exactly on yearly paid plans |
| PlansSection.SectionShowsThreeCards | components/SubscriptionPlansSection.tsx:192-209 | all three cards render for either cycle |
| PlansSection.ErrorAlert | components/SubscriptionPlansSection.tsx:155-157 | an Error's message, even an empty one, otherwise "Subscription failed" |
| PlansSection.Selection | components/SubscriptionPlansSection.tsx:117-158 | the spinner is not touched; an unknown plan only raises two alerts, ending in "Invalid plan"; a paid plan starts by creating an order at its price; success, when reported, comes last |
| PlansSection.PaidPlanOpensCheckout | components/SubscriptionPlansSection.tsx:134-157 | a known paid plan creates its order and then opens checkout with the order's id, amount and key id under "<name> - Timeloop AI Subscription"; a failed order alerts its error and opens no checkout; a failed checkout alerts its error; a completed one reports success when there is a callback |
| PlansSection.SelectionEffects | components/SubscriptionPlansSection.tsx:116-161 | the spinner goes on first and off last, around the selection's effects |
| PlansSection.LoadingBracketsSelection | components/SubscriptionPlansSection.tsx:116-161 | the spinner goes on first and off last on every path, and not in between |
| PlansSection.OrderOnlyForPaidPlans | components/SubscriptionPlansSection.tsx:119-139 | an order is created exactly for a known paid plan, with its price and display price; an unknown plan creates neither an order nor a checkout |
| PlansSection.SuccessOnlyAfterPayment | components/SubscriptionPlansSection.tsx:127-154 | success is reported only for the free plan, or after both the order and the checkout succeed, and only when there is a callback |
| PlansSection.Section.constructor | components/SubscriptionPlansSection.tsx:106-107 | monthly billing, not loading |
| PlansSection.Section.SetBillingCycle | components/SubscriptionPlansSection.tsx:106 | the cycle becomes the chosen one and nothing else changes |
| PlansSection.Section.Cards | components/SubscriptionPlansSection.tsx:192-209 | the free, basic and premium plans of the chosen cycle, all three rendered, at most one marked as the current plan |
| PlansSection.Section.SelectPlan | components/SubscriptionPlansSection.tsx:116-161 | its effects are exactly the specified selection sequence, and it leaves the spinner off and the cycle unchanged |
| PlansSection.CardsSelectKnownPlans | components/SubscriptionPlansSection.tsx:116-134 | a plan picked from a card is a known plan: selecting it starts the trial or creates an order at its price, never the invalid-plan path |
| StatusDisplay.UsageRatio | components/SubscriptionStatusDisplay.tsx:85 | a finite ratio for a non-zero limit; for a zero limit, ±Infinity or NaN by the sign of the usage |
| StatusDisplay.Min100 | components/SubscriptionStatusDisplay.tsx:83-86 | at most 100 and no more than the input for finite input; +Infinity gives 100; NaN and -Infinity pass through |
| StatusDisplay.UsagePercentage | components/SubscriptionStatusDisplay.tsx:83-86 | never +Infinity; finite and at most 100 for a positive limit; NaN exactly for 0 used of a zero limit, -Infinity exactly for negative use of a zero limit |
| StatusDisplay.UsageWithinBar | components/SubscriptionStatusDisplay.tsx:83-86 | for a positive limit the bar is finite and at most 100, non-negative for non-negative usage, the used share while under the limit, and 100 from the limit on |
| StatusDisplay.UsageWithZeroLimit | components/SubscriptionStatusDisplay.tsx:83-86 | a zero limit gives a full bar once anything is used, and NaN before |
| StatusDisplay.TierLabel | components/SubscriptionStatusDisplay.tsx:37-46 | "Premium", "Basic" and "Free Trial" each exactly for their own tier |
| StatusDisplay.TierLabelPrefixesPlanNames | components/SubscriptionStatusDisplay.tsx:37-46 | each tier's label begins the names of that tier's plans |
| StatusDisplay.StatusBadge | components/SubscriptionStatusDisplay.tsx:48-81 | "Active", "Trial", "Cancelled" and "Expired" each exactly for its own status, and "Unknown" otherwise |
| StatusDisplay.BadgeKnowsFourStatuses | components/SubscriptionStatusDisplay.tsx:48-81 | exactly the four known statuses get a badge other than "Unknown" |
| StatusDisplay.Render | components/SubscriptionStatusDisplay.tsx:14-148 | loading wins, then no status shows nothing; the panel shows the tier heading and the badge; the days line and "Upgrade Plan" appear exactly while active or on trial; an unlimited plan shows ∞ and no bar; the next billing date appears exactly when present |
| StatusDisplay.DaysLineDiffers | components/SubscriptionStatusDisplay.tsx:101-105 | the days-remaining line never reads "Plan not active" |
| RazorpayWebhook.EventName | api/razorpay-webhook.ts:61 | the event's name when `event.event` is a string, and none when no string matches it |
| RazorpayWebhook.DispatchThrows | api/razorpay-webhook.ts:61-107 | only `null` or an event of a handled name can throw, and a non-null event with an object under `data.object` never does |
| RazorpayWebhook.Webhook | api/razorpay-webhook.ts:20-119 | 405, then 500 without a secret, 500 with the message when the body cannot be read, 400 without a signature, 400 for a wrong signature; 200 exactly for a verified, parsed event whose handling does not throw, and then the acknowledgement |
| RazorpayWebhook.UnverifiedNeverParsed | api/razorpay-webhook.ts:35-57 | without a matching signature the parser has no influence on the reply and the reply is never 200 |
| RazorpayWebhook.UnknownEventAcknowledged | api/razorpay-webhook.ts:109-114 | a verified event the switch does not name is acknowledged |
| RazorpayWebhook.NamedEventNeedsObject | api/razorpay-webhook.ts:62-107 | a verified named event without `data` ends in a 500 |
| RazorpayWebhook.MalformedBodyFails | api/razorpay-webhook.ts:57-118 | a verified body that is not JSON ends in a 500 with the parser's message or the fallback |
| CreateSubscription.KeyText | api/create-subscription.ts:33 | a string id is its own property key, and only strings and arrays can name a table entry |
| CreateSubscription.PlanGuardAsWritten | api/create-subscription.ts:33 | every plan id the own-plan check admits passes, and anything else that passes is a name inherited from `Object.prototype` |
| CreateSubscription.PlanGuard | api/create-subscription.ts:15-35 | the own-plan check: an admitted id is a string or an array naming a paid, monthly-billed table entry |
| CreateSubscription.PrototypeNamePassesGuard | api/create-subscription.ts:33 | as written, "toString" passes the plan check although the table has no such plan |
| CreateSubscription.PlanGuardAdmitsPlans | api/create-subscription.ts:15-35 | the corrected check admits exactly the four plan ids |
| CreateSubscription.ConfigLookup | api/create-subscription.ts:42 | the table's own entry exactly for an own plan id, a paid plan; an inherited name has none of the entry's members |
| CreateSubscription.PayloadOf | api/create-subscription.ts:27 | the three members of an object body, and none from a missing or non-object body |
| CreateSubscription.TotalCount | api/create-subscription.ts:69 | a truthy total count is kept, otherwise the plan's interval, and nothing for an inherited name |
| CreateSubscription.SubscriptionOptions | api/create-subscription.ts:64-72 | the options carry INR and the total count or the interval; for a table plan also its period, interval, amount and name; for an inherited name none of these four |
| CreateSubscription.ProviderCall | api/create-subscription.ts:23-72 | under either check, Razorpay is called exactly for a POST with a present plan id that passes the check and both keys, with the options for the looked-up entry; under the own-plan check always with the plan's amount, interval, monthly period, INR and the total count or the interval |
| CreateSubscription.PeriodIsMonthly | api/create-subscription.ts:15-20 | every plan bills monthly periods, one or twelve at a time |
| CreateSubscription.Confirmation | api/create-subscription.ts:74-81 | the 200 reply echoes the plan id and, for a table plan, its amount, period and interval, which an inherited name leaves out |
| CreateSubscription.Handle | api/create-subscription.ts:22-88 | under either check: 405, 400 without a plan id, 400 for an id the check refuses, 500 without keys, 500 with the provider's message or the fallback; 200 exactly when the provider call is made and succeeds, and then the confirmation for the looked-up entry |
| CreateSubscription.CreateSubscription | api/create-subscription.ts:22-88 | the endpoint as written: a POST without an object body is refused with 400, and a 200 needs an object body with a present plan id |
| CreateSubscription.PrototypeNameReachesProvider | api/create-subscription.ts:33-81 | as written, "toString" with both keys set reaches Razorpay with no amount, interval, period, description or total count, and a successful reply is a 200 without amount or interval |
| CreateSubscription.InheritedNamesRefused | api/create-subscription.ts:33-35 | with the own-plan check, every inherited name gets 400 "Invalid planId" and Razorpay is not called |
| CreateSubscription.ChecksAgreeOutsideInheritedNames | api/create-subscription.ts:33 | the two checks give the same call and reply for every plan id that is not an inherited name |
| CreateSubscription.CustomerIdIgnored | api/create-subscription.ts:27-72 | under either check, `customerId` changes neither the provider call nor the reply |
| CreateSubscription.ConfigMatchesPlanTable | api/create-subscription.ts:15-20 | each server plan is the client plan with the same id, at the same price and name, yearly exactly when it bills twelve periods; every paid client plan has a server plan |
| CreateRazorpayOrder.PayloadOf | api/create-razorpay-order.ts:14 | the four members of an object body, and none from a missing or non-object body |
| CreateRazorpayOrder.OrderOptions | api/create-razorpay-order.ts:14-31 | the amount as sent; currency and description defaulted only when absent; the receipt or `rcpt_<now>`; auto-capture |
| CreateRazorpayOrder.OrderCreated | api/create-razorpay-order.ts:35-40 | the 200 reply carries the order's id, amount and currency and the key id |
| CreateRazorpayOrder.Handle | api/create-razorpay-order.ts:9-47 | 405, 400 without an amount, 500 without keys, 500 with the provider's message or the fallback; 200 only after all checks pass |
| CreateRazorpayOrder.CreateOrder | api/create-razorpay-order.ts:9-47 | the endpoint: a POST without an object body is refused with 400, and a 200 needs an object body with a present amount |
| CreateRazorpayOrder.DefaultsForBareAmount | api/create-razorpay-order.ts:14-31 | a bare amount gets INR, the default description and a time-stamped receipt |
| CreateRazorpayOrder.NullCurrencyKept | api/create-razorpay-order.ts:14-28 | an explicit null currency is kept, while an empty receipt is replaced |
| CreateCheckoutSession.SearchParams.constructor | api/create-checkout-session.ts:16 | a new parameter list is empty |
| CreateCheckoutSession.SearchParams.Append | api/create-checkout-session.ts:16-21 | appends one entry at the end |
| CreateCheckoutSession.FormParams | api/create-checkout-session.ts:16-21 | the five parameters in their order, with falsy URLs replaced by the placeholders |
| CreateCheckoutSession.CreateSession | api/create-checkout-session.ts:6-41 | 405, then 500 without a key before 400 without a price id; a thrown error gives its message or its text; an upstream error is relayed with its status and body; a null body gives the TypeError's message, or "TypeError" when it is empty; otherwise 200 with the session's url and id |
| CreateCheckoutSession.OkReplyKeepsUrlAndId | api/create-checkout-session.ts:36 | the 200 reply holds exactly the session's url and id |
| StartFreeTrial.BearerToken | api/start-free-trial.ts:16-21 | a token exactly for a non-empty header with the exact prefix "Bearer ", and then the header is the prefix plus the token |
| StartFreeTrial.TokenRoundTrip | api/start-free-trial.ts:17-21 | stripping the prefix gives back the token sent |
| StartFreeTrial.PrefixIsExact | api/start-free-trial.ts:17 | a lower-case or space-less prefix is refused |
| StartFreeTrial.NewTrial | api/start-free-trial.ts:44-59 | the free tier, on trial, no videos used, starting today, ending and renewing after the plan table's trial length |
| StartFreeTrial.ForUser | api/start-free-trial.ts:31-72 | a failed query gives 500 with its message or the fallback; an active subscription gives 400; otherwise the trial row is inserted, and a rejected insert gives 500 with its message or the fallback, a failed one 500, a successful one 200 carrying the stored row; 200 exactly in that last case |
| StartFreeTrial.StartTrial | api/start-free-trial.ts:10-79 | 405, 401 without a bearer token, 401 for an unknown user, the query's error message or the fallback, and a trial only for an authenticated user |
| StartFreeTrial.ActiveSubscriptionBlocksInsert | api/start-free-trial.ts:39-41 | with an active subscription the insert has no influence on the reply |
| StartFreeTrial.TrialLengthMatchesPlanTable | api/start-free-trial.ts:46 | the hard-coded 14 days equal the table's trial length |
| Js.OrElse | api/create-checkout-session.ts:20-21 | `a \|\| b`: a truthy value is kept, anything else is replaced |
| Js.Default | api/create-razorpay-order.ts:14 | a destructuring default replaces only `undefined` |
| Js.MessageOr | api/create-razorpay-order.ts:44 | `err?.message \|\| fallback`: a non-empty message, otherwise the fallback |
| Js.Lookup | api/razorpay-webhook.ts:57 | a member read on parsed JSON finds the last binding of its key |
| Js.LookupOtherKey | api/razorpay-webhook.ts:63 | a binding of another key does not change a lookup |
| Js.Compact | api/create-razorpay-order.ts:35-40 | serialising never makes an object longer |
| Js.CompactMembers | api/create-razorpay-order.ts:35-40 | exactly the defined members are written out, each with its value |
| Js.CompactAbsent | api/create-subscription.ts:74-81 | a key only ever given `undefined` is not written out |
| Js.CompactLookup | api/create-razorpay-order.ts:35-40 | with distinct keys, a member of the serialised object is the member as given |
| Js.DecimalRoundTrip | api/create-razorpay-order.ts:28 | the decimal text of a number reads back as that number |
| Js.SplitJoin | timeloop-ai-ref/components/VideoUploader.tsx:32 | joining the pieces of a split with the separator gives back the text, and no piece contains the separator |
| Js.SplitAfterFirst | timeloop-ai-ref/components/VideoUploader.tsx:32 | a text without the separator before its first one is the first piece, and the rest splits on its own |
| Http.ErrorResponse | api/create-subscription.ts:24 | the status and a JSON body whose `error` member is the message |
| Http.ObjectResponse | api/create-checkout-session.ts:36 | the status and the serialised object |
| Http.BodyField | api/create-subscription.ts:27 | a member of `req.body \|\| {}`: nothing for a missing or non-object body |

## Left out

- Media and canvas: the video element, seeking, `drawImage` and the JPEG encoding in `toDataURL` are not modelled. Each seek's result is an abstract outcome: a screenshot URL, no 2D context, or a throw.
- FrameCapture.CaptureFrames assumes every seek fires `seeked`. A seek that never completes would leave the promise pending and the video attached; that case is not modelled.
- Timestamps and durations are reals, not IEEE doubles.
- StatusDisplay.UsageRatio computes over reals, not IEEE doubles, so rounding is not modelled. The same holds for StatusDisplay.UsagePercentage and StatusDisplay.UsageWithinBar.
- StatusDisplay.TierLabel takes a tier of the three-value enum. The `default` branch of `getTierLabel` for a tier outside the enum cannot be represented; such a tier would read "Free Trial".
- The `setTimeout` progress messages of `handleAnalyze` (App.tsx:144-145) are left out. They can overwrite the progress line after the analysis has ended.
- AppFlow.App.HandleAnalyze runs to its end in one call. The intermediate ANALYZING screen is set, but it is not observable, and interleavings with other handlers are not modelled.
- AppFlow.App.HandleAnalyze treats an analysis answer without `segments` as one with an empty list. It also takes one capture outcome per segment as input.
- The analysis call itself (`services/geminiService.proxy.ts`) is not part of this model: its result is an input.
- `checkAuth`, the login page and the authentication listener of `App.tsx` are left out: they only gate what is rendered.
- Rendering is left out: JSX markup, colours, icons, scrolling and the `disabled` prop of the uploader. Also left out are `PromptDisplay`, `ProductIntegration`, `PricingPage`, `LoginPage` and `Dashboard`.
- `URL.createObjectURL` and `FileReader` are inputs. The preview URL and the read result are parameters.
- RazorpayWebhook.Webhook takes the HMAC-SHA256 digest, reading the raw body and `JSON.parse` as parameters. No cryptography is modelled. The logging in each `switch` case is left out, beyond whether it throws.
- RazorpayWebhook.Webhook takes the text of the `TypeError` from a member read on a null value as a parameter. The same applies to CreateCheckoutSession.CreateSession.
- The Razorpay SDK, `fetch` to Stripe and the Supabase client are inputs, as are their answers. The `Razorpay` client's construction with `|| ''` keys is left out.
- CreateCheckoutSession.CreateSession keeps the form parameters as JSON values. Their `URLSearchParams` string conversion and `toString()` are not modelled.
- CreateSubscription.KeyText converts only strings and arrays to a property key. Numbers, booleans and `null` are treated as no key, and so are refused by the plan check. In JavaScript they convert to texts such as "1" or "null", which also name no plan. An object with its own `toString` member, such as `{"toString": 0}`, or an array holding one, is also treated as no key. In JavaScript its conversion at api/create-subscription.ts:33 throws a `TypeError`, outside the `try`, so the handler's promise rejects and no reply is written. CreateSubscription.Handle and CreateSubscription.CreateSubscription therefore answer such an id with 400 "Invalid planId" where the code answers nothing.
- StartFreeTrial.NewTrial uses whole day numbers. The `Date` arithmetic and ISO formatting of the start, end and renewal dates are not modelled.
- StatusDisplay.Render keeps the next billing date as text. `new Date(...).toLocaleDateString()` formatting is not modelled.
- StatusDisplay.Render shows whole numbers through their decimal text. The counts are integers, not JavaScript numbers.
- `services/paymentService.ts` as shown exports neither `createRazorpayOrder` nor `openRazorpayCheckout`. The section takes their outcomes as inputs.
- PlansSection.Section.SelectPlan models `SUBSCRIPTION_PLANS[planId]` as own-key membership. Only the card keys reach it, and those are all own keys.
- The `onSubscriptionSuccess` callback, `alert` and the order and checkout calls are recorded as a sequence of effects. They are not performed.
- `api/stripe-webhook.ts`, `api/gemini.ts`, the Gemini services and `src/services/databaseService.ts` are not part of this model.
- The thrown value in each `catch` is modelled by its optional string message. A non-string `message` is not modelled.

## Findings

| source | as written | input that shows it | evidently intended | confidence | as-written member | corrected member |
|---|---|---|---|---|---|---|
| api/create-subscription.ts:33 | `!PLAN_CONFIG[planId]` also succeeds for names every object inherits from `Object.prototype` | `{"planId": "toString"}` passes the check; `PLAN_CONFIG["toString"]` is then a function, so Razorpay is called without amount, interval and period, and a successful reply is a 200 without them | only the four plan ids pass (an own-property check) | not executed | CreateSubscription.PrototypeNameReachesProvider | CreateSubscription.InheritedNamesRefused |
