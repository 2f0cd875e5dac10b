# AI twin wizard: a Dafny model

This project models the client-side logic of a browser wizard. The user uploads 5 to 10 photos, passes a mock payment step (with an optional promo code), and waits while a remote generative-AI service describes the person and renders four portraits. The user then sees the results and moves on to an upsell view. There, virtual coins are bought and spent to recompose a reference photo with the generated identity.

The model has one module per source file:

- `App` (App.tsx) is the wizard controller. The `Session` datatype is a snapshot of its nine state fields. Each handler is a pure transition function on `Session`. The class `App.Wizard` holds the same fields and has one method per handler. Each method updates the fields step by step, as the source does, and promises `State() == F(old(State()))` for its transition function `F`. An event model describes which actions each step's view offers; it covers the `renderStep` switch and the buttons' `disabled` conditions. The lemmas over it prove an invariant that holds across any sequence of user actions.
- `UploadStep` (components/UploadStep.tsx) holds the list operations behind the file picker and the remove buttons, plus the "maximum reached" warning. The class `UploadView` holds the view's own `uploadMessage`.
- `PaymentStep` (components/PaymentStep.tsx) holds ASCII `trim` and `toUpperCase`, the promo test, and the class `PaymentView` with the promo fields and the two buttons.
- `Remote` is the boundary to the generation service. It defines `Outcome` (a payload or a failure), `JoinAll` (the all-or-nothing, order-preserving join of `Promise.all`) and `Gallery` (four prompts, joined).
- `Decimal` renders the count shown inside a message, and proves that reading the numeral back gives the count.
- `Wrappers` holds `Option`.

Remote calls, file encoding and the data-URL split are parameters of the handlers. Each is a function from its input to an `Outcome`, so every success or failure pattern is covered:

- `encode` is applied to each file;
- `describe` is applied to the encoded payloads;
- `render(k, d)` is the request built from prompt template `k` and description `d`;
- `recompose` is applied to the description and the reference image.

Where the code behaves in ways a reader might not expect, the model follows the code:

- A synthesis failure does not roll back the description already stored (App.tsx:49). The generation pipeline is therefore not atomic.
- `handleRecreate` also blocks when the description is missing. JavaScript's `!personDescription` is true for the empty string as well as for `null`, so an empty description counts as missing.
- `handlePurchaseCoins` accepts any integer amount. Only the subscription view restricts purchases to the 20 and 100 coin packs, which the event model encodes.
- A successful generation leaves `error` as it was.
- A file that cannot be encoded ends generation with the same generic error as a failed remote call (App.tsx:47, App.tsx:56). It is not reported as a validation error.
- In the warning guard, `remainingSlots > 0` is implied by `files.length < 10`, so it never changes the outcome.
- The Create button is disabled unless the list is valid (components/UploadStep.tsx:79). The event model only offers Proceed on a valid list. `ProceedToPayment` itself still handles the invalid case, as the handler does.

## Model

| member | source | states |
|---|---|---|
| Remote.JoinAll | App.tsx:47 | `Promise.all` over a list: it succeeds exactly when every call succeeds, and then yields one result per input, in input order |
| Remote.Gallery | services/geminiService.ts:64-75 | a successful synthesis yields exactly four images, one per prompt template, each built from the description; it fails if any one request fails |
| Decimal.NatToString | components/UploadStep.tsx:24 | the `${remainingSlots}` numeral: non-empty, digits only, no leading zero, one digit exactly below 10 |
| Decimal.ParseNatToString | components/UploadStep.tsx:24 | reading the rendered numeral back gives the number |
| UploadStep.Take | components/UploadStep.tsx:21 | `slice(0, n)` is a prefix of length `min(n, length)` |
| UploadStep.AddBatch | components/UploadStep.tsx:18-27 | a new list is handed on exactly when files were picked and fewer than 10 are held; the old list is a prefix of it, the added part is a prefix of the pick, and its length is `min(10, old + picked)` |
| UploadStep.IsValid | components/UploadStep.tsx:40 | `isValid`: holds exactly when the list holds 5 to 10 files; `ProceedToPayment` proves the controller's guard is the same predicate |
| UploadStep.PickTwelveIntoEmpty | components/UploadStep.tsx:18-27 | picking 12 files into an empty list adds the first 10 and sets the warning for 10 places |
| UploadStep.AddMessage | components/UploadStep.tsx:16-25 | the message is cleared first; the warning is set exactly when files were picked, fewer than 10 are held and more were picked than places remain, and it is the warning for that number of places |
| UploadStep.Warning | components/UploadStep.tsx:24 | the warning text: the fixed opening, the numeral for the remaining places, "file was" for one place and "files were" otherwise, then "added." |
| UploadStep.WarningStatesCount | components/UploadStep.tsx:24 | the warning names the number of remaining places, as a numeral right after its fixed opening |
| UploadStep.WarningSingular | components/UploadStep.tsx:24 | a space follows the numeral, and the rest reads "file was added." when one place remained and "files were added." otherwise |
| UploadStep.SkipPosition | components/UploadStep.tsx:35 | the index filter, counted from an offset: it drops only the element at the given position and keeps the others in order |
| UploadStep.RemoveAt | components/UploadStep.tsx:35 | `filter((_, i) => i !== index)`: for an index in range, the length drops by one, the elements before it stay and the later ones move down by one; otherwise the list is unchanged |
| UploadStep.RemoveAtMultiset | components/UploadStep.tsx:35 | removal takes exactly the one file at that index out of the collection |
| UploadStep.UploadView.constructor | components/UploadStep.tsx:13 | the view starts without a message |
| UploadStep.UploadView.HandleFileChange | components/UploadStep.tsx:15-31 | hands on the list given by `AddBatch` and leaves the message given by `AddMessage` |
| UploadStep.UploadView.RemoveFile | components/UploadStep.tsx:34-38 | hands on the list without that index and clears the message |
| PaymentStep.IsSpace | components/PaymentStep.tsx:15 | the characters `trim()` removes, restricted to ASCII: space, tab, line feed, vertical tab, form feed, carriage return |
| PaymentStep.LeadingSpaces | components/PaymentStep.tsx:15 | the longest all-white-space prefix: it is all white space, and the next character is not |
| PaymentStep.TrailingSpaces | components/PaymentStep.tsx:15 | the longest all-white-space suffix: it is all white space, and the character before it is not |
| PaymentStep.Trim | components/PaymentStep.tsx:15 | `trim()` is the middle of the input with only white space around it, and its ends are not white space |
| PaymentStep.LeadingSpacesOfPadded | components/PaymentStep.tsx:15 | white space followed by a non-space means the leading run is exactly that white space |
| PaymentStep.TrailingSpacesOfPadded | components/PaymentStep.tsx:15 | a non-space followed by white space means the trailing run is exactly that white space |
| PaymentStep.TrimOfPadded | components/PaymentStep.tsx:15 | trimming a white-space-padded string whose ends are not white space gives back exactly that string |
| PaymentStep.TrimIdempotent | components/PaymentStep.tsx:15 | trimming twice is trimming once |
| PaymentStep.UpperChar | components/PaymentStep.tsx:15 | lower-case ASCII letters move to upper case, and every other character is kept |
| PaymentStep.Upper | components/PaymentStep.tsx:15 | `toUpperCase()` keeps the length and upper-cases every character in place |
| PaymentStep.PromoMatches | components/PaymentStep.tsx:15 | the test `promoCode.trim().toUpperCase() === 'TWIN'`; `PromoMatchesIff` characterizes it |
| PaymentStep.PromoAcceptsPadded | components/PaymentStep.tsx:15 | any spelling of "twin" in any letter case, padded with any white space, is accepted |
| PaymentStep.PromoMatchShape | components/PaymentStep.tsx:15 | an accepted code is "twin" in some case, starting right after the leading white space, with only white space after it |
| PaymentStep.PaddedPromoMatches | components/PaymentStep.tsx:15 | every padded "twin" split of a code makes it accepted |
| PaymentStep.PromoMatchesIff | components/PaymentStep.tsx:15 | a code is accepted if and only if it is "twin" in some letter case with only white space around it |
| PaymentStep.UpperIsPromo | components/PaymentStep.tsx:15 | four letters that upper-case to T, W, I, N spell the code |
| PaymentStep.AcceptsLowerCase | components/PaymentStep.tsx:15 | "twin" is accepted |
| PaymentStep.AcceptsPadded | components/PaymentStep.tsx:15 | " Twin " is accepted |
| PaymentStep.RejectsInnerSpace | components/PaymentStep.tsx:15 | "TW IN" is rejected, because inner white space is not trimmed |
| PaymentStep.RejectsOtherLetter | components/PaymentStep.tsx:15 | "twim" is rejected |
| PaymentStep.ApplyEnabled | components/PaymentStep.tsx:64 | Apply is enabled exactly when the code has a non-white-space character |
| PaymentStep.PaymentView.constructor | components/PaymentStep.tsx:10-12 | the view starts with an empty code, no promo applied and no error |
| PaymentStep.PaymentView.ApplyPromo | components/PaymentStep.tsx:14-21 | a matching code sets applied and clears the error; any other code sets the invalid-code error and leaves applied as it was; applied never goes from true to false |
| PaymentStep.PaymentView.EditCode | components/PaymentStep.tsx:54-57 | replaces the code, leaves no error and keeps applied |
| PaymentStep.PaymentView.Confirm | components/PaymentStep.tsx:76 | always calls `onPaymentSuccess`; the promo state plays no part |
| PaymentStep.PaymentView.GoBack | components/PaymentStep.tsx:84 | calls `onBack` |
| App.Initial | App.tsx:21-31 | the first state and the state after every reset: `upload`, no files, no gallery, no error, no description, 20 coins, nothing recreated, not recreating, no recreation error |
| App.ProceedToPayment | App.tsx:35-42 | moves to `payment` with no error if and only if 5 to 10 files are held (the upload view's `isValid`); otherwise it sets the error and keeps the step; only these two fields change |
| App.DescribeStage | App.tsx:47-48 | fails when any file fails to encode; when every file encodes, it is the description request applied to the encodings in file order |
| App.GenerationFailed | App.tsx:54-57 | the catch branch: the step becomes `upload` and the error the generic generation error, and nothing else changes |
| App.RecreateAllowed | App.tsx:83-91 | both guards of `handleRecreate` pass: at least 10 coins and a non-empty description |
| App.AfterPayment | App.tsx:44-59 | ends in `results` exactly when encoding, description and all four renders succeed; the description is kept when the describe stage succeeded, even if synthesis then failed; on success the gallery has four images; on failure the step is `upload` with the generic error and the gallery is unchanged; files, coins and recreation state never change |
| App.PurchaseCoins | App.tsx:77-80 | the balance rises by exactly the amount, the recreation error is cleared, and nothing else changes |
| App.HasDescription | App.tsx:88 | the negation of `!personDescription`: a description is present and is not the empty string |
| App.Recreate | App.tsx:82-108 | below 10 coins: only the insufficient-coins error is set; with no non-empty description: only the missing-description error is set; past both guards, success debits exactly 10 and stores the image, failure keeps the balance, clears the image and sets the failure error, and `isRecreating` ends false; a non-negative balance stays non-negative |
| App.Wizard.constructor | App.tsx:21-31 | the first state: `upload`, no files, no gallery, no description, 20 coins, and no recreation state or errors |
| App.Wizard.SetUploadedFiles | App.tsx:113 | `onFilesSelect` replaces only the file list |
| App.Wizard.AddFiles | App.tsx:113 | the picker wired to the controller: the list becomes `AddBatch`'s result when there is one, and nothing else changes |
| App.Wizard.RemoveFile | App.tsx:113 | a remove button wired to the controller: the list loses that index, and nothing else changes |
| App.Wizard.HandleProceedToPayment | App.tsx:35-42 | the new state is `ProceedToPayment` of the old one |
| App.Wizard.HandlePaymentSuccess | App.tsx:44-59 | the new state is `AfterPayment` of the old one and the outcomes |
| App.Wizard.HandleSaveAndContinue | App.tsx:61-63 | only the step changes, to `subscribe` |
| App.Wizard.HandleBack | App.tsx:115 | only the step changes, to `upload` |
| App.Wizard.HandleReset | App.tsx:65-75 | from any state, the initial state with 20 coins; so resetting twice gives the same state as resetting once |
| App.Wizard.HandlePurchaseCoins | App.tsx:77-80 | the new state is `PurchaseCoins` of the old one |
| App.Wizard.HandleRecreate | App.tsx:82-108 | the remote call is requested exactly when both guards pass, and the new state is `Recreate` of the old one |
| App.Enabled | App.tsx:110-133 | the actions each step's view offers: the picker below 10 files (components/UploadStep.tsx:60), a remove button per file, Create only for a valid list (components/UploadStep.tsx:79), confirm and back at payment, nothing while generating, continue and restart at results (components/ResultsStep.tsx:52, 60), restart, the 20 and 100 coin packs (components/SubscriptionStep.tsx:63, 68) and recreate unless a recreation runs (components/SubscriptionStep.tsx:105) at subscribe |
| App.Apply | App.tsx:110-133 | each action applies the handler its view is wired to; recreate without a reference image changes nothing (components/SubscriptionStep.tsx:45-47) |
| App.Inv | App.tsx:110-133 | what holds between user actions: a non-negative balance, no recreation in flight, at most 10 files, never resting in `generating`, and a description plus four images whenever results or the subscription view are shown |
| App.InitialInv | App.tsx:21-31 | the initial state satisfies the session invariant |
| App.ApplyKeepsInv | App.tsx:110-133 | every action a view offers keeps the invariant: coins at least 0, no recreation in flight, at most 10 files, never resting in `generating`, and a description plus four images whenever results or the subscription view are shown |
| App.RunKeepsInv | App.tsx:110-133 | the invariant holds after any sequence of offered actions |
| App.CoinsNeverNegative | App.tsx:82-107 | the balance never goes negative in any session, when handlers run to completion one at a time |
| App.StepsFollowEdges | App.tsx:110-133 | every action moves along the wizard's transitions: upload to upload or payment, payment to results or upload, results to subscribe or upload, subscribe to subscribe or upload |
| App.CoinsChangeOnlyByLedger | App.tsx:73-101 | only buying, recreating and restarting change the balance |
| App.RestartIdempotent | App.tsx:65-75 | restarting twice gives the same session as restarting once |

## Left out

- Coins and purchase amounts: modelled as integers; the source keeps them as JavaScript numbers, which would also accept fractions and NaN, though the views pass only 20 or 100.

- Asynchrony is left out. Each handler runs to completion as one step. A response arriving after a reset, the `prevCoins =>` functional updates, and the intermediate renders (such as `isRecreating` showing true) are not modelled.
- App.CoinsNeverNegative: holds only when handlers run to completion one at a time. In the source, a reset during a recreation turns `isRecreating` off and refills the balance to 20. The user can walk back to the subscription view and start a second recreation; the first one's `finally` (App.tsx:106) then re-enables the button for a third. With 10 coins at the start, the three debits at App.tsx:101 can leave the balance at -10.
- Logging (`console.log` and `console.error`, App.tsx:55, App.tsx:103, services/geminiService.ts:15, 33, 45, 74, 89, 112) is not modelled; no state depends on it.
- `fileToBase64`, FileReader and the `split(',')[1]` of the reference image depend on browser I/O. They are folded into the outcome parameters `encode` and `recompose`.
- The request contents sent to the service are not modelled: model id, prompt wording, MIME types, and the extraction of the inline image from the first candidate. In the model, `render(k, d)` stands for the request built from template `k` and description `d`. A description arriving as `undefined` is not modelled either.
- PaymentStep.Trim: models only ASCII white space (space, tab, line feed, vertical tab, form feed, carriage return). The Unicode spaces and line terminators that JavaScript also trims are not modelled.
- PaymentStep.Upper: models only ASCII letters. JavaScript's full Unicode upper-casing is not modelled; it can change a string's length ("ß" becomes "SS") and maps the dotless "ı" to "I".
- The results view's download, the generation view's rotating messages, the header, the icons and all markup are presentation only.
- The subscription view's reference-image picker is browser I/O. Its early return without a reference image appears as `ClickRecreate(None, _)` in the event model.
- `event.target.value = ''` resets a DOM input and is not modelled.
