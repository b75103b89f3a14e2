# Portfolio gallery of the Husté-Mirassou site, in Dafny

This project models the logic of the portfolio part of a small contractor's
website. It covers four pieces:

- the **image carousel** of the realisation modal (`src/components/RealisationModal.tsx`).
  It shows the featured image and then the gallery. The carousel:
  - advances on a 3000 ms interval;
  - crossfades over 300 ms, with at most one `changeImage` request accepted
    while a crossfade is pending;
  - pauses auto-advance for a restartable 5000 ms cooldown after every manual
    action (arrow key, arrow button or dot);
- the **earlier modal** (`huste-mirassou-site/src/components/RealisationModal.tsx`).
  It has one index cell moved by wraparound updaters, dot jumps, the reset on
  open, index revalidation and the "Image k sur n" counter;
- the **portfolio section** (`huste-mirassou-site/src/components/RealisationsSection.tsx`).
  It covers:
  - the published filter on fetched data;
  - the two fixed defaults used when the fetch fails;
  - the category filter (`'all'`, or an exact `type` match);
  - the selection state of the modal;
- the **fixed-data content client** (`huste-mirassou-site/tina/__generated__/client.ts`).
  It holds the static records, the first-match lookup of one realisation by
  file name, and the list queries.

Modules:

- `Content` holds the records.
- `Gallery` holds what both modals share: the image sequence, `Next`, `Prev`
  and the revalidation rule.
- `SimpleModal` is the earlier modal, as a class.
- `CarouselSteps` is the crossfade carousel as a state machine. Each event
  (handler, effect body or timer callback) is a function from state to state.
- `CarouselModal` is the same carousel as a class with one field per state
  cell. Each of its methods is proved to produce exactly the `CarouselSteps`
  function of the same name applied to the old state, and to keep the
  invariant `Valid`: a pause always has an armed cooldown that will end it,
  and a pending target is the last completion scheduled.
- `CarouselLemmas` holds the properties of those steps.
- `PortfolioSection` and `MockClient` model the section and the client.

Timers are events, not wall-clock time:

- The cooldown timers carry ids. The state records which id is armed.
  Cancelling a timer makes its expiry do nothing.
- The 300 ms completions are a queue of targets. They fire in the order they
  were scheduled, since they all have the same delay.
- React refs are treated as equal to the state cells they mirror.

Behaviour of the carousel that the model keeps as written:

- **Arrow keys read a stale index.** The keydown handler is registered again
  only when its dependency list changes: the open flag, `onClose`, or the
  number of images. The list leaves out the current index. So arrow keys
  compute from the index captured at that registration (`keyHandlerIndex`).
  That index is captured before the reset on open lands. The on-screen
  buttons compute from the current index (`ArrowKeysUseStaleIndex`).
- **Closing stops only the interval.** The cooldown and any scheduled
  completion stay armed (`CloseKeepsTimers`).
- **The reset on open cancels no completion.** After reopening, two
  completions can be in flight. The stale one clears the pending target and
  shows its own image (`ReopenLeavesStaleCompletion`).
- **Loaded content is not cleared on open.** The images come from the
  previously loaded content until the new request answers.
- **The full-content request asks for `<filename>.mdx`.** If the client it
  imports serves the same fixed records as the site's fixed-data client,
  whose stored names already end in `.mdx`, the answer is always null and the
  prop stays on screen (`MockLookupFallsBackToProp`).

Behaviour of the code a reader might not expect:

- Closing does not cancel the cooldown (`CloseKeepsTimers`).
- A pause also ends when the modal is reopened or switched to another
  realisation, without any cooldown (`PauseEndsOnlyByArmedCooldownOrReset`).
- Targets are not range-checked. A completion scheduled before a reopen can
  make an index current that is past the end of the new images; only the
  validity effect resets it to 0 (`StaleCompletionLeavesIndexOutOfRange`).
- The at-most-one-transition rule does not survive a reopen
  (`ReopenLeavesStaleCompletion`).

## Model

| member | source | states |
|---|---|---|
| Gallery.FeaturedCaption | src/components/RealisationModal.tsx:75 | the featured caption is "Image principale - " followed by the title |
| Gallery.AllImages | huste-mirassou-site/src/components/RealisationModal.tsx:33-39 | no realisation gives no images; otherwise the count is (featured ? 1 : 0) + gallery size, the featured image (only a non-empty path counts) comes first with its caption, then every gallery item in order (same construction at src/components/RealisationModal.tsx:72-78) |
| Gallery.Revalidated | huste-mirassou-site/src/components/RealisationModal.tsx:49-53 | for n > 0 the result is in range; it is the index itself or 0, never a clamp to n-1; a valid index is kept |
| Gallery.NextInRange | huste-mirassou-site/src/components/RealisationModal.tsx:71-76 | for n > 0, next lies in [0, n) from any starting index |
| Gallery.PrevInRange | huste-mirassou-site/src/components/RealisationModal.tsx:64-69 | for n > 0, prev lies in [0, n) exactly when the start is at most n |
| Gallery.NextIsSuccessorModulo | src/components/RealisationModal.tsx:160 | on a valid index, next is (i + 1) mod n: the last index wraps to 0 |
| Gallery.PrevIsPredecessorModulo | src/components/RealisationModal.tsx:153 | on a valid index, prev is (i + n - 1) mod n: 0 wraps to the last index |
| Gallery.PrevNextInverse | huste-mirassou-site/src/components/RealisationModal.tsx:64-76 | prev undoes next and next undoes prev on every valid index, for every n >= 1 |
| SimpleModal.Modal.Counter | huste-mirassou-site/src/components/RealisationModal.tsx:246-250 | the counter is shown exactly when the modal renders and there are images; it reads (index + 1) of n, and that lies in 1..n exactly when the index is valid |
| SimpleModal.Modal.constructor | huste-mirassou-site/src/components/RealisationModal.tsx:30 | the index starts at 0 |
| SimpleModal.Modal.Open | huste-mirassou-site/src/components/RealisationModal.tsx:42-46 | opening on a realisation resets the index to 0 when the open flag or the realisation changed |
| SimpleModal.Modal.Close | huste-mirassou-site/src/components/RealisationsSection.tsx:31-34 | closing clears the selection and keeps the index (the reset only runs while open) |
| SimpleModal.Modal.ArrowLeft | huste-mirassou-site/src/components/RealisationModal.tsx:64-69 | while open with images, the index becomes its wraparound predecessor, staying in range; with no images it is unchanged |
| SimpleModal.Modal.ArrowRight | huste-mirassou-site/src/components/RealisationModal.tsx:71-76 | while open with images, the index becomes its wraparound successor, always in range; with no images it is unchanged |
| SimpleModal.Modal.PrevButton | huste-mirassou-site/src/components/RealisationModal.tsx:131-144 | the button exists only with more than one image shown, and then steps back with wraparound, staying in range |
| SimpleModal.Modal.NextButton | huste-mirassou-site/src/components/RealisationModal.tsx:145-156 | the button exists only with more than one image shown, and then steps forward with wraparound, staying in range |
| SimpleModal.Modal.DotClick | huste-mirassou-site/src/components/RealisationModal.tsx:162-167 | a dot click sets the index to exactly that dot's position |
| SimpleModal.Modal.Revalidate | huste-mirassou-site/src/components/RealisationModal.tsx:49-53 | an index past the end of a non-empty sequence becomes 0, so the index is in range afterwards; a valid index is untouched |
| CarouselSteps.DisplayRealisation | src/components/RealisationModal.tsx:36 | the loaded full content takes priority: when it is present it is shown, otherwise the realisation prop; nothing only when both are missing |
| CarouselSteps.FullContentPath | src/components/RealisationModal.tsx:92-97 | a request is made only for a realisation with a non-empty file name, and asks for that name followed by ".mdx" |
| CarouselModal.Modal.constructor | src/components/RealisationModal.tsx:15-20 | index 0, no pending target, not paused, no timer armed; the state is valid |
| CarouselModal.Modal.PauseAutoScroll | src/components/RealisationModal.tsx:39-52 | paused, and the armed cooldown is replaced by a freshly issued one; the invariant `Valid` is kept |
| CarouselModal.Modal.ChangeImage | src/components/RealisationModal.tsx:55-69 | ignored when the target is current or a crossfade is pending; otherwise the target becomes pending and its completion is scheduled; the current index never changes here; the invariant `Valid` is kept |
| CarouselModal.Modal.CompleteTransition | src/components/RealisationModal.tsx:64-68 | the oldest scheduled completion makes its target current and clears the pending target |
| CarouselModal.Modal.CooldownExpired | src/components/RealisationModal.tsx:48-51 | only the armed cooldown's expiry ends the pause |
| CarouselModal.Modal.Tick | src/components/RealisationModal.tsx:119-139 | without an interval (closed, at most one image, or paused) or with a crossfade pending nothing changes; otherwise it requests the next image; it never pauses |
| CarouselModal.Modal.ArrowLeft | src/components/RealisationModal.tsx:150-156 | while open: pause, then request the predecessor of the index the handler captured |
| CarouselModal.Modal.ArrowRight | src/components/RealisationModal.tsx:157-163 | while open: pause, then request the successor of the index the handler captured |
| CarouselModal.Modal.PrevButton | src/components/RealisationModal.tsx:244-255 | while navigation is drawn: pause, then request the predecessor of the current index |
| CarouselModal.Modal.NextButton | src/components/RealisationModal.tsx:256-267 | while navigation is drawn: pause, then request the successor of the current index |
| CarouselModal.Modal.DotClick | src/components/RealisationModal.tsx:273-288 | while navigation is drawn: pause, then request that dot's image |
| CarouselModal.Modal.SetProps | src/components/RealisationModal.tsx:81-87 | when a prop changed and the modal is open: index 0, not paused, no pending target; completions and cooldown untouched; a props change re-registers the keydown handler with the pre-reset index; the invariant `Valid` is kept |
| CarouselModal.Modal.Open | src/components/RealisationModal.tsx:81-87 | the parent opens the modal on a realisation, with the reset above |
| CarouselModal.Modal.Close | src/components/RealisationModal.tsx:135-138 | the parent closes the modal; only the interval stops |
| CarouselModal.Modal.ContentArrived | src/components/RealisationModal.tsx:98-101 | the answer (found record or null) replaces the loaded content; a failure falls back to the prop; the keydown handler is registered again when the image count changed (what is displayed is stated by `ContentArrivedDisplays`) |
| CarouselModal.Modal.Revalidate | src/components/RealisationModal.tsx:112-116 | an index past the end of a non-empty sequence becomes 0; afterwards the index is in range |
| CarouselLemmas.InitialIsValid | src/components/RealisationModal.tsx:15-20 | the mounted state satisfies the invariant: closed, no completion, no cooldown |
| CarouselLemmas.StepPreservesValid | src/components/RealisationModal.tsx:39-69 | every event keeps the invariant: a pause always has an armed cooldown to end it, and a pending target is the last completion scheduled |
| CarouselLemmas.RunPreservesValid | src/components/RealisationModal.tsx:55-69 | any sequence of events from a valid state ends in a valid state |
| CarouselLemmas.ChangeImageGuard | src/components/RealisationModal.tsx:56 | changeImage changes the state if and only if the target differs from the current index and nothing is pending; it never moves the current index |
| CarouselLemmas.AcceptedTransitionCommits | src/components/RealisationModal.tsx:61-68 | an accepted request sets the pending target; its completion sets the current index to the target, clears the pending target and changes nothing else |
| CarouselLemmas.ManualActionPauses | src/components/RealisationModal.tsx:150-163 | every manual action on offer (key, button, dot) pauses and arms a fresh cooldown, even when changeImage drops the request |
| CarouselLemmas.PauseCancelsEarlierCooldowns | src/components/RealisationModal.tsx:43-45 | after a pause, the expiry of any earlier cooldown does nothing |
| CarouselLemmas.PauseEndsOnlyByArmedCooldownOrReset | src/components/RealisationModal.tsx:48-51 | over every event, a pause ends only by the armed cooldown's expiry or by the open reset at line 84; a reopen or a switch to another realisation ends it with no cooldown |
| CarouselLemmas.OnlyArmedCooldownUnpauses | src/components/RealisationModal.tsx:48-51 | while paused, an expiry ends the pause if and only if it is the armed cooldown's |
| CarouselLemmas.PauseRestartsCooldown | src/components/RealisationModal.tsx:39-52 | two pauses in a row: the first cooldown is dead and the second ends the pause |
| CarouselLemmas.TickIdle | src/components/RealisationModal.tsx:120-128 | closed, at most one image, paused, or a crossfade pending: a tick changes nothing |
| CarouselLemmas.TickRequestsSuccessor | src/components/RealisationModal.tsx:130-132 | otherwise a tick requests (current + 1) mod n and leaves the pause state and the cooldown as they were |
| CarouselLemmas.OpenResets | src/components/RealisationModal.tsx:81-87 | opening a closed modal, or switching an open one to another realisation, shows image 0, unpaused, with nothing pending; scheduled completions, the cooldown and the loaded content are kept; the key handler holds the pre-reset index |
| CarouselLemmas.CloseKeepsTimers | src/components/RealisationModal.tsx:135-138 | after closing, ticks and keys do nothing, but the completions and the cooldown stay armed and a completion still moves the hidden index |
| CarouselLemmas.RevalidateResetsToZero | src/components/RealisationModal.tsx:112-116 | an index past the end goes to 0, not to n-1; afterwards it is in range; a valid state is untouched |
| CarouselLemmas.NavigationKeepsKeyHandlerIndex | src/components/RealisationModal.tsx:169 | navigation, timers and the validity effect change neither the key handler's captured index nor the images |
| CarouselLemmas.ContentArrivedDisplays | src/components/RealisationModal.tsx:90-105 | a found record is displayed in place of the prop; a null answer or a failure leaves the prop displayed; the keydown handler's index is captured again exactly when the image count changed (dependency list at line 169); nothing else changes |
| CarouselLemmas.ButtonsNextThenPrev | src/components/RealisationModal.tsx:245-263 | with nothing in flight, "→" then "←", each waited to completion, return to the starting image |
| CarouselLemmas.ArrowKeysUseStaleIndex | src/components/RealisationModal.tsx:142-169 | with three images, two ArrowRight presses (each completed) reach image 1, where two "→" clicks reach image 2 |
| CarouselLemmas.ReopenLeavesStaleCompletion | src/components/RealisationModal.tsx:81-87 | open, "→", close, open, dot 2 leaves completions [1, 2] with 2 pending; the stale completion clears the pending target and shows image 1 |
| CarouselLemmas.DoubleRequestWithinCrossfade | src/components/RealisationModal.tsx:56-68 | two clicks on dot 1 within a crossfade schedule one completion, which lands on image 1 |
| CarouselLemmas.StaleCompletionLeavesIndexOutOfRange | src/components/RealisationModal.tsx:64-68 | open on three images, dot 2, close, open on a one-image realisation: the completion makes index 2 current with one image; the validity effect then resets it to 0 |
| CarouselLemmas.MockLookupFallsBackToProp | src/components/RealisationModal.tsx:95-98 | if the modal's client serves the site's fixed records: for a listed realisation, the path asked for is not found by the fixed-data client, and the modal keeps showing the prop |
| MockClient.FindByFilename | huste-mirassou-site/tina/__generated__/client.ts:162-163 | none found if and only if no node's file name equals the name exactly; otherwise the first matching node in list order |
| MockClient.RealisationQuery | huste-mirassou-site/tina/__generated__/client.ts:160-174 | null exactly when no stored file name equals the path; otherwise the first match with the placeholder body and an empty gallery, every other field copied |
| MockClient.RealisationConnection | huste-mirassou-site/tina/__generated__/client.ts:156-158 | three published nodes, each with a file name, carrying `categorie` but no `type` |
| MockClient.ServiceConnection | huste-mirassou-site/tina/__generated__/client.ts:176-178 | three published, featured services with four features each |
| MockClient.CategorieConnection | huste-mirassou-site/tina/__generated__/client.ts:180-182 | four categories, each with id equal to its value |
| MockClient.Config | huste-mirassou-site/tina/__generated__/client.ts:184-195 | the fixed site configuration of "SARL Husté-Mirassou" |
| MockClient.ListedRealisationsAreFound | huste-mirassou-site/tina/__generated__/client.ts:160-174 | each listed realisation is found under its own stored name, with all its other fields kept |
| MockClient.DoubledExtensionIsNotFound | huste-mirassou-site/tina/__generated__/client.ts:163 | matching is exact: a stored name with ".mdx" appended again is never found |
| PortfolioSection.FilterByType | huste-mirassou-site/src/components/RealisationsSection.tsx:81 | the result is a subsequence of the list, every element has exactly that `type`, and each matching realisation occurs as often as in the list |
| PortfolioSection.Filtered | huste-mirassou-site/src/components/RealisationsSection.tsx:79-81 | "all" gives the whole list; any other value gives the exact `type` matches |
| PortfolioSection.PublishedNodes | huste-mirassou-site/src/components/RealisationsSection.tsx:40-41 | the kept nodes are a subsequence of the fetched ones, all published, each published node kept as often as it occurs; null entries drop out |
| PortfolioSection.LoadedRealisations | huste-mirassou-site/src/components/RealisationsSection.tsx:38-62 | a failure gives exactly the two defaults; a missing edge list gives none; otherwise exactly the answer's published nodes, in order |
| PortfolioSection.DefaultsByCategory | huste-mirassou-site/src/components/RealisationsSection.tsx:44-62 | on the defaults, "terrasse" and "maconnerie" each find one realisation, "all" finds both, any other filter finds none |
| PortfolioSection.PublishedNodesKeepsPublished | huste-mirassou-site/src/components/RealisationsSection.tsx:41 | a fully published list passes the published filter whole, in order |
| PortfolioSection.UntypedMatchNoCategory | huste-mirassou-site/src/components/RealisationsSection.tsx:81 | realisations without a `type` match no category |
| PortfolioSection.MockDataOnlyShowsUnderAll | huste-mirassou-site/src/components/RealisationsSection.tsx:39-41 | the fixed-data answer is kept whole, but every filter other than "all" shows nothing for it |
| PortfolioSection.Section.constructor | huste-mirassou-site/src/components/RealisationsSection.tsx:20-24 | category "all", no realisations, loading, nothing selected, modal closed |
| PortfolioSection.Section.Cards | huste-mirassou-site/src/components/RealisationsSection.tsx:115-121 | no cards while loading; afterwards the filtered list |
| PortfolioSection.Section.SelectCategory | huste-mirassou-site/src/components/RealisationsSection.tsx:102 | a filter button sets the selected category |
| PortfolioSection.Section.FetchCompleted | huste-mirassou-site/src/components/RealisationsSection.tsx:36-69 | the list becomes what is kept from the answer, and loading ends on both the success and the failure path |
| PortfolioSection.Section.OpenModal | huste-mirassou-site/src/components/RealisationsSection.tsx:26-29 | the card becomes the selection and the modal opens |
| PortfolioSection.Section.CloseModal | huste-mirassou-site/src/components/RealisationsSection.tsx:31-34 | the modal closes and the selection is cleared |

## Left out

- Network requests are not modelled as requests. Each answer is an input event: `ContentArrived` for the full-content load and `FetchCompleted` for the list.
  - An answer may arrive at any time, as a late answer can.
  - A failed full-content load falls back to the current realisation prop. The source falls back to the prop as it was when the request started.
  - The `isLoading` flag of the modal is not modelled.
- Which client is used (the development server or the fixed data) depends on `window.location`, so it is not modelled. The answers to the list request (`ConnectionResult`) and to the full-content request (`LoadOutcome`) are arbitrary inputs. The fixed-data client is modelled on its own and is connected to those answers only in `MockDataOnlyShowsUnderAll` and `MockLookupFallsBackToProp`.
- The content client that the crossfade modal imports (`tina/__generated__/client` at the repository root) is not part of this model. MockLookupFallsBackToProp holds only if it serves the same fixed records as `huste-mirassou-site/tina/__generated__/client.ts`. The parent that supplies the crossfade modal's `realisation` (the root app's portfolio section) is not part of this model either.
- Wall-clock time is not modelled: timers are events, and the 300, 3000 and 5000 ms delays are not represented: the expiry of each timer is an event (`TransitionDone`, `IntervalFired`, `CooldownDone`). The CSS fade and the opacities are not modelled either.
- Rendering is left out, except what decides which handlers exist: the arrow buttons and dots, the counter, and the card grid. Alt texts, captions on screen, rich-text bodies and French date formatting are not modelled.
- The Escape key and the overlay click call the parent's close. The close itself is the `Close` event.
- The record fields `description`, `location`, `client`, `duration` and `surface` are only displayed, so they are left out.
- Dependency comparisons in React use object identity. The model compares by value.
- The parent of the crossfade modal is not part of this model. Its re-registration of the key handler assumes the parent passes a new `onClose` on every render, as the portfolio section does with `closeModal`.
- MockClient.FindByFilename: a node without `_sys` would make the source throw. The model treats such a node as no match. Every fixed node has `_sys`.
- MockClient.Config: the contract names only the company name. The other five fields are the fixed record in the body.
- MockClient.ServiceConnection: the contract gives counts and flags, not the full text of each service.
- MockClient.CategorieConnection: the contract gives the count and the id/value agreement, not the labels and descriptions.
- The Navigation and quote-form components, the other content sections, the CMS schemas, the console-warning patches, the page and layout files, and the browser test scripts are not modelled. They are framework composition, configuration or I/O.
