# Portfolio site interaction logic, modelled in Dafny

The site is a single-page portfolio. Its interactive logic is three small
event-driven state machines, and this project models and verifies them:

- **Navigation header** (`Header`). It keeps the active section, whether
  the drawer menu is open, and whether the viewport is mobile.
  - A scroll event runs a reverse scan over the fixed menu list
    (`Home … Contact`). The last entry whose section element exists and whose
    top is at most `scrollY + 100` becomes active. When no entry qualifies,
    the active section is kept.
  - A resize event classifies the viewport as mobile when it is narrower than
    768 pixels.
  - The hamburger button toggles the drawer.
  - A menu entry asks to scroll to its section's offset when that section
    exists. On mobile it toggles the drawer either way.
- **Contact form** (`Contact`). A submission clears both notices and marks the
  form busy, which disables the button and changes its caption to
  "Sending...". When the relay answers, either the success notice shows and
  the inputs are cleared, or the fixed error message shows and the inputs are
  kept. In both cases the form then stops being busy.
- **Service card** (`Services`). Pointer enter and leave show and hide the
  card's overlay on desktop only. A tap toggles it on mobile only.

Each component has:
- a datatype for its state value;
- one pure transition function per handler, since each handler runs as one
  atomic step;
- a class whose fields are the component's state (for the form, also the
  contents of its inputs, which the page holds). Each method of the class is
  proved to move the fields exactly as its transition function says.

Lemmas state what the source promises about the transitions. An event type
with a `Run` function over event sequences carries the invariants of all
reachable states.

The page is modelled by an injected layout oracle, `Header.Offsets`. It is a
partial map from an element id to that element's `offsetTop`, and an id
missing from the map is an anchor the page does not have. The relay is
modelled by its outcome (`Contact.RelayOutcome`), which the caller supplies.
Viewport width and scroll position are parameters of the event methods.

Files: `wrappers.dfy` (the `Option` type), `viewport.dfy` (the 768-pixel
breakpoint, which `Header.js` and `Services.js` both use), `header.dfy`,
`contact.dfy`, `services.dfy`.

The model follows the code: a menu entry on a mobile viewport toggles the
drawer rather than forcing it closed. `Header.SmoothScrollContract` proves the consequence: when
the drawer is open, which is the only time mobile visitors see the entries,
the drawer closes.

## Model

| member | source | states |
|---|---|---|
| Viewport.BreakpointBoundary | src/components/Header.js:17 | a width is mobile exactly when it is below 768; 767 is mobile and 768 is desktop |
| Viewport.IsMobileWidth | src/components/Header.js:17 | the breakpoint test, `width < 768`, shared with Services.js:17; no contract of its own, described by Viewport.BreakpointBoundary |
| Header.ToLowerCase | src/components/Header.js:30 | an id keeps its label's length, leaves every character other than an upper-case ASCII letter as it is, and has no upper-case letter; a label without capitals is its own id |
| Header.ToLowerCaseLowersCapitals | src/components/Header.js:30 | lower-casing turns each upper-case ASCII letter into the matching lower-case letter (code point plus 32) |
| Header.LowerChar | src/components/Header.js:30 | the result is never an upper-case letter; an upper-case ASCII letter becomes its lower-case letter; any other character is kept |
| Header.SectionId | src/components/Header.js:30 | the lowercase id of menu entry i, used both by the tracker and by the entry's link (line 81); described by SectionIdValues and SectionIdsDistinct |
| Header.SectionIdsDistinct | src/components/Header.js:7-9 | two different menu entries never share an element id |
| Header.SectionIdValues | src/components/Header.js:30 | the ids derived from the menu are home, about, services, portfolio, experience, skills, blog and contact |
| Header.SectionElements | src/components/Header.js:30 | one slot per menu entry; a slot holds an offset exactly when the entry's lowercase id is on the page, and then it holds that element's offset |
| Header.LastReached | src/components/Header.js:33-38 | the result is the greatest index below n whose element exists with top at most the scroll position; it is None exactly when no such index exists |
| Header.TrackerPicksGreatestReached | src/components/Header.js:30-37 | over the whole page, the scan yields None exactly when no section is reached; otherwise it yields a reached section with no reached section after it |
| Header.ScrollActivatesLastReached | src/components/Header.js:29-39 | a scroll makes the greatest reached entry active and leaves everything unchanged when none is reached; the drawer and viewport flags never change |
| Header.ScrollKeepsValid | src/components/Header.js:35 | a scroll can only activate a menu entry |
| Header.ActiveSectionAlwaysInMenu | src/components/Header.js:11-46 | after any sequence of resize, scroll, toggle and entry clicks, the active section is a menu entry |
| Header.ExactlyOneHighlighted | src/components/Header.js:84 | whenever the active section is a menu entry, exactly one entry is underlined as active |
| Header.IsHighlighted | src/components/Header.js:84 | entry i is underlined exactly when it is the active section; no contract of its own, described by ExactlyOneHighlighted |
| Header.TrackerExample | src/components/Header.js:31-37 | with sections at 0, 800 and 1600, a scroll to 750 activates About, to 0 activates Home, and to 1700 activates Services |
| Header.Resized | src/components/Header.js:16-18 | the resize handler's transition; no contract of its own, described by ResizeClassifies |
| Header.Scrolled | src/components/Header.js:29-39 | the scroll handler's transition; no contract of its own, described by ScrollActivatesLastReached and ScrollKeepsValid |
| Header.MenuToggled | src/components/Header.js:48-50 | the drawer toggle's transition; no contract of its own, described by ToggleFlips |
| Header.SmoothScrolled | src/components/Header.js:57-69 | a menu entry's click transition and the scroll it requests; no contract of its own, described by SmoothScrollContract and NavItemScrollsToOwnSection |
| Header.ResizeClassifies | src/components/Header.js:16-18 | after a resize the viewport is mobile exactly when the width is below 768; nothing else changes |
| Header.ToggleFlips | src/components/Header.js:48-50 | toggling flips the drawer flag only, and toggling twice restores the state |
| Header.SmoothScrollContract | src/components/Header.js:57-69 | a scroll to exactly the target's offset is requested when the id resolves, and none otherwise; on mobile the drawer is toggled, so an open one closes; on desktop it is unchanged; the active section is untouched |
| Header.NavItemScrollsToOwnSection | src/components/Header.js:81 | clicking entry i requests a scroll to entry i's own element, and requests none when that element is missing |
| Header.Navigation.constructor | src/components/Header.js:11-13 | starts with Home active, the drawer closed and the desktop layout |
| Header.Navigation.HandleResize | src/components/Header.js:16-18 | the fields move as the resize transition says |
| Header.Navigation.HandleScroll | src/components/Header.js:29-39 | the reverse loop with an early exit leaves the fields as the scroll transition says |
| Header.Navigation.ToggleMenu | src/components/Header.js:48-50 | the fields move as the toggle transition says |
| Header.Navigation.HandleSmoothScroll | src/components/Header.js:57-69 | returns the requested scroll target and moves the fields as the smooth-scroll transition says |
| Contact.PendingState | src/components/Contact.js:27-30 | between pressing submit and the relay's answer, the form is busy, shows no notice, keeps its inputs, and its button is disabled with the caption "Sending..." |
| Contact.SubmitStarted | src/components/Contact.js:27-30 | the start of a submission; no contract of its own, described by PendingState |
| Contact.SubmitResolved | src/components/Contact.js:32-47 | the relay's answer, then no longer busy; no contract of its own, described by SubmissionOutcome and StepKeepsConsistent |
| Contact.Submitted | src/components/Contact.js:26-48 | a whole submission; no contract of its own, described by SubmissionOutcome |
| Contact.SubmissionOutcome | src/components/Contact.js:32-47 | after a submission the form is never busy and shows exactly one notice; success clears the inputs with no error; failure keeps the inputs and shows the fixed error text without the success notice |
| Contact.ButtonReflectsSubmitting | src/components/Contact.js:109-112 | the button is disabled exactly while the form is busy, and it reads "Sending..." exactly then, "Send Message" otherwise |
| Contact.ButtonDisabled | src/components/Contact.js:109 | the button is disabled while the form is busy; no contract of its own, described by ButtonReflectsSubmitting |
| Contact.ButtonLabel | src/components/Contact.js:112 | the button's caption; no contract of its own, described by ButtonReflectsSubmitting |
| Contact.SuccessShown | src/components/Contact.js:115 | the success notice is drawn; no contract of its own, described by SubmissionOutcome and AlwaysConsistent |
| Contact.ErrorShown | src/components/Contact.js:116 | the error notice is drawn when the message is non-empty; no contract of its own, described by SubmissionOutcome and AlwaysConsistent |
| Contact.InitialConsistent | src/components/Contact.js:16-18 | the form starts not sent, with no error and not busy, in a consistent state |
| Contact.StepKeepsConsistent | src/components/Contact.js:26-47 | editing, submitting with an enabled button, and the relay settling all keep the form consistent |
| Contact.AlwaysConsistent | src/components/Contact.js:26-116 | along any sequence of edits, submissions and relay answers, a pending submission shows no notice, the two notices never show together, and the only error text is the fixed one |
| Contact.ContactForm.constructor | src/components/Contact.js:16-18 | starts not sent, with no error, not busy and with empty inputs |
| Contact.ContactForm.Edit | src/components/Contact.js:65-105 | typing replaces the inputs and nothing else |
| Contact.ContactForm.BeginSubmit | src/components/Contact.js:27-30 | the fields move as the submission-start transition says |
| Contact.ContactForm.FinishSubmit | src/components/Contact.js:32-47 | the fields move as the relay-answer transition says for the given outcome |
| Contact.ContactForm.SendEmail | src/components/Contact.js:26-48 | the whole submission leaves the form not busy with exactly one notice shown, as the submission transition says |
| Services.CheckMobileClassifies | src/components/Services.js:16-18 | after a check the card is mobile exactly when the width is below 768, and its hover flag is kept |
| Services.MobileChecked | src/components/Services.js:16-18 | the viewport check's transition; no contract of its own, described by CheckMobileClassifies |
| Services.MouseEntered | src/components/Services.js:50 | the pointer-enter transition; no contract of its own, described by DesktopHover and MobileTap |
| Services.MouseLeft | src/components/Services.js:51 | the pointer-leave transition; no contract of its own, described by DesktopHover, MobileTap and DesktopLeaveHides |
| Services.Clicked | src/components/Services.js:52 | the click transition; no contract of its own, described by DesktopHover and MobileTap |
| Services.OverlayShown | src/components/Services.js:64 | the expertise overlay is drawn in exactly when the card is hovered; no contract of its own, described by DesktopHover and MobileTap |
| Services.DesktopHover | src/components/Services.js:50-52 | on desktop, entering shows the overlay, leaving hides it, and a click changes nothing |
| Services.MobileTap | src/components/Services.js:50-52 | on mobile, enter and leave change nothing, a tap flips the overlay, and two taps restore it |
| Services.PointerEventsKeepViewportClass | src/components/Services.js:50-52 | no sequence of pointer events changes the viewport class |
| Services.DesktopLeaveHides | src/components/Services.js:50-51 | on desktop, any pointer sequence that ends with the pointer leaving leaves the overlay hidden |
| Services.ServiceCard.constructor | src/components/Services.js:12-13 | starts not hovered and in the desktop layout |
| Services.ServiceCard.CheckMobile | src/components/Services.js:16-18 | the fields move as the viewport check says |
| Services.ServiceCard.MouseEnter | src/components/Services.js:50 | the fields move as the pointer-enter transition says |
| Services.ServiceCard.MouseLeave | src/components/Services.js:51 | the fields move as the pointer-leave transition says |
| Services.ServiceCard.Click | src/components/Services.js:52 | the fields move as the click transition says |

## Left out

- The animation library's variants, durations, delays and spring settings are visual timing only. So is the `inView` trigger that starts the entrance animations.
- The relay call (`sendForm`), its service, template and key identifiers, and the console logging are left out. The outcome of the call is a parameter.
- The browser's own checks on the form are left out: `required` fields and the email format. The model accepts a submission with any input contents.
- The page's live measurements are parameters of the event methods: element lookup, `offsetTop`, `scrollY`, `innerWidth` and the actual `scrollTo`. They are all integers here, although a browser may report a fractional `scrollY`. The smooth scrolling animation is not modelled.
- Adding and removing the event listeners as the component mounts and unmounts is left out. So is `preventDefault`. The call to `handleResize` on mount is `HandleResize` with the width at load.
- Header.ToLowerCase: covers ASCII letters only, not full Unicode lower-casing, because every menu label is plain ASCII. Its own contract does not say what an upper-case letter becomes; Header.ToLowerCaseLowersCapitals states that as a lemma. With that fact as an ensures of the function, the verifier runs out of resources on Header.TrackerExample, which unfolds the eight concrete ids.
- React's state batching and re-rendering are left out. Each handler is one atomic transition. A second submission while one is pending is ignored, because the submit button is disabled then.
- The drawer is not force-closed when the viewport grows from mobile to desktop. The source does not do that either.
- The markup is left out: `renderNavItems`, the style classes, the static content of the other sections, and the page and layout composition.
