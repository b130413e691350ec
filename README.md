# Portfolio page script, modelled in Dafny

This project models the decision logic inside `js/main.js`, the client-side script of a static portfolio page. The page wiring becomes plain data:

- a class list becomes one `bool` per element;
- `localStorage` becomes a field;
- the reduced-motion media query becomes a constructor parameter;
- timers become abstract handles;
- "is the click target inside this element" becomes a boolean input.

The modules follow the script's components:

- `Theme` (`theme.dfy`): the registry of two themes and `applyTheme`. Also the startup choice from the stored preference and the floating theme panel. The root `data-theme`, the stored preference and the `#themeName` label are fields of `ThemeEngine`.
- `Slider` (`slider.dfy`): the project slider. The cursor is a JavaScript number, `Num(n)` or `NaN`. With no slides, `(i + 0) % 0` is `NaN`. JavaScript's truncating `%` is `JsRem`. `next`, `prev` and `goTo` wrap the cursor. `setActive` keeps exactly one slide active, writes the label and updates the caption. The keyboard and swipe decisions are functions. Autoplay keeps at most one live interval.
- `Filter` (`filter.dfy`): the visibility predicate, a button click and initialisation.
- `SkillBars` (`skill_bars.dfy`): the fallback chain for a bar's target width, `prepSkillBars`, and the staggered schedule a reveal creates.
- `Nav` (`nav.dfy`): the hamburger menu, whose two `active` classes change together.
- `Dom` (`dom.dfy`): `findIndex` over a class list, shared by the slider and the filter.
- `Wrappers` (`wrappers.dfy`): `Option`, for attributes that can be `undefined` or `null`.

## Edge cases kept as the code has them

- Filter initialisation applies "all" only when no button is active (js/main.js:199).
  - An active button without `data-filter` passes `undefined`, which hides every card.
  - An active button with an empty `data-filter` shows only the cards whose category is empty.
  - A click on that same button applies "all" instead (js/main.js:191).
  - `Filter.InitialValue` is therefore an `Option<string>`, and `Filter.InitAndClickDiffer` states where initialisation and a click disagree.
- `prepSkillBars` records a bar's inline width as its target only when that width is non-empty (js/main.js:331-334). `SkillBars.PreparedTarget` states the target a bar has after preparation in both cases.

## Model

| member | source | states |
|---|---|---|
| Dom.IndexOfFirst | js/main.js:236 | the result is -1 exactly when no element has the class; otherwise the element at the result has it and none before it does |
| Dom.FindIndex | js/main.js:234-237 | the loop over the live collection returns the same index as `IndexOfFirst` on its contents |
| Theme.GuardAsWritten | js/main.js:10 | the guard as written accepts every registered key, and the only other keys it accepts are names inherited from `Object.prototype` |
| Theme.IsRegistered | js/main.js:4-7 | the corrected guard accepts exactly "burgundy-noir" and "elegant-desert" |
| Theme.StartupAsWritten | js/main.js:28-29 | as written, a non-empty saved key that passes the `THEMES[saved]` guard is chosen at startup; any other saved value gives "burgundy-noir" |
| Theme.StartupAgreesOffPrototype | js/main.js:28-29 | for every saved value except the inherited names, the startup choice as written equals the corrected one |
| Theme.ApplyAsWritten | js/main.js:9-16 | as written, a key that fails `THEMES[key]` changes nothing; one that passes sets the marker and the preference to the key; the label gets the theme's name, or is emptied for an inherited name |
| Theme.ApplyAcceptsInheritedKey | js/main.js:9-16 | as written, applying "toString" sets the marker and the preference to "toString", which is no theme, and empties the label |
| Theme.StartupAcceptsInheritedKey | js/main.js:28-29 | as written, a saved preference "constructor" is chosen at startup although it is not a theme key |
| Theme.GuardsAgreeOffPrototype | js/main.js:10 | the written guard and the own-key guard agree on every key except the names inherited from `Object.prototype`; those pass the written guard only |
| Theme.StartupTheme | js/main.js:28-29 | the startup theme is always registered; it is the saved key when that key is registered, and "burgundy-noir" otherwise |
| Theme.ThemeEngine.constructor | js/main.js:27-29 | after page load the marker is the (corrected) startup theme, it is registered, stored, and shown in the label |
| Theme.ThemeEngine.ApplyTheme | js/main.js:9-16 | an unregistered key leaves marker, preference and label unchanged; a registered key sets the marker and preference to the key and the label to its registry name; the invariant (registered, stored, labelled) is preserved; on every key except the inherited names the result is the one `applyTheme` as written gives |
| Theme.ThemeEngine.ToggleClicked | js/main.js:35-38 | the toggle flips the panel's `open` class when the panel exists |
| Theme.ThemeEngine.ItemClicked | js/main.js:39-44 | a theme item applies its key (ignored when unregistered) and closes the panel |
| Theme.ThemeEngine.DocumentClicked | js/main.js:46-50 | a click outside both the panel and the toggle closes the panel; any other click leaves it |
| Slider.JsRem | js/main.js:256 | JavaScript `%` with a positive divisor: the Euclidean remainder for a non-negative dividend; for a negative one 0 or the Euclidean remainder minus the divisor, so in `(-m, 0]` |
| Slider.Wrap | js/main.js:255-258 | `goTo`'s wrap is `NaN` exactly when there are no slides (or the cursor is `NaN`); for every argument no lower than `-len` it is the residue modulo the slide count; below that it is that residue minus the slide count (or 0), which is not a slide position |
| Slider.Step | js/main.js:259-264 | no move keeps the cursor; `next` and `prev` give `NaN` exactly when there are no slides or the cursor is `NaN`; from a cursor in range every move stays in range |
| Slider.Advance | js/main.js:308-311 | any number of autoplay ticks from a cursor in range stays in range; with no slides a tick gives `NaN` |
| Slider.StepWrapsAtEnds | js/main.js:255-264 | `next` from the last slide gives 0 and `prev` from slide 0 gives the last |
| Slider.ForwardStep | js/main.js:255-261 | `next` from slide `i` goes to `i + 1`, and from the last slide to slide 0 |
| Slider.BackStep | js/main.js:255-264 | `prev` from slide `i` goes to `i - 1`, and from slide 0 to the last slide |
| Slider.StepsCancel | js/main.js:259-264 | `prev` after `next`, and `next` after `prev`, return to the starting slide |
| Slider.AdvanceIsModular | js/main.js:259-261 | `k` calls of `next` from slide `i` land on `(i + k) mod len` |
| Slider.AdvanceFullCycle | js/main.js:308-311 | `len` autoplay steps return to the starting slide |
| Slider.SwipeMove | js/main.js:292-295 | a swipe of at most 40 px either way does nothing; one further left than -40 px is `next`; one further right than 40 px is `prev` |
| Slider.SwipeMirrors | js/main.js:292-295 | mirroring a swipe's direction swaps `next` and `prev` and keeps "no move" |
| Slider.KeyMove | js/main.js:275-278 | ArrowRight is `next`, ArrowLeft is `prev`, and every other key does nothing |
| Slider.MetaAt | js/main.js:240-241 | `slideMeta[i]` is defined exactly for an integer `i` in `[0, 3)`, and is then that entry |
| Slider.ProjectSlider.constructor | js/main.js:234-318 | the cursor starts at `max(0, findIndex(is-active))`, so the `index === -1` check never fires; that slide is shown; the recorded touch start is 0; autoplay is on exactly when reduced motion is off, with exactly one live interval |
| Slider.ProjectSlider.UpdateMeta | js/main.js:240-244 | the caption changes only when `slideMeta[i]` exists, and then only in the title and description elements that exist |
| Slider.ProjectSlider.SetActive | js/main.js:246-253 | exactly the slide at position `i` is active; the label reads slide `i+1` of `slides.length`; the caption is updated as `updateMeta` says |
| Slider.ProjectSlider.GoTo | js/main.js:255-258 | the cursor becomes the wrapped argument, and the slider invariant holds: cursor in range, only its slide active, label matching |
| Slider.ProjectSlider.Navigate | js/main.js:259-264 | `next` and `prev` move the cursor by one step with wrap-around and keep the invariant; no move changes nothing |
| Slider.ProjectSlider.KeyDown | js/main.js:275-278 | a key press moves the cursor as `KeyMove` says; a move updates the caption as `updateMeta` says, and any other key leaves it |
| Slider.ProjectSlider.TouchStart | js/main.js:282-288 | the touch start records its x coordinate |
| Slider.ProjectSlider.TouchEnd | js/main.js:289-298 | a touch end moves the cursor as `SwipeMove` says for the distance from the recorded start; a move updates the caption as `updateMeta` says, and a short swipe leaves it |
| Slider.ProjectSlider.StopAutoplay | js/main.js:313-316 | afterwards `timer` is null and no interval of the slider is live |
| Slider.ProjectSlider.StartAutoplay | js/main.js:308-312 | without autoplay nothing changes; otherwise the old interval is cleared first and exactly the new one is live |
| Slider.ProjectSlider.Tick | js/main.js:311 | a tick of the live interval is `next`, caption update included |
| Filter.Shown | js/main.js:182 | a card is shown only for a defined value; "all" and a value equal to its category always show it; a shown card under any value other than "all" has exactly that category |
| Filter.ShownExactly | js/main.js:179-185 | "all" shows every card; any other value shows exactly the cards whose category equals it; `undefined` shows none |
| Filter.ClickValue | js/main.js:191 | a click applies the button's `data-filter` when it is non-empty, and "all" when it is missing or empty |
| Filter.InitialValue | js/main.js:195-199 | initialisation applies the first active button's `data-filter` unchanged, possibly `undefined`, and "all" when no button is active |
| Filter.InitAndClickDiffer | js/main.js:191-199 | on any page, initialisation and a click on the first active button agree when its `data-filter` is non-empty; when it is missing, initialisation hides every card and the click shows every card; when it is empty, initialisation shows only cards with an empty category and the click shows every card |
| Filter.ProjectFilter.constructor | js/main.js:170-200 | with at least one button and one card, every card is shown exactly when the initial value selects its category; otherwise nothing changes |
| Filter.ProjectFilter.ApplyFilter | js/main.js:179-185 | every card is displayed exactly when the visibility predicate holds for its category |
| Filter.ProjectFilter.Click | js/main.js:187-193 | after a click, exactly the clicked button is active and the cards are filtered by its click value |
| SkillBars.Candidates | js/main.js:76-85 | the fallback chain has eight candidates, from `data-target-width` first to the inline width last |
| SkillBars.FirstTruthy | js/main.js:76-85 | the result is the first candidate that is present and non-empty, or the chain's length when there is none |
| SkillBars.TargetWidth | js/main.js:76-85 | the target is never empty: it is the first present, non-empty candidate, or "0%" when there is none |
| SkillBars.Prepared | js/main.js:330-336 | preparation records a non-empty inline width as `data-target-width`, sets the width to "0%", and changes nothing else |
| SkillBars.PreparedTarget | js/main.js:328-337 | after preparation, a bar with an inline width grows back to exactly that width; a bar without one keeps the target it had |
| SkillBars.PrepSkillBars | js/main.js:328-337 | every bar on the page is replaced by its prepared form, in place |
| SkillBars.RevealSchedule | js/main.js:74-89 | one timeout per bar, in order; bar `idx` gets delay `idx * 120` ms and its target width |
| SkillBars.Fire | js/main.js:86-88 | a firing timeout sets only its own bar's width, to the scheduled target |
| SkillBars.RevealBlock.OnIntersection | js/main.js:68-90 | an entry that is not intersecting changes nothing and schedules nothing; an intersecting one adds `show`, which stays set, and schedules the block's bars |
| Nav.NavMenu.ToggleClicked | js/main.js:141-144 | the hamburger flips both `active` classes, so equal classes stay equal |
| Nav.NavMenu.LinkClicked | js/main.js:147-152 | a nav link clears both classes |
| Nav.NavMenu.DocumentClicked | js/main.js:155-164 | a click outside both elements while the panel is open clears both classes; any other click leaves them |

## Findings

| source | as written | input that shows it | evidently intended | confidence | as-written member | corrected member |
|---|---|---|---|---|---|---|
| js/main.js:10 | `!THEMES[key]` also accepts names inherited from `Object.prototype`, and so does the startup test `saved && THEMES[saved]` at line 29. Such a key becomes `data-theme` and the stored preference, and the label is emptied, since the entry's `label` is `undefined`. `Theme.ApplyAsWritten` models `applyTheme` with this guard. Lemma `Theme.StartupAcceptsInheritedKey` shows the effect at startup, and `Theme.ApplyAcceptsInheritedKey` shows it for a theme item. | a stored preference of "constructor", or a theme item with `data-theme="toString"` | only the registry's own keys are applied, so `data-theme` is always one of the two themes | not executed; high | Theme.StartupAsWritten | Theme.StartupTheme |

The corrected guard is `Theme.IsRegistered`, a test for an own key. `ThemeEngine` uses it throughout, so its invariant holds: the marker is always a registered theme. `Theme.StartupAgreesOffPrototype` and the last clause of `ThemeEngine.ApplyTheme` show that the correction changes nothing for any other key.

## Left out

- IntersectionObserver registration and its 0.15 threshold. Each intersection entry is handled by `RevealBlock.OnIntersection`.
- Event-listener registration itself. Each handler is a method, named after the event it handles.
- The real timing of `setTimeout` and `setInterval`. A reveal returns its timeouts as data, and an interval is an abstract positive handle. The 5000 ms autoplay period (js/main.js:305) is not modelled; `Slider.ProjectSlider.Tick` is one firing.
- Theme.ThemeEngine.constructor: the startup choice uses the corrected own-key guard. A saved inherited name such as "constructor" gives "burgundy-noir" here, where js/main.js:29 keeps "constructor". `Theme.StartupAsWritten` models the written choice.
- Theme.ThemeEngine.ApplyTheme: it uses the corrected own-key guard, not `!THEMES[key]` as written. For an inherited name the class ignores the key, where the code applies it. `Theme.ApplyAsWritten` models the written behaviour.
- The scroll-progress bar (js/main.js:116-125). It is floating-point division and clamping over live window metrics.
- Smooth anchor scrolling, the intro hide timer, the footer year and the `using-kb` class. These are calls into the browser with no decision logic.
- The `--glow-bg` background copy (js/main.js:19-24). It reads computed CSS.
- The removal of the slider's dots element (js/main.js:216-217). It is a DOM removal with no state the model keeps.
- The style-variable loop (js/main.js:12-13). It does nothing for the two shipped themes, whose override maps are empty.
- `localStorage` and `matchMedia` are not modelled as real I/O. The stored preference is a field, and reduced motion is a constructor parameter.
- `Node.contains` tests are not modelled. They are boolean inputs to the outside-click handlers.
- The slider's `aria-label` is kept as the pair (slide number, slide count). Its text is "Project slider, slide N van M"; the string formatting is not modelled.
- Slider.ProjectSlider.TouchEnd: `clientX` is an integer here. The browser reports a floating-point coordinate, and fractional distances are not modelled.
- Slider.ProjectSlider.GoTo: it requires an argument no lower than minus the slide count. The script only calls it with `index + 1` and `index - 1`. `Slider.Wrap` gives the wrapped value below that bound too.
- Event propagation order is not modelled. A click on the hamburger or the theme toggle also reaches the document handler, where it is inside the element and changes nothing. The theme toggle stops propagation anyway.
